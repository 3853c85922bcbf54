/**
 * The slide tools offered to the inference stream: navigation and a context
 * snapshot, each answered with a result record instead of an exception.
 */
module SlideToolkit {
  import opened Common
  import opened Json
  import opened SlideState

  /** The record of a navigation that succeeded. */
  function NavigateSuccessRecord(direction: string, current: int, total: int): Value
  {
    Object(map[
      "action" := Str("navigate"),
      "direction" := Str(direction),
      "current_slide" := Int(current),
      "total_slides" := Int(total),
      "success" := Bool(true)
    ])
  }

  /** The record of a navigation that raised. */
  function NavigateFailureRecord(error: string): Value
  {
    Object(map["action" := Str("navigate"), "success" := Bool(false), "error" := Str(error)])
  }

  class SlideTools {
    const state: StateManager

    constructor (state: StateManager)
      ensures this.state == state
    {
      this.state := state;
    }

    /**
     * Navigates and reports the outcome. A successful move reports the new
     * position, which is the state's; a failed one reports the error and
     * leaves the state untouched.
     */
    method NavigateSlide(direction: string, index: Option<int>) returns (r: Value)
      requires state.Valid()
      modifies state
      ensures state.Valid()
      ensures state.totalSlides == old(state.totalSlides) && state.sessionMetadata == old(state.sessionMetadata)
      ensures NavigationTarget(old(state.currentSlide), old(state.totalSlides), direction, index).Ok? ==>
                && state.currentSlide == NavigationTarget(old(state.currentSlide), old(state.totalSlides), direction, index).value
                && r == NavigateSuccessRecord(direction, state.currentSlide, state.totalSlides)
      ensures NavigationTarget(old(state.currentSlide), old(state.totalSlides), direction, index).Err? ==>
                && state.currentSlide == old(state.currentSlide)
                && r == NavigateFailureRecord(NavigationTarget(old(state.currentSlide), old(state.totalSlides), direction, index).error)
    {
      var moved := state.Navigate(direction, index);
      match moved
      case Ok(newIndex) =>
        var total := state.GetTotalSlides();
        r := NavigateSuccessRecord(direction, newIndex, total);
      case Err(e) =>
        r := NavigateFailureRecord(e);
    }

    /**
     * The state snapshot with `action` and `success` added. Nothing changes.
     */
    method GetPresentationContext() returns (r: Value)
      requires state.Valid()
      ensures r.Object?
      ensures r.fields.Keys == {"action", "success", "current_slide", "total_slides", "session_metadata"}
      ensures r.fields["action"] == Str("get_context") && r.fields["success"] == Bool(true)
      ensures r.fields["current_slide"] == Int(state.currentSlide)
      ensures r.fields["total_slides"] == Int(state.totalSlides)
      ensures r.fields["session_metadata"] == Object(state.sessionMetadata)
    {
      var context := state.GetContext();
      r := Object(map["action" := Str("get_context"), "success" := Bool(true)] + context);
    }
  }
}
