/**
 * Presentation navigation state of one session: the current slide, the slide
 * count reported by the frontend (0 = unknown) and the session metadata.
 * Every operation of the original runs under one lock; here each is one
 * atomic method call.
 */
module SlideState {
  import opened Common
  import opened Json

  const NextDirection := "next"
  const PrevDirection := "prev"
  const JumpDirection := "jump"

  const MissingIndexError := "Index required for 'jump' navigation"

  function InvalidDirectionError(direction: string): string
  {
    "Invalid direction: " + direction
  }

  /**
   * The slide a navigation request moves to from `current` when `total`
   * slides are known (`total <= 0` means the count is unknown), or the
   * error the request raises.
   */
  function NavigationTarget(current: int, total: int, direction: string, index: Option<int>): (r: Result<int>)
    // exactly three request shapes succeed; the others raise with their message
    ensures r.Ok? <==> direction == NextDirection || direction == PrevDirection
                       || (direction == JumpDirection && index.Some?)
    ensures direction == JumpDirection && index.None? ==> r == Err(MissingIndexError)
    ensures direction !in {NextDirection, PrevDirection, JumpDirection} ==> r == Err(InvalidDirectionError(direction))
    // from a non-negative slide the target is never negative
    ensures r.Ok? && current >= 0 ==> r.value >= 0
    // with a known count, "next" and "jump" always land on an existing slide
    ensures r.Ok? && total > 0 && current >= 0 && direction != PrevDirection ==> r.value <= total - 1
    // "next" advances by one unless it is already on (or past) the last slide
    ensures direction == NextDirection && (total <= 0 || current < total - 1) ==> r == Ok(current + 1)
    ensures direction == NextDirection && total > 0 && current >= total - 1 ==> r == Ok(total - 1)
    // "prev" steps back by one and stops at slide 0
    ensures direction == PrevDirection && current >= 1 ==> r == Ok(current - 1)
    ensures direction == PrevDirection && current < 1 ==> r == Ok(0)
    // "jump" lands on the requested slide when it exists, otherwise on the nearest end
    ensures direction == JumpDirection && index.Some? && 0 <= index.value && (total <= 0 || index.value < total)
            ==> r == Ok(index.value)
    ensures direction == JumpDirection && index.Some? && index.value < 0 ==> r == Ok(0)
    ensures direction == JumpDirection && index.Some? && total > 0 && index.value >= total ==> r == Ok(total - 1)
  {
    if direction == NextDirection then
      if total > 0 then Ok(Min(current + 1, total - 1)) else Ok(current + 1)
    else if direction == PrevDirection then
      Ok(Max(current - 1, 0))
    else if direction == JumpDirection then
      match index
      case None => Err(MissingIndexError)
      case Some(i) =>
        var clamped := Max(0, i);
        if total > 0 then Ok(Min(clamped, total - 1)) else Ok(clamped)
    else
      Err(InvalidDirectionError(direction))
  }

  /** The slide indices 0 .. total-1 of a deck with a known slide count. */
  predicate InDeck(current: int, total: int)
  {
    total > 0 && 0 <= current <= total - 1
  }

  /** The metadata a fresh or reset session starts with. */
  function InitialMetadata(startedAt: Value): (m: map<string, Value>)
    ensures m.Keys == {"started_at", "session_id"}
    ensures m["started_at"] == startedAt && m["session_id"] == Null
  {
    map["started_at" := startedAt, "session_id" := Null]
  }

  /** A navigation request: a direction and an optional target index. */
  type NavRequest = (string, Option<int>)

  /** `n` copies of a request without an index. */
  function Repeat(direction: string, n: nat): (rs: seq<NavRequest>)
    ensures |rs| == n && forall k :: 0 <= k < n ==> rs[k] == (direction, None)
  {
    seq(n, _ => (direction, None))
  }

  /** Applies a sequence of navigation requests, stopping at the first that raises. */
  function NavigateAll(current: int, total: int, requests: seq<NavRequest>): int
    decreases |requests|
  {
    if requests == [] then current
    else match NavigationTarget(current, total, requests[0].0, requests[0].1)
      case Ok(next) => NavigateAll(next, total, requests[1..])
      case Err(_) => current
  }

  /** A navigation that starts on an existing slide ends on one. */
  lemma NavigationStaysInDeck(current: int, total: int, direction: string, index: Option<int>)
    requires InDeck(current, total)
    ensures NavigationTarget(current, total, direction, index).Ok? ==>
              InDeck(NavigationTarget(current, total, direction, index).value, total)
  {
  }

  /** Any sequence of navigations from an existing slide keeps the position in the deck. */
  lemma {:induction false} NavigateAllStaysInDeck(current: int, total: int, requests: seq<NavRequest>)
    requires InDeck(current, total)
    ensures InDeck(NavigateAll(current, total, requests), total)
    decreases |requests|
  {
    if requests != [] {
      var r := NavigationTarget(current, total, requests[0].0, requests[0].1);
      if r.Ok? {
        NavigationStaysInDeck(current, total, requests[0].0, requests[0].1);
        NavigateAllStaysInDeck(r.value, total, requests[1..]);
      }
    }
  }

  /** With an unknown slide count, `n` "next" requests advance by exactly `n`: growth is unbounded. */
  lemma {:induction false} NextGrowsWithoutBound(current: int, n: nat)
    ensures NavigateAll(current, 0, Repeat(NextDirection, n)) == current + n
    decreases n
  {
    if n > 0 {
      var requests := Repeat(NextDirection, n);
      assert requests[0] == (NextDirection, None);
      assert requests[1..] == Repeat(NextDirection, n - 1);
      NextGrowsWithoutBound(current + 1, n - 1);
    }
  }

  /** However many "prev" requests follow, the position never drops below slide 0. */
  lemma {:induction false} PrevNeverNegative(current: int, total: int, n: nat)
    requires current >= 0
    ensures NavigateAll(current, total, Repeat(PrevDirection, n)) == Max(current - n, 0)
    decreases n
  {
    if n > 0 {
      var requests := Repeat(PrevDirection, n);
      assert requests[0] == (PrevDirection, None);
      assert requests[1..] == Repeat(PrevDirection, n - 1);
      PrevNeverNegative(Max(current - 1, 0), total, n - 1);
    }
  }

  class StateManager {
    var currentSlide: int
    var totalSlides: int
    var sessionMetadata: map<string, Value>

    /** The position is never negative and the metadata always holds its two keys. */
    ghost predicate Valid()
      reads this
    {
      currentSlide >= 0 && "started_at" in sessionMetadata && "session_id" in sessionMetadata
    }

    /** The slide count is stored as given, without clamping; the session starts on slide 0. */
    constructor (totalSlides: int, startedAt: Value)
      ensures Valid()
      ensures this.totalSlides == totalSlides && currentSlide == 0
      ensures sessionMetadata == InitialMetadata(startedAt)
    {
      this.totalSlides := totalSlides;
      currentSlide := 0;
      sessionMetadata := InitialMetadata(startedAt);
    }

    /** Moves the position; a request that raises leaves every field as it was. */
    method Navigate(direction: string, index: Option<int>) returns (r: Result<int>)
      requires Valid()
      modifies this
      ensures Valid()
      ensures r == NavigationTarget(old(currentSlide), old(totalSlides), direction, index)
      ensures currentSlide == (if r.Ok? then r.value else old(currentSlide))
      ensures totalSlides == old(totalSlides) && sessionMetadata == old(sessionMetadata)
    {
      var newIndex: int;
      if direction == NextDirection {
        if totalSlides > 0 {
          newIndex := Min(currentSlide + 1, totalSlides - 1);
        } else {
          newIndex := currentSlide + 1;
        }
      } else if direction == PrevDirection {
        newIndex := Max(currentSlide - 1, 0);
      } else if direction == JumpDirection {
        if index.None? {
          return Err(MissingIndexError);
        }
        newIndex := Max(0, index.value);
        if totalSlides > 0 {
          newIndex := Min(newIndex, totalSlides - 1);
        }
      } else {
        return Err(InvalidDirectionError(direction));
      }
      currentSlide := newIndex;
      return Ok(newIndex);
    }

    /** Negative positions become 0; there is no upper bound check. */
    method SetCurrentSlide(index: int)
      requires Valid()
      modifies this
      ensures Valid()
      ensures currentSlide == Max(0, index)
      ensures totalSlides == old(totalSlides) && sessionMetadata == old(sessionMetadata)
    {
      currentSlide := Max(0, index);
    }

    method GetCurrentSlide() returns (r: int)
      requires Valid()
      ensures r == currentSlide && r >= 0
    {
      return currentSlide;
    }

    /** Negative counts become 0 (unknown); afterwards the count is never negative. */
    method SetTotalSlides(total: int)
      requires Valid()
      modifies this
      ensures Valid()
      ensures totalSlides == Max(0, total) && totalSlides >= 0
      ensures currentSlide == old(currentSlide) && sessionMetadata == old(sessionMetadata)
    {
      totalSlides := Max(0, total);
    }

    method GetTotalSlides() returns (r: int)
      ensures r == totalSlides
    {
      return totalSlides;
    }

    /** A snapshot of the state; the metadata is a copy, and nothing is changed. */
    method GetContext() returns (ctx: map<string, Value>)
      requires Valid()
      ensures ctx.Keys == {"current_slide", "total_slides", "session_metadata"}
      ensures ctx["current_slide"] == Int(currentSlide) && ctx["total_slides"] == Int(totalSlides)
      ensures ctx["session_metadata"] == Object(sessionMetadata)
    {
      ctx := map[
        "current_slide" := Int(currentSlide),
        "total_slides" := Int(totalSlides),
        "session_metadata" := Object(sessionMetadata)
      ];
    }

    method SetSessionId(sessionId: Value)
      requires Valid()
      modifies this
      ensures Valid()
      ensures sessionMetadata == old(sessionMetadata)["session_id" := sessionId]
      ensures currentSlide == old(currentSlide) && totalSlides == old(totalSlides)
    {
      sessionMetadata := sessionMetadata["session_id" := sessionId];
    }

    /** Back to slide 0 with fresh metadata (session id cleared); the slide count is kept. */
    method Reset(startedAt: Value)
      requires Valid()
      modifies this
      ensures Valid()
      ensures currentSlide == 0 && totalSlides == old(totalSlides)
      ensures sessionMetadata == InitialMetadata(startedAt)
    {
      currentSlide := 0;
      sessionMetadata := InitialMetadata(startedAt);
    }
  }

  /**
   * The setters do not keep the "within the deck" condition: a frontend that
   * reports slide 9 of 10 and then a count of 5 leaves the position outside the deck.
   */
  method ShrinkingCountLeavesDeck(startedAt: Value) returns (before: bool, after: bool)
    ensures before && !after
  {
    var state := new StateManager(0, startedAt);
    state.SetTotalSlides(10);
    state.SetCurrentSlide(9);
    before := InDeck(state.currentSlide, state.totalSlides);
    state.SetTotalSlides(5);
    after := InDeck(state.currentSlide, state.totalSlides);
  }
}
