/**
 * The tool registry and executor: a name -> handler map with its declarations,
 * and an executor that always answers a call with a well-formed response.
 */
module Tools {
  import opened Common
  import opened Json
  import Text

  /** What invoking a handler does: return a value, or raise with a message. */
  datatype Invocation = Returned(value: Value) | Raised(message: string)

  /**
   * A registered callable. `isAsync` stands for "is a coroutine function";
   * `invoke` is the call with the keyword arguments unpacked.
   */
  datatype Handler = Handler(isAsync: bool, invoke: Args -> Invocation)

  /** The declaration advertised to the inference API for one tool. */
  datatype Declaration = Declaration(name: string, description: string)

  datatype Status = Success | Error

  function StatusText(s: Status): string
  {
    match s
    case Success => "success"
    case Error => "error"
  }

  /** The `response` dict of a function response: status, data and error. */
  datatype ToolResponse = ToolResponse(status: Status, data: Value, error: Option<string>)

  /** A function response: the call's correlation id and tool name, and the response dict. */
  datatype FunctionResponse = FunctionResponse(id: string, name: string, response: ToolResponse)

  function UnknownToolError(name: string): string
  {
    "Unknown tool function requested: '" + name + "' is not registered."
  }

  function HandlerError(name: string, message: string): string
  {
    "Error executing tool function '" + name + "': " + message
  }

  function DuplicateToolError(name: string): string
  {
    "Tool '" + name + "' is already registered"
  }

  function NotAsyncError(name: string): string
  {
    "Tool '" + name + "' must be an async function"
  }

  /** The declarations of `names`, in that order. */
  function DeclarationsOf(names: seq<string>, declarations: map<string, Declaration>): (ds: seq<Declaration>)
    requires forall n :: n in names ==> n in declarations
    ensures |ds| == |names|
    ensures forall k :: 0 <= k < |names| ==> ds[k] == declarations[names[k]]
  {
    if names == [] then []
    else [declarations[names[0]]] + DeclarationsOf(names[1..], declarations)
  }

  predicate Distinct(names: seq<string>)
  {
    forall i, j :: 0 <= i < j < |names| ==> names[i] != names[j]
  }

  class ToolExecutor {
    var handlers: map<string, Handler>
    var declarations: map<string, Declaration>
    /** The insertion order of the keys of both dicts. */
    var order: seq<string>
    const verbose: bool

    /** Both dicts have the same keys, listed once each in `order`. */
    ghost predicate Valid()
      reads this
    {
      && handlers.Keys == declarations.Keys
      && (forall n :: n in handlers <==> n in order)
      && Distinct(order)
    }

    constructor (verbose: bool)
      ensures Valid()
      ensures handlers == map[] && declarations == map[] && order == []
      ensures this.verbose == verbose
    {
      handlers := map[];
      declarations := map[];
      order := [];
      this.verbose := verbose;
    }

    /** The registered declarations, in registration order. */
    function Tools(): (ds: seq<Declaration>)
      reads this
      requires Valid()
      ensures |ds| == |order| == |declarations|
      ensures forall k :: 0 <= k < |order| ==> ds[k] == declarations[order[k]]
    {
      DistinctCardinality(order, handlers.Keys);
      DeclarationsOf(order, declarations)
    }

    /** A name is registered exactly when it is listed in registration order. */
    function HasTool(name: string): (r: bool)
      reads this
      requires Valid()
      ensures r <==> name in order
    {
      name in handlers
    }

    /**
     * Adds a tool. A name already present, or a handler that is not a
     * coroutine function, raises and leaves the registry as it was.
     */
    method RegisterTool(name: string, handler: Handler, declaration: Declaration) returns (r: Outcome)
      requires Valid()
      modifies this
      ensures Valid()
      ensures name in old(handlers) ==> r == Fail(DuplicateToolError(name))
      ensures name !in old(handlers) && !handler.isAsync ==> r == Fail(NotAsyncError(name))
      ensures r.Fail? ==> handlers == old(handlers) && declarations == old(declarations) && order == old(order)
      ensures r.Pass? <==> name !in old(handlers) && handler.isAsync
      ensures r.Pass? ==> && handlers == old(handlers)[name := handler]
                          && declarations == old(declarations)[name := declaration]
                          && order == old(order) + [name]
      // the advertised declarations grow by exactly the new one, at the end
      ensures r.Pass? ==> Tools() == old(Tools()) + [declaration]
    {
      if HasTool(name) {
        return Fail(DuplicateToolError(name));
      }
      if !handler.isAsync {
        return Fail(NotAsyncError(name));
      }
      AppendFresh(order, declarations, name, declaration);
      handlers := handlers[name := handler];
      declarations := declarations[name := declaration];
      order := order + [name];
      return Pass;
    }

    /**
     * Runs a tool call and wraps its outcome. Missing arguments mean no
     * arguments. The registry is only read.
     */
    function ExecuteTool(name: string, id: string, args: Option<Args>): (r: FunctionResponse)
      reads this
      // the call is always echoed
      ensures r.id == id && r.name == name
      // unknown tool: a reported error, never a raise
      ensures name !in handlers ==>
                && r.response.status == Error && r.response.data == Null
                && r.response.error.Some? && Text.Contains(r.response.error.value, "not registered")
      // the handler's return value is passed through verbatim
      ensures name in handlers && handlers[name].invoke(ArgsOrEmpty(args)).Returned? ==>
                r.response == ToolResponse(Success, handlers[name].invoke(ArgsOrEmpty(args)).value, None)
      // a raised message is kept in the error text
      ensures name in handlers && handlers[name].invoke(ArgsOrEmpty(args)).Raised? ==>
                && r.response.status == Error && r.response.data == Null && r.response.error.Some?
                && Text.Contains(r.response.error.value, handlers[name].invoke(ArgsOrEmpty(args)).message)
      // the status is success exactly when a registered handler returned
      ensures r.response.status == Success <==>
                name in handlers && handlers[name].invoke(ArgsOrEmpty(args)).Returned?
    {
      var a := ArgsOrEmpty(args);
      if name !in handlers then
        var message := UnknownToolError(name);
        Text.ContainsPiece("Unknown tool function requested: '" + name + "' is ", "not registered", ".");
        assert message == ("Unknown tool function requested: '" + name + "' is ") + "not registered" + ".";
        FunctionResponse(id, name, ToolResponse(Error, Null, Some(message)))
      else
        match handlers[name].invoke(a)
        case Returned(v) => FunctionResponse(id, name, ToolResponse(Success, v, None))
        case Raised(m) =>
          Text.ContainsPiece("Error executing tool function '" + name + "': ", m, "");
          assert HandlerError(name, m) == "Error executing tool function '" + name + "': " + m + "";
          FunctionResponse(id, name, ToolResponse(Error, Null, Some(HandlerError(name, m))))
    }
  }

  /** `args or {}`: no arguments and empty arguments are the same. */
  function ArgsOrEmpty(args: Option<Args>): (a: Args)
    // given arguments are passed on as they are
    ensures args.Some? ==> a == args.value
    // the result is empty exactly when no arguments or empty arguments were given
    ensures a == map[] <==> args == None || args == Some(map[])
  {
    match args
    case Some(a) => a
    case None => map[]
  }

  /** Appending a fresh name keeps the list repeat-free and appends its declaration. */
  lemma AppendFresh(names: seq<string>, declarations: map<string, Declaration>, name: string, d: Declaration)
    requires Distinct(names) && name !in names
    requires forall n :: n in names ==> n in declarations
    ensures Distinct(names + [name])
    ensures DeclarationsOf(names + [name], declarations[name := d]) == DeclarationsOf(names, declarations) + [d]
  {
  }

  /** A list without repeats has as many elements as the set of its elements. */
  lemma {:induction false} DistinctCardinality(names: seq<string>, keys: set<string>)
    requires Distinct(names)
    requires forall n :: n in keys <==> n in names
    ensures |names| == |keys|
    decreases |names|
  {
    if names != [] {
      var rest := names[1..];
      assert Distinct(rest);
      assert names[0] !in rest by {
        forall k | 0 <= k < |rest| ensures rest[k] != names[0] {
          assert rest[k] == names[k + 1];
        }
      }
      DistinctCardinality(rest, keys - {names[0]});
    } else {
      assert forall n :: n !in keys;
      assert keys == {};
    }
  }

  /**
   * The sample tool of the executor's tests: it answers "Executed with: "
   * followed by its `message` argument, "test" when that is not given.
   */
  function SampleTool(a: Args): Invocation
  {
    var message := if "message" in a && a["message"].Str? then a["message"].s else "test";
    Returned(Str("Executed with: " + message))
  }

  /**
   * Registering the async sample tool and calling it with {"message": "hello"}
   * answers success with "Executed with: hello", no error, and the call's id and name.
   */
  method ExecuteSampleTool() returns (registered: Outcome, r: FunctionResponse)
    ensures registered == Pass
    ensures r == FunctionResponse("test_id_123", "sample_func", ToolResponse(Success, Str("Executed with: hello"), None))
  {
    var executor := new ToolExecutor(true);
    registered := executor.RegisterTool("sample_func", Handler(true, SampleTool), Declaration("sample_func", "A sample test function"));
    var args := map["message" := Str("hello")];
    assert "message" in args && args["message"] == Str("hello");
    assert "Executed with: " + "hello" == "Executed with: hello";
    assert SampleTool(args) == Returned(Str("Executed with: hello"));
    r := executor.ExecuteTool("sample_func", "test_id_123", Some(args));
  }
}
