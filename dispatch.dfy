/** The `requires_action` block of main_streamlit.py: every function-type tool
    call of a batch is looked up in `available_funcs`, called with its parsed
    keyword arguments, and its output paired with the call's id for
    `submit_tool_outputs`. */
module Dispatch {
  import opened Values
  import Integers
  import Records
  import Tools

  /** The functions listed in `funcs`. */
  datatype ToolName =
    | GetBirthday
    | GetNumAssets
    | GetRandomAsset
    | GetPersonName
    | GetAssetDetails
    | GetSpecificLocation
    | SearchPersonAssets
    | ShowImage
    | SmartSearch
    | AssetSearch

  /** `funcs`, in its order. */
  const Funcs: seq<ToolName> := [GetBirthday, GetNumAssets, GetRandomAsset, GetPersonName, GetAssetDetails,
    GetSpecificLocation, SearchPersonAssets, ShowImage, SmartSearch, AssetSearch]

  /** `f.__name__`. */
  function NameOf(t: ToolName): string {
    match t
    case GetBirthday => "get_birthday"
    case GetNumAssets => "get_num_assets"
    case GetRandomAsset => "get_random_asset"
    case GetPersonName => "get_person_name"
    case GetAssetDetails => "get_asset_details"
    case GetSpecificLocation => "get_specific_location"
    case SearchPersonAssets => "search_person_assets"
    case ShowImage => "show_image"
    case SmartSearch => "smart_search"
    case AssetSearch => "asset_search"
  }

  /** `available_funcs[name]`, with None where Python raises KeyError. */
  function Lookup(name: string): (r: Option<ToolName>)
    ensures r.Some? ==> NameOf(r.value) == name
    ensures forall t :: NameOf(t) == name ==> r == Some(t)
  {
    if name == "get_birthday" then Some(GetBirthday)
    else if name == "get_num_assets" then Some(GetNumAssets)
    else if name == "get_random_asset" then Some(GetRandomAsset)
    else if name == "get_person_name" then Some(GetPersonName)
    else if name == "get_asset_details" then Some(GetAssetDetails)
    else if name == "get_specific_location" then Some(GetSpecificLocation)
    else if name == "search_person_assets" then Some(SearchPersonAssets)
    else if name == "show_image" then Some(ShowImage)
    else if name == "smart_search" then Some(SmartSearch)
    else if name == "asset_search" then Some(AssetSearch)
    else None
  }

  /** `funcs` lists every tool exactly once, under names that do not clash,
      so the dict built from it loses none of them. */
  lemma FuncsListEveryTool()
    ensures forall t :: t in Funcs
    ensures forall i, j :: 0 <= i < j < |Funcs| ==> Funcs[i] != Funcs[j] && NameOf(Funcs[i]) != NameOf(Funcs[j])
  {
    forall t ensures t in Funcs {
      match t
      case GetBirthday => assert Funcs[0] == t;
      case GetNumAssets => assert Funcs[1] == t;
      case GetRandomAsset => assert Funcs[2] == t;
      case GetPersonName => assert Funcs[3] == t;
      case GetAssetDetails => assert Funcs[4] == t;
      case GetSpecificLocation => assert Funcs[5] == t;
      case SearchPersonAssets => assert Funcs[6] == t;
      case ShowImage => assert Funcs[7] == t;
      case SmartSearch => assert Funcs[8] == t;
      case AssetSearch => assert Funcs[9] == t;
    }
  }

  /** A parameter of a tool's Python signature. */
  datatype Param = Required(name: string) | Optional(name: string, default: Value)

  /** The signature of each tool, parameter by parameter. */
  function Signature(t: ToolName): seq<Param> {
    match t
    case GetBirthday => [Required("name")]
    case GetNumAssets => [Required("name")]
    case GetRandomAsset => [Required("number")]
    case GetPersonName => [Required("uuid")]
    case GetAssetDetails => [Required("id")]
    case GetSpecificLocation => [Required("lat"), Required("lng")]
    case SearchPersonAssets => [Required("name")]
    case ShowImage => [Required("id")]
    case SmartSearch => [Required("query"), Optional("recent", Str("false")), Optional("num", Str("7"))]
    case AssetSearch => [Optional("order", Str("desc")), Optional("takenAfter", Null), Optional("takenBefore", Null),
                         Optional("city", Null), Optional("num", Str("7"))]
  }

  /** The parameter names of a signature. */
  function Names(params: seq<Param>): set<string> {
    set i | 0 <= i < |params| :: params[i].name
  }

  /** The value each parameter is bound to, all keywords being known. */
  function BindEach(params: seq<Param>, args: Record): (r: Result<seq<Value>>)
    ensures r.Ok? <==> forall i :: 0 <= i < |params| ==> params[i].Optional? || params[i].name in args
    ensures r.Ok? ==> |r.value| == |params| && forall i :: 0 <= i < |params| ==>
      r.value[i] == if params[i].name in args then args[params[i].name] else params[i].default
    decreases |params|
  {
    if params == [] then Ok([])
    else
      var p := params[0];
      var v :- if p.name in args then Ok(args[p.name]) else if p.Optional? then Ok(p.default) else Err(TypeError);
      var rest :- BindEach(params[1..], args);
      Ok([v] + rest)
  }

  /** `f(**args)`'s binding of keyword arguments: an unexpected keyword or a
      missing required one raises TypeError; an absent optional takes its default. */
  function Bind(params: seq<Param>, args: Record): (r: Result<seq<Value>>)
    ensures r.Ok? <==> args.Keys <= Names(params) && forall i :: 0 <= i < |params| ==> params[i].Optional? || params[i].name in args
    ensures r.Ok? ==> |r.value| == |params| && forall i :: 0 <= i < |params| ==>
      r.value[i] == if params[i].name in args then args[params[i].name] else params[i].default
  {
    if !(args.Keys <= Names(params)) then Err(TypeError) else BindEach(params, args)
  }

  /** A tool that does not touch the buffer. */
  function Plain(r: Result<Value>, thumbs: seq<Tools.Thumb>): Result<Tools.Effect> {
    var v :- r;
    Ok(Tools.Effect(Tools.Json(v), thumbs))
  }

  /** `f(**args)` for the tool `t`, with the buffer `thumbs` as it stands. */
  function Invoke(t: ToolName, args: Record, be: Tools.Backend, thumbs: seq<Tools.Thumb>): (r: Result<Tools.Effect>)
    ensures t != ShowImage && t != GetRandomAsset && r.Ok? ==> r.value.thumbs == thumbs
  {
    var a :- Bind(Signature(t), args);
    match t
    case GetBirthday => Plain(Tools.GetBirthday(be, a[0]), thumbs)
    case GetNumAssets => Plain(Tools.GetNumAssets(be, a[0]), thumbs)
    case GetRandomAsset => Tools.GetRandomAsset(be, a[0])
    case GetPersonName => Plain(Tools.GetPersonName(be, a[0]), thumbs)
    case GetAssetDetails => Plain(Tools.GetAssetDetails(be, a[0]), thumbs)
    case GetSpecificLocation =>
      var names :- Tools.GetSpecificLocation(be, a[0], a[1]);
      Ok(Tools.Effect(Tools.Places(names), thumbs))
    case SearchPersonAssets => Plain(Tools.SearchPersonAssets(be, a[0]), thumbs)
    case ShowImage => Tools.ShowImage(be, a[0], thumbs)
    case SmartSearch => Plain(Tools.SmartSearch(be, a[0], a[1], a[2]), thumbs)
    case AssetSearch => Plain(Tools.AssetSearch(be, a[0], a[1], a[2], a[3], a[4]), thumbs)
  }

  /** Whether a tool succeeds, and what it answers, does not depend on the
      buffer it finds. */
  lemma InvokeIgnoresThumbs(t: ToolName, args: Record, be: Tools.Backend, th1: seq<Tools.Thumb>, th2: seq<Tools.Thumb>)
    ensures Invoke(t, args, be, th1).Ok? <==> Invoke(t, args, be, th2).Ok?
    ensures Invoke(t, args, be, th1).Ok? ==> Invoke(t, args, be, th1).value.output == Invoke(t, args, be, th2).value.output
    ensures Invoke(t, args, be, th1).Err? ==> Invoke(t, args, be, th1).error == Invoke(t, args, be, th2).error
  {
    match t
    case GetBirthday =>
    case GetNumAssets =>
    case GetRandomAsset =>
    case GetPersonName =>
    case GetAssetDetails =>
    case GetSpecificLocation =>
    case SearchPersonAssets =>
    case ShowImage =>
    case SmartSearch =>
    case AssetSearch =>
  }

  /** `asset_search` called without `num` uses the default `"7"`: it
      returns at most seven records. */
  lemma AssetSearchDefaultsToSeven(args: Record, be: Tools.Backend, thumbs: seq<Tools.Thumb>)
    requires "num" !in args && Invoke(AssetSearch, args, be, thumbs).Ok?
    ensures var out := Invoke(AssetSearch, args, be, thumbs).value.output;
      out.Json? && out.value.Arr? && |out.value.items| <= 7
  {
    var a := Bind(Signature(AssetSearch), args).value;
    assert a[4] == Str("7");
    assert Integers.ParseInt("7") == Ok(7);
    Tools.AssetSearchAtMostNum(be, a[0], a[1], a[2], a[3], a[4]);
  }

  /** `smart_search` called without `recent` uses the default `"false"`: it
      sends `recent = "false"` and keeps the backend's order, returning the
      first ten unwrapped records, trimmed. */
  lemma SmartSearchDefaultKeepsOrder(args: Record, be: Tools.Backend, thumbs: seq<Tools.Thumb>, xs: seq<Value>)
    requires "recent" !in args && Invoke(SmartSearch, args, be, thumbs).Ok?
    requires "query" in args && args["query"].Str?
    requires Records.Unwrap(be.get(Tools.SmartSearchQuery(Tools.SmartPayload(args["query"].s, "false")))) == Ok(Arr(xs))
    ensures var out := Invoke(SmartSearch, args, be, thumbs).value.output;
      && out.Json? && out.value.Arr?
      && |out.value.items| == (if |xs| < 10 then |xs| else 10)
      && forall i :: 0 <= i < |out.value.items| ==> xs[i].Obj? && out.value.items[i] == Obj(Records.TrimJson(xs[i].fields))
  {
    var a := Bind(Signature(SmartSearch), args).value;
    assert a[0] == args["query"] && a[1] == Str("false");
    var body := be.get(Tools.SmartSearchQuery(Tools.SmartPayload(args["query"].s, "false")));
    Records.SmartResultKeepsOrder(body, "false", xs);
  }

  /** One entry of `calls`: its id, its `type`, and the function name and
      parsed arguments of a function call. */
  datatype ToolCall = ToolCall(id: string, kind: string, name: string, arguments: Record)

  /** One element of `tool_outputs`. */
  datatype ToolOutput = ToolOutput(callId: string, output: Tools.Output)

  /** The loop's state: `call_ids`, `outputs`, the buffer, and the exception
      raised, if one was. */
  datatype Batch = Batch(callIds: seq<string>, outputs: seq<Tools.Output>, thumbs: seq<Tools.Thumb>, failure: Option<Error>)

  /** `available_funcs[name](**args)`: None where the name is not in the
      dict (a KeyError), otherwise what that tool does to its keyword
      arguments and the buffer as it stands. */
  type Table = (string, Record, seq<Tools.Thumb>) -> Option<Result<Tools.Effect>>

  /** The tool table of main_streamlit.py against the backend `be`. */
  function Available(be: Tools.Backend): Table {
    (name: string, args: Record, thumbs: seq<Tools.Thumb>) =>
      match Lookup(name)
      case None => None
      case Some(t) => Some(Invoke(t, args, be, thumbs))
  }

  /** A table whose names resolve, and whose tools succeed, fail and answer,
      alike whatever buffer they find. */
  ghost predicate BufferBlind(impl: Table) {
    forall name, args, th1, th2 ::
      && (impl(name, args, th1).Some? <==> impl(name, args, th2).Some?)
      && (impl(name, args, th1).Some? ==>
            && (impl(name, args, th1).value.Ok? <==> impl(name, args, th2).value.Ok?)
            && (impl(name, args, th1).value.Ok? ==> impl(name, args, th1).value.value.output == impl(name, args, th2).value.value.output))
  }

  /** The tool named `name`, if any, leaves the buffer as it was. */
  ghost predicate LeavesBuffer(impl: Table, name: string) {
    forall args, th :: impl(name, args, th).Some? && impl(name, args, th).value.Ok? ==> impl(name, args, th).value.value.thumbs == th
  }

  /** The tools of main_streamlit.py are blind to the buffer. */
  lemma AvailableBlind(be: Tools.Backend)
    ensures BufferBlind(Available(be))
  {
    forall name, args, th1, th2 | Lookup(name).Some? ensures
      && (Available(be)(name, args, th1).value.Ok? <==> Available(be)(name, args, th2).value.Ok?)
      && (Available(be)(name, args, th1).value.Ok? ==> Available(be)(name, args, th1).value.value.output == Available(be)(name, args, th2).value.value.output)
    {
      InvokeIgnoresThumbs(Lookup(name).value, args, be, th1, th2);
    }
  }

  /** Only `show_image` and `get_random_asset` change the buffer. */
  lemma AvailableLeavesBuffer(be: Tools.Backend, name: string)
    requires Lookup(name) != Some(ShowImage) && Lookup(name) != Some(GetRandomAsset)
    ensures LeavesBuffer(Available(be), name)
  {
  }

  /** One iteration of the loop over `calls`. The id is appended before the
      lookup, as in the source. */
  function CallStep(b: Batch, call: ToolCall, impl: Table): Batch {
    if call.kind != "function" then b
    else
      var ids := b.callIds + [call.id];
      match impl(call.name, call.arguments, b.thumbs)
      case None => Batch(ids, b.outputs, b.thumbs, Some(KeyError(call.name)))
      case Some(Err(e)) => Batch(ids, b.outputs, b.thumbs, Some(e))
      case Some(Ok(eff)) => Batch(ids, b.outputs + [eff.output], eff.thumbs, None)
  }

  /** The loop after its first `n` calls; an exception ends it. */
  function RunBatch(calls: seq<ToolCall>, n: nat, impl: Table, thumbs: seq<Tools.Thumb>): (b: Batch)
    requires n <= |calls|
    ensures b.failure.None? ==> |b.outputs| == |b.callIds|
  {
    if n == 0 then Batch([], [], thumbs, None)
    else
      var b := RunBatch(calls, n - 1, impl, thumbs);
      if b.failure.Some? then b else CallStep(b, calls[n - 1], impl)
  }

  /** The function-type calls among the first `n` calls, in order. */
  function FunctionCalls(calls: seq<ToolCall>, n: nat): (r: seq<ToolCall>)
    requires n <= |calls|
    ensures |r| <= n
    ensures forall i :: 0 <= i < |r| ==> r[i].kind == "function"
  {
    if n == 0 then []
    else FunctionCalls(calls, n - 1) + (if calls[n - 1].kind == "function" then [calls[n - 1]] else [])
  }

  /** The call resolves to a tool and that tool does not raise. */
  predicate Succeeds(call: ToolCall, impl: Table) {
    impl(call.name, call.arguments, []).Some? && impl(call.name, call.arguments, []).value.Ok?
  }

  /** The answer of a call that succeeds. */
  function AnswerOf(call: ToolCall, impl: Table): Tools.Output
    requires Succeeds(call, impl)
  {
    impl(call.name, call.arguments, []).value.value.output
  }

  /** `[{"tool_call_id": call_ids[i], "output": outputs[i]} for i in range(len(call_ids))]`. */
  function Submission(b: Batch): (r: seq<ToolOutput>)
    requires |b.outputs| == |b.callIds|
    ensures |r| == |b.callIds|
    ensures forall i :: 0 <= i < |r| ==> r[i].callId == b.callIds[i] && r[i].output == b.outputs[i]
  {
    seq(|b.callIds|, i requires 0 <= i < |b.callIds| => ToolOutput(b.callIds[i], b.outputs[i]))
  }

  /** One function call, reached without an exception, goes through exactly
      when it succeeds, and then adds its id and its answer. */
  lemma CallStepSpec(b: Batch, call: ToolCall, impl: Table)
    requires BufferBlind(impl) && b.failure.None? && call.kind == "function"
    ensures var b' := CallStep(b, call, impl);
      && (b'.failure.None? <==> Succeeds(call, impl))
      && (b'.failure.None? ==> b'.callIds == b.callIds + [call.id] && b'.outputs == b.outputs + [AnswerOf(call, impl)])
  {
    assert impl(call.name, call.arguments, b.thumbs).Some? <==> impl(call.name, call.arguments, []).Some?;
  }

  /** Every call of `fs` succeeds. */
  predicate AllSucceed(fs: seq<ToolCall>, impl: Table) {
    forall i :: 0 <= i < |fs| ==> Succeeds(fs[i], impl)
  }

  /** The loop gets through its first `n` calls exactly when every function
      call among them succeeds. */
  lemma {:induction false} BatchSucceedsIff(calls: seq<ToolCall>, n: nat, impl: Table, thumbs: seq<Tools.Thumb>)
    requires n <= |calls| && BufferBlind(impl)
    ensures RunBatch(calls, n, impl, thumbs).failure.None? <==> AllSucceed(FunctionCalls(calls, n), impl)
    decreases n
  {
    if n > 0 {
      BatchSucceedsIff(calls, n - 1, impl, thumbs);
      var b := RunBatch(calls, n - 1, impl, thumbs);
      var front := FunctionCalls(calls, n - 1);
      var call := calls[n - 1];
      if b.failure.Some? {
        var i :| 0 <= i < |front| && !Succeeds(front[i], impl);
        assert FunctionCalls(calls, n)[i] == front[i];
      } else if call.kind == "function" {
        var fc := FunctionCalls(calls, n);
        assert fc == front + [call];
        CallStepSpec(b, call, impl);
        assert AllSucceed(fc, impl) <==> Succeeds(call, impl) by {
          assert fc[|front|] == call;
          assert forall i :: 0 <= i < |front| ==> fc[i] == front[i];
        }
      } else {
        OtherKindsSkipped(calls, n - 1, impl, thumbs);
      }
    }
  }

  /** A loop that got through its first `n` calls has one id and one output
      per function call among them, in batch order, each output being what
      that call's tool answers; the other calls are skipped. */
  lemma {:induction false} BatchPairsOutputs(calls: seq<ToolCall>, n: nat, impl: Table, thumbs: seq<Tools.Thumb>)
    requires n <= |calls| && BufferBlind(impl) && RunBatch(calls, n, impl, thumbs).failure.None?
    ensures var b := RunBatch(calls, n, impl, thumbs);
      var fc := FunctionCalls(calls, n);
      && |b.callIds| == |fc| && |b.outputs| == |fc|
      && forall i :: 0 <= i < |fc| ==> b.callIds[i] == fc[i].id && Succeeds(fc[i], impl) && b.outputs[i] == AnswerOf(fc[i], impl)
    decreases n
  {
    if n > 0 {
      var b := RunBatch(calls, n - 1, impl, thumbs);
      assert b.failure.None?;
      BatchPairsOutputs(calls, n - 1, impl, thumbs);
      var front := FunctionCalls(calls, n - 1);
      var fc := FunctionCalls(calls, n);
      var call := calls[n - 1];
      if call.kind == "function" {
        assert fc == front + [call];
        CallStepSpec(b, call, impl);
      }
    }
  }

  /** The submitted tool outputs of main_streamlit.py's table: as many as
      there are function calls, the i-th carrying the i-th function call's id
      and that call's answer. */
  lemma SubmissionMatchesCalls(calls: seq<ToolCall>, be: Tools.Backend, thumbs: seq<Tools.Thumb>)
    requires RunBatch(calls, |calls|, Available(be), thumbs).failure.None?
    ensures var b := RunBatch(calls, |calls|, Available(be), thumbs);
      var fc := FunctionCalls(calls, |calls|);
      && |b.outputs| == |b.callIds|
      && |Submission(b)| == |fc|
      && forall i :: 0 <= i < |fc| ==>
           Succeeds(fc[i], Available(be)) && Submission(b)[i] == ToolOutput(fc[i].id, AnswerOf(fc[i], Available(be)))
  {
    AvailableBlind(be);
    BatchPairsOutputs(calls, |calls|, Available(be), thumbs);
  }

  /** Once the loop has raised, later calls change nothing. */
  lemma {:induction false} FailurePersists(calls: seq<ToolCall>, k: nat, n: nat, impl: Table, thumbs: seq<Tools.Thumb>)
    requires k <= n <= |calls| && RunBatch(calls, k, impl, thumbs).failure.Some?
    ensures RunBatch(calls, n, impl, thumbs) == RunBatch(calls, k, impl, thumbs)
    decreases n
  {
    if k < n {
      FailurePersists(calls, k, n - 1, impl, thumbs);
    }
  }

  /** A function call whose name is not in `available_funcs`, reached with no
      exception before it, makes the loop raise KeyError for that name. */
  lemma UnknownNameRaises(calls: seq<ToolCall>, j: nat, be: Tools.Backend, thumbs: seq<Tools.Thumb>)
    requires j < |calls| && calls[j].kind == "function" && Lookup(calls[j].name).None?
    requires RunBatch(calls, j, Available(be), thumbs).failure.None?
    ensures RunBatch(calls, |calls|, Available(be), thumbs).failure == Some(KeyError(calls[j].name))
  {
    FailurePersists(calls, j + 1, |calls|, Available(be), thumbs);
  }

  /** A call that is not of function type leaves the loop's state as it was
      and is not among the function calls. */
  lemma OtherKindsSkipped(calls: seq<ToolCall>, j: nat, impl: Table, thumbs: seq<Tools.Thumb>)
    requires j < |calls| && calls[j].kind != "function"
    ensures RunBatch(calls, j + 1, impl, thumbs) == RunBatch(calls, j, impl, thumbs)
    ensures FunctionCalls(calls, j + 1) == FunctionCalls(calls, j)
  {
  }

  /** A batch none of whose calls names a tool that changes the buffer leaves
      the buffer as it was. */
  lemma {:induction false} BatchKeepsThumbs(calls: seq<ToolCall>, n: nat, impl: Table, thumbs: seq<Tools.Thumb>)
    requires n <= |calls|
    requires forall i :: 0 <= i < n ==> LeavesBuffer(impl, calls[i].name)
    ensures RunBatch(calls, n, impl, thumbs).thumbs == thumbs
    decreases n
  {
    if n > 0 {
      BatchKeepsThumbs(calls, n - 1, impl, thumbs);
      var b := RunBatch(calls, n - 1, impl, thumbs);
      var call := calls[n - 1];
      if b.failure.None? && call.kind == "function" {
        assert LeavesBuffer(impl, call.name);
      }
    }
  }

  /** With main_streamlit.py's table, only `show_image` and
      `get_random_asset` calls change the buffer. */
  lemma BatchWithoutImagesKeepsThumbs(calls: seq<ToolCall>, be: Tools.Backend, thumbs: seq<Tools.Thumb>)
    requires forall i :: 0 <= i < |calls| ==> Lookup(calls[i].name) != Some(ShowImage) && Lookup(calls[i].name) != Some(GetRandomAsset)
    ensures RunBatch(calls, |calls|, Available(be), thumbs).thumbs == thumbs
  {
    forall i | 0 <= i < |calls| ensures LeavesBuffer(Available(be), calls[i].name) {
      AvailableLeavesBuffer(be, calls[i].name);
    }
    BatchKeepsThumbs(calls, |calls|, Available(be), thumbs);
  }
}
