/** The top level of main_streamlit.py, which Streamlit executes once per
    re-run: resume a run that waits for tool outputs, start a run for a new
    prompt, then react to the run's status. A failed run is counted and the
    script re-runs while fewer than three failures were counted, but the run
    itself is neither retrieved nor created again, so each re-run examines the
    same failed run. The OpenAI service is an oracle: what each call returns
    is an input of the step. */
module App {
  import opened Values
  import opened Integers
  import Tools
  import Records
  import Dispatch

  /** `run.required_action`: its `type` and the tool calls it carries. */
  datatype RequiredAction = RequiredAction(kind: string, calls: seq<Dispatch.ToolCall>)

  /** An assistant run: its id, its status and, when it waits for tool
      outputs, its required action. */
  datatype Run = Run(id: string, status: string, action: Option<RequiredAction>)

  /** What the OpenAI service answers during one re-run: the run that
      `submit_tool_outputs` returns for a run id and the submitted outputs,
      the run `runs.create` returns, and the run `runs.retrieve` returns. */
  datatype Service = Service(
    submit: (string, seq<Dispatch.ToolOutput>) -> Run,
    created: Run,
    retrieve: string -> Run)

  /** How a re-run ends: with `st.rerun()`, with the error notice, quietly, or
      with an exception escaping the script. */
  datatype Ending = Rerun | Notice(text: string) | Idle | Crashed(error: Error)

  /** The bound on `retry_error` of lines 300, 309, 316 and 328. */
  const MaxRetries: nat := 3

  /** The notice shown once three failures are counted. */
  const FailedNotice: string :=
    "FAILED: The OpenAI API is currently processing too many requests. Please try again later ......"

  /** The session state the script reads and writes: whether the assistant and
      thread exist, the current run (None while it is still the initial dict
      `{"status": None}`, which has no `status` attribute), `retry_error` and
      the `thumbs` buffer. */
  datatype SessionState = SessionState(
    initialized: bool,
    run: Option<Run>,
    retryError: nat,
    thumbs: seq<Tools.Thumb>)

  /** The state a new session starts in. */
  const Initial: SessionState := SessionState(false, None, 0, [])

  /** Where a phase of the script leaves it: going on to the next phase, or
      ended. */
  datatype Progress = Continue(state: SessionState) | Stop(state: SessionState, ending: Ending)

  /** The outcome of one re-run. */
  datatype Turn = Turn(state: SessionState, ending: Ending)

  /** Lines 241-265: on the first run, retrieve the assistant named by
      `OPENAI_ASSISTANT` and create the thread;
      otherwise, for a run that requires action, dispatch its tool calls and
      submit their outputs. An exception in a tool ends the script with the
      buffer as the tools left it. */
  function Resume(s: SessionState, be: Tools.Backend, svc: Service): Progress {
    if !s.initialized then Continue(s.(initialized := true))
    else if s.run.Some? && s.run.value.status == "requires_action" then
      var current := s.run.value;
      match current.action
      case None => Stop(s, Crashed(AttributeError))
      case Some(ra) =>
        if ra.kind != "submit_tool_outputs" then Continue(s)
        else
          var b := Dispatch.RunBatch(ra.calls, |ra.calls|, Dispatch.Available(be), s.thumbs);
          if b.failure.Some? then Stop(s.(thumbs := b.thumbs), Crashed(b.failure.value))
          else Continue(s.(run := Some(svc.submit(current.id, Dispatch.Submission(b))), thumbs := b.thumbs))
    else Continue(s)
  }

  /** Lines 280-302: a non-empty prompt starts a new run, and the script
      re-runs at once while fewer than three failures were counted. */
  function Prompted(s: SessionState, svc: Service, prompt: string): Progress {
    if prompt == "" then Continue(s)
    else
      var s' := s.(run := Some(svc.created));
      if s'.retryError < MaxRetries then Stop(s', Rerun) else Continue(s')
  }

  /** Lines 305-330: react to the run's status. */
  function HandleStatus(s: SessionState, svc: Service): Turn {
    if s.run.None? then Turn(s, Idle)
    else
      var current := s.run.value;
      if current.status == "running" then
        Turn(s, if s.retryError < MaxRetries then Rerun else Idle)
      else if current.status == "failed" then
        var s' := s.(retryError := s.retryError + 1);
        Turn(s', if s'.retryError < MaxRetries then Rerun else Notice(FailedNotice))
      else if current.status != "completed" then
        Turn(s.(run := Some(svc.retrieve(current.id))), if s.retryError < MaxRetries then Rerun else Idle)
      else Turn(s, Idle)
  }

  /** One execution of the script. */
  function Next(s: SessionState, be: Tools.Backend, svc: Service, prompt: string): Turn {
    match Resume(s, be, svc)
    case Stop(s1, e) => Turn(s1, e)
    case Continue(s1) =>
      match Prompted(s1, svc, prompt)
      case Stop(s2, e) => Turn(s2, e)
      case Continue(s2) => HandleStatus(s2, svc)
  }

  /** The status the script examines at line 305, if it gets there with a run. */
  function StatusSeen(s: SessionState, be: Tools.Backend, svc: Service, prompt: string): Option<string> {
    match Resume(s, be, svc)
    case Stop(_, _) => None
    case Continue(s1) =>
      match Prompted(s1, svc, prompt)
      case Stop(_, _) => None
      case Continue(s2) => if s2.run.Some? then Some(s2.run.value.status) else None
  }

  /** The dispatch and prompt phases never touch `retry_error`. */
  lemma EarlyPhasesKeepRetry(s: SessionState, be: Tools.Backend, svc: Service, prompt: string)
    ensures Resume(s, be, svc).state.retryError == s.retryError
    ensures Prompted(s, svc, prompt).state.retryError == s.retryError
    ensures Prompted(s, svc, prompt).state.thumbs == s.thumbs
  {
  }

  /** A "failed" status adds exactly one to `retry_error`; no other status
      changes it. */
  lemma HandleStatusRetry(s: SessionState, svc: Service)
    ensures HandleStatus(s, svc).state.retryError ==
      s.retryError + (if s.run.Some? && s.run.value.status == "failed" then 1 else 0)
    ensures HandleStatus(s, svc).state.thumbs == s.thumbs
  {
  }

  /** Over a whole re-run, `retry_error` grows by one exactly when the status
      examined at line 305 is "failed", and is otherwise unchanged. */
  lemma NextRetry(s: SessionState, be: Tools.Backend, svc: Service, prompt: string)
    ensures Next(s, be, svc, prompt).state.retryError ==
      s.retryError + (if StatusSeen(s, be, svc, prompt) == Some("failed") then 1 else 0)
  {
    EarlyPhasesKeepRetry(s, be, svc, prompt);
    match Resume(s, be, svc)
    case Stop(_, _) =>
    case Continue(s1) =>
      EarlyPhasesKeepRetry(s1, be, svc, prompt);
      match Prompted(s1, svc, prompt)
      case Stop(_, _) =>
      case Continue(s2) =>
        HandleStatusRetry(s2, svc);
  }

  /** A re-run is scheduled only while fewer than three failures have been
      counted, after the step too. */
  lemma RerunOnlyBelowLimit(s: SessionState, be: Tools.Backend, svc: Service, prompt: string)
    requires Next(s, be, svc, prompt).ending == Rerun
    ensures s.retryError < MaxRetries && Next(s, be, svc, prompt).state.retryError < MaxRetries
  {
    NextRetry(s, be, svc, prompt);
  }

  /** The error notice is shown exactly when the examined status is "failed"
      and this failure brings the count to three or more. */
  lemma NoticeExactlyAtLimit(s: SessionState, be: Tools.Backend, svc: Service, prompt: string)
    ensures Next(s, be, svc, prompt).ending.Notice? <==>
      StatusSeen(s, be, svc, prompt) == Some("failed") && s.retryError + 1 >= MaxRetries
    ensures Next(s, be, svc, prompt).ending.Notice? ==> Next(s, be, svc, prompt).ending.text == FailedNotice
  {
  }

  /** Once three failures are counted, no re-run is ever scheduled again and
      the count stays at three or more. */
  lemma ExhaustedStaysExhausted(s: SessionState, be: Tools.Backend, svc: Service, prompt: string)
    requires s.retryError >= MaxRetries
    ensures Next(s, be, svc, prompt).ending != Rerun
    ensures Next(s, be, svc, prompt).state.retryError >= MaxRetries
  {
    NextRetry(s, be, svc, prompt);
  }

  /** The buffer changes only through the tool calls a waiting run dispatches. */
  lemma ThumbsOnlyThroughTools(s: SessionState, be: Tools.Backend, svc: Service, prompt: string)
    ensures var t := Next(s, be, svc, prompt).state.thumbs;
      || t == s.thumbs
      || (&& s.initialized && s.run.Some? && s.run.value.status == "requires_action"
          && s.run.value.action.Some? && s.run.value.action.value.kind == "submit_tool_outputs"
          && var calls := s.run.value.action.value.calls;
             t == Dispatch.RunBatch(calls, |calls|, Dispatch.Available(be), s.thumbs).thumbs)
  {
    match Resume(s, be, svc)
    case Stop(_, _) =>
    case Continue(s1) =>
      EarlyPhasesKeepRetry(s1, be, svc, prompt);
      match Prompted(s1, svc, prompt)
      case Stop(_, _) =>
      case Continue(s2) =>
        HandleStatusRetry(s2, svc);
  }

  /** What the outside world answers during one re-run. */
  datatype Input = Input(be: Tools.Backend, svc: Service, prompt: string)

  /** The session after the re-runs `inputs`, in order. */
  function Replay(s: SessionState, inputs: seq<Input>): SessionState
    decreases |inputs|
  {
    if inputs == [] then s
    else
      var i := inputs[0];
      Replay(Next(s, i.be, i.svc, i.prompt).state, inputs[1..])
  }

  /** How many of the re-runs `inputs` examined a "failed" status. */
  function Failures(s: SessionState, inputs: seq<Input>): nat
    decreases |inputs|
  {
    if inputs == [] then 0
    else
      var i := inputs[0];
      (if StatusSeen(s, i.be, i.svc, i.prompt) == Some("failed") then 1 else 0)
        + Failures(Next(s, i.be, i.svc, i.prompt).state, inputs[1..])
  }

  /** How many of the re-runs `inputs` examined a "failed" status and re-ran. */
  function FailedReruns(s: SessionState, inputs: seq<Input>): nat
    decreases |inputs|
  {
    if inputs == [] then 0
    else
      var i := inputs[0];
      var t := Next(s, i.be, i.svc, i.prompt);
      (if StatusSeen(s, i.be, i.svc, i.prompt) == Some("failed") && t.ending == Rerun then 1 else 0)
        + FailedReruns(t.state, inputs[1..])
  }

  /** `retry_error` counts the failed statuses seen since the session began:
      it is never reset. */
  lemma {:induction false} ReplayCountsFailures(s: SessionState, inputs: seq<Input>)
    ensures Replay(s, inputs).retryError == s.retryError + Failures(s, inputs)
    decreases |inputs|
  {
    if inputs != [] {
      var i := inputs[0];
      NextRetry(s, i.be, i.svc, i.prompt);
      ReplayCountsFailures(Next(s, i.be, i.svc, i.prompt).state, inputs[1..]);
    }
  }

  /** However the service behaves, a session re-runs after a failure at most
      twice: the third failure shows the notice instead. */
  lemma {:induction false} AtMostTwoRetries(s: SessionState, inputs: seq<Input>)
    ensures FailedReruns(s, inputs) <= (if s.retryError < MaxRetries - 1 then MaxRetries - 1 - s.retryError else 0)
    decreases |inputs|
  {
    if inputs != [] {
      var i := inputs[0];
      var t := Next(s, i.be, i.svc, i.prompt);
      NextRetry(s, i.be, i.svc, i.prompt);
      if t.ending == Rerun {
        RerunOnlyBelowLimit(s, i.be, i.svc, i.prompt);
      }
      AtMostTwoRetries(t.state, inputs[1..]);
    }
  }

  /** Without a new prompt, a failed run stays the session's run: the failed
      branch counts it and ends the re-run, but neither retrieves nor creates
      a run, whatever the service would answer. */
  lemma FailedRunKept(s: SessionState, be: Tools.Backend, svc: Service)
    requires s.initialized && s.run.Some? && s.run.value.status == "failed"
    ensures var t := Next(s, be, svc, "");
      && t.state == s.(retryError := s.retryError + 1)
      && t.ending == if s.retryError + 1 < MaxRetries then Rerun else Notice(FailedNotice)
  {
  }

  /** A failed run is re-displayed, not retried: from a fresh count and with
      no new prompt, three re-runs give a re-run, a re-run and the notice,
      whatever the backend and the service answer each time. */
  lemma FailedRunRedisplayed(s: SessionState, in1: Input, in2: Input, in3: Input)
    requires s.initialized && s.run.Some? && s.run.value.status == "failed" && s.retryError == 0
    requires in1.prompt == "" && in2.prompt == "" && in3.prompt == ""
    ensures var t1 := Next(s, in1.be, in1.svc, "");
      var t2 := Next(t1.state, in2.be, in2.svc, "");
      var t3 := Next(t2.state, in3.be, in3.svc, "");
      && t1.ending == Rerun && t2.ending == Rerun && t3.ending == Notice(FailedNotice)
      && t3.state.run == s.run && t3.state.retryError == MaxRetries
  {
    FailedRunKept(s, in1.be, in1.svc);
    var t1 := Next(s, in1.be, in1.svc, "");
    FailedRunKept(t1.state, in2.be, in2.svc);
    var t2 := Next(t1.state, in2.be, in2.svc, "");
    FailedRunKept(t2.state, in3.be, in3.svc);
  }

  /** A call's answer and the buffer after it, as the function `spec` of the
      call describes them. */
  predicate Realizes(spec: Result<Tools.Effect>, r: Result<Tools.Output>, before: seq<Tools.Thumb>, after: seq<Tools.Thumb>) {
    match spec
    case Ok(e) => r == Ok(e.output) && after == e.thumbs
    case Err(err) => r == Err(err) && after == before
  }

  /** `st.session_state`, as far as the script's logic uses it. */
  class Session {
    var initialized: bool
    var run: Option<Run>
    var retryError: nat
    var thumbs: seq<Tools.Thumb>

    function State(): SessionState
      reads this
    {
      SessionState(initialized, run, retryError, thumbs)
    }

    /** Lines 218-230: a fresh session, before the assistant is set up. */
    constructor ()
      ensures State() == Initial
    {
      initialized := false;
      run := None;
      retryError := 0;
      thumbs := [];
    }

    /** `show_image`: append the asset's thumbnail to the buffer. */
    method ShowImage(be: Tools.Backend, id: Value) returns (r: Result<Tools.Output>)
      modifies this`thumbs
      ensures Realizes(Tools.ShowImage(be, id, old(thumbs)), r, old(thumbs), thumbs)
    {
      if !id.Str? {
        return Err(TypeError);
      }
      thumbs := thumbs + [be.thumbnail(id)];
      return Ok(Tools.Json(Str("success")));
    }

    /** `get_random_asset`: collect one thumbnail per random asset, then
      replace the buffer with them. */
    method GetRandomAsset(be: Tools.Backend, number: Value) returns (r: Result<Tools.Output>)
      modifies this`thumbs
      ensures Realizes(Tools.GetRandomAsset(be, number), r, old(thumbs), thumbs)
    {
      var n := ToInt(number);
      if n.Err? {
        return Err(n.error);
      }
      var assets := Iter(be.get(Tools.RandomAssets(n.value)));
      if assets.Err? {
        return Err(assets.error);
      }
      var taken: seq<Tools.Thumb> := [];
      var i := 0;
      while i < |assets.value|
        invariant 0 <= i <= |assets.value|
        invariant Tools.ThumbsOf(be, assets.value, i) == Ok(taken)
      {
        var id := Get(assets.value[i], "id");
        if id.Err? {
          Tools.ThumbsOfFailurePersists(be, assets.value, i + 1, |assets.value|);
          return Err(id.error);
        }
        taken := taken + [be.thumbnail(id.value)];
        i := i + 1;
      }
      // Every asset yielded an `id`, so each is a dict and trimming them cannot raise.
      var rs := Records.TrimEach(assets.value);
      thumbs := taken;
      return Ok(Tools.Json(Objects(rs.value)));
    }

    /** `f(**args)` for the tool `t`. */
    method Invoke(t: Dispatch.ToolName, args: Record, be: Tools.Backend) returns (r: Result<Tools.Output>)
      modifies this`thumbs
      ensures Realizes(Dispatch.Invoke(t, args, be, old(thumbs)), r, old(thumbs), thumbs)
    {
      var a := Dispatch.Bind(Dispatch.Signature(t), args);
      if a.Err? {
        return Err(a.error);
      }
      if t == Dispatch.ShowImage {
        r := ShowImage(be, a.value[0]);
      } else if t == Dispatch.GetRandomAsset {
        r := GetRandomAsset(be, a.value[0]);
      } else {
        var e := Dispatch.Invoke(t, args, be, thumbs);
        r := if e.Ok? then Ok(e.value.output) else Err(e.error);
      }
    }

    /** `available_funcs[function_name](**arguments)` for one function call:
        None where the name is not in the dict. */
    method CallFunction(call: Dispatch.ToolCall, be: Tools.Backend) returns (r: Option<Result<Tools.Output>>)
      modifies this`thumbs
      ensures var spec := Dispatch.Available(be)(call.name, call.arguments, old(thumbs));
        && (r.None? <==> spec.None?)
        && (r.None? ==> thumbs == old(thumbs))
        && (r.Some? ==> Realizes(spec.value, r.value, old(thumbs), thumbs))
    {
      var t := Dispatch.Lookup(call.name);
      if t.None? {
        return None;
      }
      var output := Invoke(t.value, call.arguments, be);
      return Some(output);
    }

    /** The loop of lines 252-259 over the calls of a required action. An
        exception leaves the loop at once, with the buffer as the tools left it. */
    method RunToolCalls(calls: seq<Dispatch.ToolCall>, be: Tools.Backend) returns (b: Dispatch.Batch)
      modifies this`thumbs
      ensures b == Dispatch.RunBatch(calls, |calls|, Dispatch.Available(be), old(thumbs))
      ensures thumbs == b.thumbs
    {
      var callIds: seq<string> := [];
      var outputs: seq<Tools.Output> := [];
      var failure: Option<Error> := None;
      var i := 0;
      while i < |calls| && failure.None?
        invariant 0 <= i <= |calls|
        invariant Dispatch.RunBatch(calls, i, Dispatch.Available(be), old(thumbs)) == Dispatch.Batch(callIds, outputs, thumbs, failure)
      {
        var call := calls[i];
        if call.kind == "function" {
          callIds := callIds + [call.id];
          var output := CallFunction(call, be);
          if output.None? {
            failure := Some(KeyError(call.name));
          } else if output.value.Err? {
            failure := Some(output.value.error);
          } else {
            outputs := outputs + [output.value.value];
          }
        }
        i := i + 1;
      }
      if failure.Some? {
        Dispatch.FailurePersists(calls, i, |calls|, Dispatch.Available(be), old(thumbs));
      }
      b := Dispatch.Batch(callIds, outputs, thumbs, failure);
    }

    /** Where a phase method leaves the session: ended with `stop`, or going on. */
    function After(stop: Option<Ending>): Progress
      reads this
    {
      if stop.Some? then Stop(State(), stop.value) else Continue(State())
    }

    /** Lines 241-265: set up the session, or dispatch the tool calls of a run
        that requires action and submit their outputs. */
    method ResumeRun(be: Tools.Backend, svc: Service) returns (stop: Option<Ending>)
      modifies this
      ensures After(stop) == Resume(old(State()), be, svc)
    {
      if !initialized {
        initialized := true;
      } else if run.Some? && run.value.status == "requires_action" {
        var current := run.value;
        if current.action.None? {
          return Some(Crashed(AttributeError));
        }
        var ra := current.action.value;
        if ra.kind == "submit_tool_outputs" {
          var b := RunToolCalls(ra.calls, be);
          if b.failure.Some? {
            return Some(Crashed(b.failure.value));
          }
          run := Some(svc.submit(current.id, Dispatch.Submission(b)));
        }
      }
      return None;
    }

    /** Lines 280-302: start a run for a non-empty prompt. */
    method StartRun(svc: Service, prompt: string) returns (stop: Option<Ending>)
      modifies this
      ensures After(stop) == Prompted(old(State()), svc, prompt)
    {
      if prompt != "" {
        run := Some(svc.created);
        if retryError < MaxRetries {
          return Some(Rerun);
        }
      }
      return None;
    }

    /** Lines 305-330: react to the run's status. */
    method HandleRunStatus(svc: Service) returns (ending: Ending)
      modifies this
      ensures Turn(State(), ending) == HandleStatus(old(State()), svc)
    {
      if run.None? {
        return Idle;
      }
      var current := run.value;
      if current.status == "running" {
        ending := if retryError < MaxRetries then Rerun else Idle;
      } else if current.status == "failed" {
        retryError := retryError + 1;
        ending := if retryError < MaxRetries then Rerun else Notice(FailedNotice);
      } else if current.status != "completed" {
        run := Some(svc.retrieve(current.id));
        ending := if retryError < MaxRetries then Rerun else Idle;
      } else {
        ending := Idle;
      }
    }

    /** One execution of the script. */
    method Step(be: Tools.Backend, svc: Service, prompt: string) returns (ending: Ending)
      modifies this
      ensures Turn(State(), ending) == Next(old(State()), be, svc, prompt)
    {
      var stop := ResumeRun(be, svc);
      if stop.Some? {
        return stop.value;
      }
      stop := StartRun(svc, prompt);
      if stop.Some? {
        return stop.value;
      }
      ending := HandleRunStatus(svc);
    }
  }
}
