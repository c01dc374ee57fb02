/** Partner workflows (partner_integrations.py): steps call a partner one after another, and
    when one fails the completed ones are compensated in reverse order. The partner is an
    arbitrary function of its own state, the operation and the payload; it may raise. */
module Workflow {
  import opened Prelude
  import opened Template

  datatype Outcome = Done(result: Json) | Raised(code: int)

  datatype Error = NotConfigured | StepNotAnObject | NoOperation | PayloadNotAnObject | PartnerFailed(code: int)

  datatype Call = Call(operation: string, payload: Json)

  /** What stays the same during one run of a workflow. */
  datatype Context<!S> = Context(partner: (S, Call) -> (S, Outcome), show: Json -> string, payload: Json, trace: string)

  /** Python's truth value of a JSON value. */
  predicate Truthy(v: Json) {
    match v
    case Null => false
    case Bool(b) => b
    case Number(n) => n != 0.0
    case Text(s) => s != []
    case Arr(items) => items != []
    case Obj(fields) => fields != []
  }

  /** step.get(key) */
  function StepField(step: Json, key: string): Json {
    if step.Obj? && Get(step.fields, key).Some? then Get(step.fields, key).value else Null
  }

  function Or(v: Json, otherwise: Json): Json {
    if Truthy(v) then v else otherwise
  }

  /** results[name] = result */
  function Put(fields: seq<Field>, key: string, value: Json): seq<Field> {
    if fields == [] then [Field(key, value)]
    else if fields[0].key == key then [Field(key, value)] + fields[1..]
    else [fields[0]] + Put(fields[1..], key, value)
  }

  // ----- one step -----

  function StepVariables<S>(c: Context<S>, results: seq<Field>): seq<Field> {
    [Field("payload", c.payload), Field("steps", Obj(results)), Field("trace_id", Text(c.trace))]
  }

  datatype Prepared = Ready(call: Call, name: string) | Refused(error: Error)

  /** The call a step makes, given the results so far, or why it makes none. */
  function Prepare<S>(c: Context<S>, step: Json, results: seq<Field>): Prepared {
    if !step.Obj? then Refused(StepNotAnObject)
    else if !Truthy(StepField(step, "operation")) then Refused(NoOperation)
    else
      var operation := StepField(step, "operation");
      var payload := Render(Or(StepField(step, "payload_template"), Text("{{payload}}")), StepVariables(c, results), c.show);
      if !payload.Obj? then Refused(PayloadNotAnObject)
      else Ready(Call(c.show(operation), payload), c.show(Or(StepField(step, "store_as"), operation)))
  }

  // `call` is history: the call the completed step made.
  datatype Completed = Completed(step: Json, result: Json, call: Call)

  datatype Progress<S> = Progress(state: S, results: seq<Field>, completed: seq<Completed>, calls: seq<Call>, error: Option<Error>)

  function Advance<S>(c: Context<S>, p: Progress<S>, step: Json): Progress<S> {
    match Prepare(c, step, p.results)
    case Refused(error) => p.(error := Some(error))
    case Ready(call, name) =>
      var (state, outcome) := c.partner(p.state, call);
      match outcome
      case Raised(code) => p.(state := state, calls := p.calls + [call], error := Some(PartnerFailed(code)))
      case Done(result) =>
        Progress(state, Put(p.results, name, result), p.completed + [Completed(step, result, call)], p.calls + [call], None)
  }

  function Forward<S>(c: Context<S>, p: Progress<S>, steps: seq<Json>): Progress<S>
    decreases |steps|
  {
    if steps == [] || p.error.Some? then p else Forward(c, Advance(c, p, steps[0]), steps[1..])
  }

  // ----- compensation -----

  /** The compensating call of a completed step, if one is configured and its payload is an object. */
  function Compensation<S>(c: Context<S>, done: Completed, results: seq<Field>): Option<Call> {
    var operation := StepField(done.step, "compensation_operation");
    if !Truthy(operation) then None
    else
      var variables := [Field("payload", c.payload), Field("previous", done.result), Field("steps", Obj(results)),
                        Field("trace_id", Text(c.trace))];
      var payload := Render(Or(StepField(done.step, "compensation_payload_template"), Text("{{previous}}")), variables, c.show);
      if !payload.Obj? then None else Some(Call(c.show(operation), payload))
  }

  function Called<S>(c: Context<S>, p: Progress<S>, call: Call): Progress<S> {
    p.(state := c.partner(p.state, call).0, calls := p.calls + [call])
  }

  function Undo<S>(c: Context<S>, p: Progress<S>, done: Completed): (q: Progress<S>)
    ensures q == p.(state := q.state, calls := q.calls)
  {
    match Compensation(c, done, p.results)
    case None => p
    case Some(call) => Called(c, p, call)
  }

  /** From the last completed step to the first; whatever a compensation raises is ignored. */
  function Backward<S>(c: Context<S>, p: Progress<S>, n: nat): Progress<S>
    requires n <= |p.completed|
    decreases n
  {
    if n == 0 then p
    else Backward(c, Undo(c, p, p.completed[n - 1]), n - 1)
  }

  function Start<S>(state: S): Progress<S> {
    Progress(state, [], [], [], None)
  }

  function Execute<S>(c: Context<S>, workflow: Json, state: S): Progress<S> {
    if !workflow.Arr? || workflow.items == [] then Start(state).(error := Some(NotConfigured))
    else
      var p := Forward(c, Start(state), workflow.items);
      if p.error.Some? then Backward(c, p, |p.completed|) else p
  }

  /** The body of the try: step after step until one raises. */
  method RunSteps<S>(c: Context<S>, steps: seq<Json>, initial: S) returns (p: Progress<S>)
    ensures p == Forward(c, Start(initial), steps)
  {
    var state, results, calls := initial, [], [];
    var completed: seq<Completed> := [];
    for k := 0 to |steps|
      invariant Forward(c, Progress(state, results, completed, calls, None), steps[k..]) == Forward(c, Start(initial), steps)
    {
      assert steps[k..][1..] == steps[k + 1..];
      match Prepare(c, steps[k], results)
      case Refused(e) => return Progress(state, results, completed, calls, Some(e));
      case Ready(call, name) =>
        var (after, outcome) := c.partner(state, call);
        state, calls := after, calls + [call];
        match outcome
        case Raised(code) => return Progress(state, results, completed, calls, Some(PartnerFailed(code)));
        case Done(result) =>
          results := Put(results, name, result);
          completed := completed + [Completed(steps[k], result, call)];
    }
    p := Progress(state, results, completed, calls, None);
  }

  /** One turn of the exception handler: a compensation that is missing or whose payload is no
      object is skipped, and what the partner answers is ignored. */
  method CompensateOne<S>(c: Context<S>, p: Progress<S>, done: Completed) returns (q: Progress<S>)
    ensures q == Undo(c, p, done)
  {
    q := p;
    var call := Compensation(c, done, p.results);
    if call.Some? {
      var (state, _) := c.partner(p.state, call.value);
      q := p.(state := state, calls := p.calls + [call.value]);
    }
  }

  /** The exception handler: the completed steps in reverse. */
  method Compensate<S>(c: Context<S>, failed: Progress<S>) returns (p: Progress<S>)
    ensures p == Backward(c, failed, |failed.completed|)
  {
    p := failed;
    var n: nat := |failed.completed|;
    while n > 0
      invariant n <= |failed.completed| && p.completed == failed.completed
      invariant Backward(c, p, n) == Backward(c, failed, |failed.completed|)
    {
      n := n - 1;
      p := CompensateOne(c, p, p.completed[n]);
    }
  }

  method ExecuteWorkflow<S>(c: Context<S>, workflow: Json, initial: S) returns (p: Progress<S>)
    ensures p == Execute(c, workflow, initial)
  {
    if !workflow.Arr? || workflow.items == [] { return Start(initial).(error := Some(NotConfigured)); }
    p := RunSteps(c, workflow.items, initial);
    if p.error.Some? { p := Compensate(c, p); }
  }

  // ----- the calls a run makes -----

  function CallsOf(completed: seq<Completed>): (calls: seq<Call>)
    ensures |calls| == |completed|
  {
    seq(|completed|, i requires 0 <= i < |completed| => completed[i].call)
  }

  /** The calls that are there, last first. */
  function LastFirst(calls: seq<Option<Call>>): seq<Call> {
    if calls == [] then []
    else
      var last := calls[|calls| - 1];
      (if last.Some? then [last.value] else []) + LastFirst(calls[..|calls| - 1])
  }

  lemma {:induction false} LastFirstReverses(calls: seq<Option<Call>>, i: nat)
    requires i < |calls| && forall k :: 0 <= k < |calls| ==> calls[k].Some?
    ensures |LastFirst(calls)| == |calls| && calls[|calls| - 1 - i] == Some(LastFirst(calls)[i])
    decreases |calls|
  {
    var rest := calls[..|calls| - 1];
    if rest != [] { LastFirstReverses(rest, if i > 0 then i - 1 else 0); }
  }

  function CompensationsOf<S>(c: Context<S>, completed: seq<Completed>, results: seq<Field>): (r: seq<Option<Call>>)
    ensures |r| == |completed|
  {
    seq(|completed|, i requires 0 <= i < |completed| => Compensation(c, completed[i], results))
  }

  /** The configured compensations, last completed step first: no partner state in sight. */
  function Compensations<S>(c: Context<S>, completed: seq<Completed>, results: seq<Field>): seq<Call> {
    LastFirst(CompensationsOf(c, completed, results))
  }

  lemma OneMoreCompensation<S>(c: Context<S>, completed: seq<Completed>, results: seq<Field>)
    requires completed != []
    ensures var last := Compensation(c, completed[|completed| - 1], results);
            Compensations(c, completed, results)
            == (if last.Some? then [last.value] else []) + Compensations(c, completed[..|completed| - 1], results)
  {
    var n := |completed| - 1;
    assert CompensationsOf(c, completed, results)[..n] == CompensationsOf(c, completed[..n], results);
  }

  lemma {:induction false} BackwardCalls<S>(c: Context<S>, p: Progress<S>, n: nat)
    requires n <= |p.completed|
    ensures var r := Backward(c, p, n);
            && r.calls == p.calls + Compensations(c, p.completed[..n], p.results)
            && r == p.(state := r.state, calls := r.calls)
    decreases n
  {
    if n > 0 {
      assert p.completed[..n][..n - 1] == p.completed[..n - 1];
      OneMoreCompensation(c, p.completed[..n], p.results);
      BackwardCalls(c, Undo(c, p, p.completed[n - 1]), n - 1);
    }
  }

  ghost predicate StoppedAt<S>(c: Context<S>, step: Json, p: Progress<S>)
    requires p.error.Some?
  {
    match Prepare(c, step, p.results)
    case Refused(e) => p.error == Some(e) && p.calls == CallsOf(p.completed)
    case Ready(call, _) => p.error.value.PartnerFailed? && p.calls == CallsOf(p.completed) + [call]
  }

  /** Progress through the first k steps: all but perhaps the last completed, in order. */
  ghost predicate InStep<S>(c: Context<S>, steps: seq<Json>, p: Progress<S>) {
    && |p.completed| <= |steps|
    && (forall i :: 0 <= i < |p.completed| ==> p.completed[i].step == steps[i])
    && (p.error.None? ==> p.calls == CallsOf(p.completed))
    && (p.error.Some? ==> |p.completed| < |steps| && StoppedAt(c, steps[|p.completed|], p))
  }

  lemma AdvanceInStep<S>(c: Context<S>, steps: seq<Json>, p: Progress<S>)
    requires InStep(c, steps, p) && p.error.None? && |p.completed| < |steps|
    ensures var q := Advance(c, p, steps[|p.completed|]);
            InStep(c, steps, q) && (q.error.None? ==> |q.completed| == |p.completed| + 1)
  {
    var q := Advance(c, p, steps[|p.completed|]);
    if q.error.None? {
      assert CallsOf(q.completed) == CallsOf(p.completed) + [q.completed[|p.completed|].call];
    }
  }

  lemma {:induction false} ForwardInStep<S>(c: Context<S>, steps: seq<Json>, p: Progress<S>)
    requires InStep(c, steps, p) && p.error.None?
    ensures var q := Forward(c, p, steps[|p.completed|..]);
            InStep(c, steps, q) && (q.error.None? ==> |q.completed| == |steps|)
    decreases |steps| - |p.completed|
  {
    if |p.completed| < |steps| {
      AdvanceInStep(c, steps, p);
      var q := Advance(c, p, steps[|p.completed|]);
      assert steps[|p.completed|..][1..] == steps[|p.completed| + 1..];
      if q.error.None? { ForwardInStep(c, steps, q); }
    }
  }

  /** A workflow that fails at a step has made exactly the calls of the steps before it in
      order, then that step's own call if it got that far, then the configured compensations of
      the completed steps in reverse, each once and the same ones whatever the partner answers
      to them; and it raises what that step raised. */
  lemma FailedRunCalls<S>(c: Context<S>, workflow: Json, state: S)
    requires workflow.Arr? && workflow.items != []
    ensures var failed := Forward(c, Start(state), workflow.items);
            var p := Execute(c, workflow, state);
            failed.error.Some? ==>
              && InStep(c, workflow.items, failed)
              && p.error == failed.error
              && p.results == failed.results
              && p.calls == failed.calls + Compensations(c, failed.completed, failed.results)
  {
    ForwardInStep(c, workflow.items, Start(state));
    assert workflow.items[0..] == workflow.items;
    var failed := Forward(c, Start(state), workflow.items);
    BackwardCalls(c, failed, |failed.completed|);
    assert failed.completed[..|failed.completed|] == failed.completed;
  }

  /** When every completed step can be compensated, the i-th compensating call is the one of the
      i-th completed step from the end. */
  lemma CompensatedInReverse<S>(c: Context<S>, completed: seq<Completed>, results: seq<Field>, i: nat)
    requires i < |completed|
    requires forall k :: 0 <= k < |completed| ==> Compensation(c, completed[k], results).Some?
    ensures |Compensations(c, completed, results)| == |completed|
    ensures Compensation(c, completed[|completed| - 1 - i], results) == Some(Compensations(c, completed, results)[i])
  {
    LastFirstReverses(CompensationsOf(c, completed, results), i);
  }

  /** A workflow that succeeds has made exactly one call for each step, in order, and no other. */
  lemma SuccessfulRunCalls<S>(c: Context<S>, workflow: Json, state: S)
    requires Execute(c, workflow, state).error.None?
    ensures var p := Execute(c, workflow, state);
            && workflow.Arr? && |p.calls| == |p.completed| == |workflow.items|
            && (forall i :: 0 <= i < |p.completed| ==> p.completed[i].step == workflow.items[i] && p.calls[i] == p.completed[i].call)
  {
    ForwardInStep(c, workflow.items, Start(state));
    assert workflow.items[0..] == workflow.items;
    var p := Forward(c, Start(state), workflow.items);
    BackwardCalls(c, p, |p.completed|);
  }

  // ----- when compensation restores the partner -----

  /** Every call that raises leaves the partner as it was. */
  ghost predicate FailuresAreClean<S(!new)>(c: Context<S>) {
    forall s, call :: c.partner(s, call).1.Raised? ==> c.partner(s, call).0 == s
  }

  /** The step has a compensating call, and from wherever the step succeeded with this result
      that call leads back. */
  ghost predicate Inverted<S(!new)>(c: Context<S>, done: Completed, results: seq<Field>) {
    && Compensation(c, done, results).Some?
    && forall s :: c.partner(s, done.call).1 == Done(done.result) ==>
         c.partner(c.partner(s, done.call).0, Compensation(c, done, results).value).0 == s
  }

  /** The state before, and after, each completed step. */
  ghost predicate Path<S>(c: Context<S>, states: seq<S>, completed: seq<Completed>) {
    && |states| == |completed| + 1
    && forall i :: 0 <= i < |completed| ==> c.partner(states[i], completed[i].call) == (states[i + 1], Done(completed[i].result))
  }

  lemma {:induction false} ForwardPath<S(!new)>(c: Context<S>, steps: seq<Json>, p: Progress<S>, states: seq<S>) returns (path: seq<S>)
    requires p.error.None? && Path(c, states, p.completed) && states[|states| - 1] == p.state
    requires FailuresAreClean(c)
    ensures var q := Forward(c, p, steps);
            Path(c, path, q.completed) && path[|path| - 1] == q.state && path[0] == states[0]
    decreases |steps|
  {
    path := states;
    if steps != [] {
      var q := Advance(c, p, steps[0]);
      if q.error.None? { path := ForwardPath(c, steps[1..], q, states + [q.state]); }
    }
  }

  lemma {:induction false} BackwardPath<S(!new)>(c: Context<S>, p: Progress<S>, n: nat, path: seq<S>)
    requires n <= |p.completed| && Path(c, path, p.completed) && p.state == path[n]
    requires forall i :: 0 <= i < n ==> Inverted(c, p.completed[i], p.results)
    ensures Backward(c, p, n).state == path[0]
    decreases n
  {
    if n > 0 {
      assert Inverted(c, p.completed[n - 1], p.results);
      BackwardPath(c, Undo(c, p, p.completed[n - 1]), n - 1, path);
    }
  }

  /** When failed calls have no effect and the compensation of every completed step is
      configured, renders to an object and undoes its step, a failed workflow leaves the
      partner exactly as it found it. */
  lemma FailureRestores<S(!new)>(c: Context<S>, workflow: Json, state: S)
    requires FailuresAreClean(c) && Execute(c, workflow, state).error.Some?
    requires workflow.Arr? ==>
               var failed := Forward(c, Start(state), workflow.items);
               forall i :: 0 <= i < |failed.completed| ==> Inverted(c, failed.completed[i], failed.results)
    ensures Execute(c, workflow, state).state == state
  {
    if workflow.Arr? && workflow.items != [] {
      var path := ForwardPath(c, workflow.items, Start(state), [state]);
      var failed := Forward(c, Start(state), workflow.items);
      BackwardPath(c, failed, |failed.completed|, path);
    }
  }

  // ----- what later steps see -----

  lemma {:induction false} GetPut(fields: seq<Field>, key: string, value: Json, other: string)
    ensures Get(Put(fields, key, value), other) == if other == key then Some(value) else Get(fields, other)
    decreases |fields|
  {
    if fields != [] && fields[0].key != key { GetPut(fields[1..], key, value, other); }
  }

  lemma {:induction false} SplitWhole(s: string)
    requires '.' !in s
    ensures Split(s) == [s]
    decreases |s|
  {
    if s != [] {
      SplitWhole(s[1..]);
      assert [s[0]] + s[1..] == s;
    }
  }

  lemma {:induction false} SplitOnce(a: string, b: string)
    requires '.' !in a && '.' !in b
    ensures Split(a + "." + b) == [a, b]
    decreases |a|
  {
    if a == [] {
      assert (a + "." + b)[1..] == b;
      SplitWhole(b);
    } else {
      assert (a + "." + b)[1..] == a[1..] + "." + b && (a + "." + b)[0] == a[0];
      SplitOnce(a[1..], b);
      assert [a[0]] + a[1..] == a;
    }
  }

  lemma StepResult<S>(c: Context<S>, results: seq<Field>, name: string, result: Json)
    requires '.' !in name && Get(results, name) == Some(result)
    ensures TemplateValue("steps." + name, StepVariables(c, results)) == result
  {
    var variables := StepVariables(c, results);
    assert "steps." + name == "steps" + "." + name;
    SplitOnce("steps", name);
    var parts := ["steps", name];
    assert Get(variables, "steps") == Get(variables[1..], "steps") == Some(Obj(results));
    assert Follow(Obj(results), parts[1..]) == Follow(result, parts[1..][1..]);
    assert parts[1..][1..] == [];
  }

  lemma ResultPlaceholder<S>(c: Context<S>, results: seq<Field>, name: string, result: Json)
    requires name != [] && '.' !in name && '{' !in name && !IsSpace(name[|name| - 1])
    requires Get(results, name) == Some(result) && result != Null
    ensures Render(Text(Marker("steps." + name)), StepVariables(c, results), c.show) == result
  {
    var key := "steps." + name;
    StepResult(c, results, name, result);
    assert key[0] == 's' && key[|key| - 1] == name[|name| - 1] && '{' !in key;
    PlaceholderGivesTheValue([], key, [], StepVariables(c, results), c.show);
    assert [] + key + [] == key;
  }

  /** A step whose template is the one placeholder of an earlier step's result sends that
      result itself, provided it is an object. */
  lemma EarlierResultIsSent<S>(c: Context<S>, results: seq<Field>, step: Json, name: string, result: Json)
    requires result.Obj? && name != [] && '.' !in name && '{' !in name && !IsSpace(name[|name| - 1])
    requires step.Obj? && Truthy(StepField(step, "operation"))
    requires StepField(step, "payload_template") == Text(Marker("steps." + name))
    ensures var prepared := Prepare(c, step, Put(results, name, result));
            prepared.Ready? && prepared.call == Call(c.show(StepField(step, "operation")), result)
  {
    GetPut(results, name, result, name);
    ResultPlaceholder(c, Put(results, name, result), name, result);
  }

  /** Null, false, zero and everything empty are false; any other value is true. */
  lemma FalsyValues(v: Json)
    ensures !Truthy(v) <==> v in {Null, Bool(false), Number(0.0), Text(""), Arr([]), Obj([])}
  {
  }

  lemma SecondIsFound(variables: seq<Field>, key: string, value: Json)
    requires |variables| >= 2 && variables[0].key != key && variables[1] == Field(key, value) && '.' !in key
    ensures TemplateValue(key, variables) == value
  {
    SplitWhole(key);
    assert variables[1..][0] == variables[1];
    assert Get(variables, key) == Get(variables[1..], key) == Some(value);
    assert [key][1..] == [];
    assert Follow(Obj(variables), [key]) == Follow(value, []);
  }

  lemma NamedPlaceholder<S>(c: Context<S>, variables: seq<Field>, key: string, value: Json)
    requires key != [] && '{' !in key && !IsSpace(key[0]) && !IsSpace(key[|key| - 1])
    requires TemplateValue(key, variables) == value != Null
    ensures Render(Text(Marker(key)), variables, c.show) == value
  {
    PlaceholderGivesTheValue([], key, [], variables, c.show);
    assert [] + key + [] == key;
  }

  lemma NamedPrevious(key: string)
    requires key == "previous"
    ensures key != [] && '{' !in key && '.' !in key && key != "payload" && !IsSpace(key[0]) && !IsSpace(key[|key| - 1])
    ensures Marker(key) == "{{previous}}"
  {
  }

  lemma PreviousPlaceholder<S>(c: Context<S>, variables: seq<Field>, key: string, result: Json)
    requires |variables| >= 2 && variables[0].key == "payload" && variables[1] == Field(key, result) && result != Null
    requires key == "previous"
    ensures Render(Text("{{previous}}"), variables, c.show) == result
  {
    NamedPrevious(key);
    SecondIsFound(variables, key, result);
    NamedPlaceholder(c, variables, key, result);
  }

  /** A completed step without a template of its own is compensated exactly when it names an
      operation, and then with its own result. */
  lemma CompensatesWhen<S>(c: Context<S>, done: Completed, results: seq<Field>)
    requires done.result.Obj? && !Truthy(StepField(done.step, "compensation_payload_template"))
    ensures Compensation(c, done, results) ==
              if Truthy(StepField(done.step, "compensation_operation"))
              then Some(Call(c.show(StepField(done.step, "compensation_operation")), done.result)) else None
  {
    PreviousPlaceholder(c, [Field("payload", c.payload), Field("previous", done.result), Field("steps", Obj(results)),
                            Field("trace_id", Text(c.trace))], "previous", done.result);
  }

  /** With one it is whatever the template renders to; when that is no object nothing is called. */
  lemma CompensationIsRendered<S>(c: Context<S>, done: Completed, results: seq<Field>)
    requires Truthy(StepField(done.step, "compensation_operation")) && Truthy(StepField(done.step, "compensation_payload_template"))
    ensures var variables := [Field("payload", c.payload), Field("previous", done.result), Field("steps", Obj(results)),
                              Field("trace_id", Text(c.trace))];
            var payload := Render(StepField(done.step, "compensation_payload_template"), variables, c.show);
            Compensation(c, done, results) ==
              if payload.Obj? then Some(Call(c.show(StepField(done.step, "compensation_operation")), payload)) else None
  {
  }
}
