/** The activity's side of the bridge: `onMethodCall` submits one task per call
    to a single-thread executor, the worker runs those tasks one at a time in
    submission order, every task posts exactly one response, and `onDestroy`
    shuts the executor down so that queued tasks never run. */
module SerialDispatcher {
  import opened Values
  import opened FaceEngine
  import opened CommandRouter

  /** A submitted task: the call, and the id of the `MethodChannel.Result` it answers. */
  datatype Task = Task(id: nat, call: MethodCall)

  /** A response posted to the main thread for the call with the given id. */
  datatype Posted = Posted(to: nat, response: Response)

  /** The engine calls one task made. */
  function CallsMade(out: Outcome): (cs: seq<FacadeCall>)
    ensures |cs| <= 1
    ensures cs == [] <==> out.made.None?
  {
    match out.made
    case None => []
    case Some(c) => [c]
  }

  ghost predicate StrictlyIncreasing(s: seq<nat>) {
    forall i, j :: 0 <= i < j < |s| ==> s[i] < s[j]
  }

  class Bridge {
    /** `faceLibrary`: the native engine. */
    const engine: Engine
    /** `Double.floatValue()` on the JVM. */
    const toFloat: real -> real

    /** The executor's queue of tasks not yet started. */
    var pending: seq<Task>
    /** Whether `shutdownNow` has been called. */
    var shutDown: bool
    /** The id the next submitted task gets. */
    var nextId: nat
    /** Every call into `faceLibrary`, in the order made. */
    var calls: seq<FacadeCall>
    /** Every response posted through `mainHandler`, in the order posted. */
    var responses: seq<Posted>

    /** The tasks that ran, that `shutdownNow` discarded, and the task that made each engine call. */
    ghost var ran: seq<Task>
    ghost var dropped: seq<Task>
    ghost var callers: seq<nat>

    /** Every accepted task is, in submission order, run, discarded or still pending;
        a shut-down executor holds no task; each task that ran posted one response, in
        submission order; each engine call was made by a task that ran, at most one per
        task, in submission order. */
    ghost predicate Valid()
      reads this
    {
      && |ran| + |dropped| + |pending| == nextId
      && (forall i :: 0 <= i < |ran| ==> ran[i].id == i)
      && (forall i :: 0 <= i < |dropped| ==> dropped[i].id == |ran| + i)
      && (forall i :: 0 <= i < |pending| ==> pending[i].id == |ran| + |dropped| + i)
      && (shutDown ==> pending == [])
      && (!shutDown ==> dropped == [])
      && |responses| == |ran|
      && (forall i :: 0 <= i < |responses| ==> responses[i].to == i)
      && |callers| == |calls|
      && StrictlyIncreasing(callers)
      && (forall j :: 0 <= j < |callers| ==> callers[j] < |ran|)
    }

    /** A fresh activity: an idle executor and nothing logged. */
    constructor (engine: Engine, toFloat: real -> real)
      ensures Valid()
      ensures this.engine == engine && this.toFloat == toFloat
      ensures pending == [] && !shutDown && nextId == 0 && calls == [] && responses == []
    {
      this.engine := engine;
      this.toFloat := toFloat;
      pending := [];
      shutDown := false;
      nextId := 0;
      calls := [];
      responses := [];
      ran := [];
      dropped := [];
      callers := [];
    }

    /** `onMethodCall`: queue one task and return at once; after shutdown nothing is queued. */
    method OnMethodCall(call: MethodCall) returns (enqueued: bool)
      requires Valid()
      modifies this
      ensures Valid()
      ensures enqueued == !old(shutDown)
      ensures enqueued ==> pending == old(pending) + [Task(old(nextId), call)] && nextId == old(nextId) + 1
      ensures enqueued ==> shutDown == old(shutDown) && calls == old(calls) && responses == old(responses)
      ensures !enqueued ==> unchanged(this)
    {
      if shutDown {
        return false;
      }
      pending := pending + [Task(nextId, call)];
      nextId := nextId + 1;
      return true;
    }

    /** The worker runs the task at the head of the queue: it makes at most one engine call
        and posts exactly one response; a failing task does not stop the worker. */
    method Step() returns (didRun: bool)
      requires Valid()
      modifies this
      ensures Valid()
      ensures didRun == (old(pending) != [])
      ensures old(shutDown) ==> !didRun
      ensures !didRun ==> unchanged(this)
      ensures didRun ==>
                var t := old(pending)[0];
                var out := Handle(engine, toFloat, old(calls), t.call);
                && pending == old(pending)[1..]
                && calls == old(calls) + CallsMade(out)
                && responses == old(responses) + [Posted(t.id, out.response)]
                && shutDown == old(shutDown) && nextId == old(nextId)
    {
      if pending == [] {
        return false;
      }
      var t := pending[0];
      var out := Execute(engine, toFloat, calls, t.call);
      pending := pending[1..];
      calls := calls + CallsMade(out);
      callers := callers + if out.made.Some? then [t.id] else [];
      responses := responses + [Posted(t.id, out.response)];
      ran := ran + [t];
      return true;
    }

    /** `onDestroy`: `shutdownNow` discards every queued task and refuses later ones. */
    method OnDestroy()
      requires Valid()
      modifies this
      ensures Valid()
      ensures shutDown && pending == []
      ensures nextId == old(nextId) && calls == old(calls) && responses == old(responses)
    {
      shutDown := true;
      dropped := dropped + pending;
      pending := [];
    }
  }

  /** Two calls in a row where the engine throws on the first: the first gets the "error"
      response, the worker goes on, and the second reaches the engine after the first. */
  method FailureDoesNotStopWorker(engine: Engine, toFloat: real -> real, message: Option<string>)
    returns (posted: seq<Posted>, made: seq<FacadeCall>)
    requires engine([], LoadDatabase("a")) == Threw(message)
    ensures made == [LoadDatabase("a"), LoadDatabase("b")]
    ensures |posted| == 2
    ensures posted[0] == Posted(0, Error("error", Thrown(message), Null))
    ensures posted[1] == Posted(1, Respond(engine([LoadDatabase("a")], LoadDatabase("b"))))
  {
    var bridge := new Bridge(engine, toFloat);
    var ok := bridge.OnMethodCall(MethodCall("loadDatabase", map["filePath" := Str("a")]));
    ok := bridge.OnMethodCall(MethodCall("loadDatabase", map["filePath" := Str("b")]));
    var ran := bridge.Step();
    assert bridge.calls == [LoadDatabase("a")];
    ran := bridge.Step();
    posted, made := bridge.responses, bridge.calls;
  }

  /** A call queued before `onDestroy` and one submitted after it never run: no engine call,
      no response. */
  method ShutdownDiscardsQueued(engine: Engine, toFloat: real -> real, first: MethodCall, late: MethodCall)
    returns (posted: seq<Posted>, made: seq<FacadeCall>, lateAccepted: bool, ran: bool)
    ensures posted == [] && made == []
    ensures !lateAccepted && !ran
  {
    var bridge := new Bridge(engine, toFloat);
    var ok := bridge.OnMethodCall(first);
    bridge.OnDestroy();
    lateAccepted := bridge.OnMethodCall(late);
    ran := bridge.Step();
    posted, made := bridge.responses, bridge.calls;
  }
}
