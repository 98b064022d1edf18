/**
 * The Agent runtime: the spawn queue and event-loop rule, the dispatch gate
 * with its seen set, handler registration, the should_stop edge and close.
 * The Zentropian base class, the timer registry, the emitter and the
 * connection registry are not part of this model; what the agent keeps of
 * them is a field (the handler lists, the connection entries) or a log
 * (emitted lifecycle events, connections closed).
 */
module AgentRuntime {
  import opened Base
  import opened Frames
  import opened Dispatch

  type LoopId = nat
  type TaskId = nat

  /**
   * A coroutine handed to spawn. Coroutines are compared as values, so two
   * equal ones queued before a loop exists are one entry of the queue set.
   */
  datatype Coro =
    | ReturnHandler(frame: Option<Frame>, handler: Handler, payload: seq<Arg>)
    | ConnectionListener(subscription: nat)
    | OtherCoro(id: nat)

  /** An entry of the agent's connection registry. */
  datatype ConnEntry = ConnEntry(id: nat, endpoint: string, tag: string)

  /** Keyword arguments of the Handler constructor that the core passes on. */
  datatype HandlerOptions = HandlerOptions(passSelf: bool, runAsync: bool)

  // ---------------------------------------------------------------------
  // str(interval) for a whole-second timer interval
  // ---------------------------------------------------------------------

  predicate AllDigits(s: string) {
    forall i :: 0 <= i < |s| ==> '0' <= s[i] <= '9'
  }

  function Digit(d: nat): (c: char)
    requires d < 10
    ensures '0' <= c <= '9'
  {
    ('0' as int + d) as char
  }

  /** The decimal text of n, as str(n) writes it. */
  function DecimalString(n: nat): (s: string)
    ensures |s| >= 1 && AllDigits(s)
    ensures |s| > 1 ==> s[0] != '0'
  {
    if n < 10 then [Digit(n)] else DecimalString(n / 10) + [Digit(n % 10)]
  }

  /** The number a string of decimal digits denotes. */
  function DecimalValue(s: string): nat
    requires AllDigits(s)
  {
    if s == [] then 0 else DecimalValue(s[..|s| - 1]) * 10 + (s[|s| - 1] as int - '0' as int)
  }

  /** The timer registry's key for an interval reads back as that interval. */
  lemma {:induction false} DecimalRoundTrip(n: nat)
    ensures DecimalValue(DecimalString(n)) == n
  {
    if n >= 10 {
      DecimalRoundTrip(n / 10);
      var s := DecimalString(n);
      assert s[..|s| - 1] == DecimalString(n / 10);
    }
  }

  /** Distinct intervals get distinct timer keys. */
  lemma DecimalStringInjective(m: nat, n: nat)
    requires DecimalString(m) == DecimalString(n)
    ensures m == n
  {
    DecimalRoundTrip(m);
    DecimalRoundTrip(n);
  }

  /** The handler the timer decorators build for an interval. */
  function TimerHandler(interval: nat, fn: nat, options: HandlerOptions): Handler {
    Handler(Timer, DecimalString(interval), fn, options.passSelf, options.runAsync)
  }

  /**
   * The module-level on_timer decorator: appends a timer handler for the
   * interval to the callable's meta list, creating the list when absent.
   */
  function OnTimerMeta(meta: Option<seq<Handler>>, interval: nat, fn: nat, options: HandlerOptions): (r: seq<Handler>)
    ensures |r| == (if meta.Some? then |meta.value| else 0) + 1
    ensures meta.Some? ==> r[..|meta.value|] == meta.value
    ensures var h := r[|r| - 1];
      h.kind == Timer && h.fn == fn && AllDigits(h.name) && DecimalValue(h.name) == interval
      && h.passSelf == options.passSelf && h.runAsync == options.runAsync
  {
    DecimalRoundTrip(interval);
    (if meta.Some? then meta.value else []) + [TimerHandler(interval, fn, options)]
  }

  // ---------------------------------------------------------------------
  // Connection selection for close
  // ---------------------------------------------------------------------

  /** The entries satisfying p, in registry order. */
  function Matching(conns: seq<ConnEntry>, p: ConnEntry -> bool): (r: seq<ConnEntry>)
    ensures |r| <= |conns|
    ensures forall c :: c in r <==> c in conns && p(c)
  {
    if conns == [] then [] else (if p(conns[0]) then [conns[0]] else []) + Matching(conns[1..], p)
  }

  /**
   * close's choice of connections: an endpoint together with tags raises
   * ValueError; otherwise the connections at the endpoint, else those with
   * one of the tags, else all of them. An empty endpoint or tag list counts
   * as not given.
   */
  function SelectConnections(conns: seq<ConnEntry>, endpoint: Option<string>, tags: seq<string>): (r: Result<seq<ConnEntry>>)
    ensures r.Err? <==> Truthy(endpoint) && tags != []
    ensures r.Err? ==> r.error == ValueError
    ensures r.Ok? && Truthy(endpoint) ==> forall c :: c in r.value <==> c in conns && c.endpoint == endpoint.value
    ensures r.Ok? && !Truthy(endpoint) && tags != [] ==> forall c :: c in r.value <==> c in conns && c.tag in tags
    ensures r.Ok? && !Truthy(endpoint) && tags == [] ==> r.value == conns
  {
    if Truthy(endpoint) && tags != [] then Err(ValueError)
    else if Truthy(endpoint) then Ok(Matching(conns, (c: ConnEntry) => c.endpoint == endpoint.value))
    else if tags != [] then Ok(Matching(conns, (c: ConnEntry) => c.tag in tags))
    else Ok(conns)
  }

  function Ids(conns: seq<ConnEntry>): (r: seq<nat>)
    ensures |r| == |conns|
    ensures forall i :: 0 <= i < |conns| ==> r[i] == conns[i].id
  {
    seq(|conns|, i requires 0 <= i < |conns| => conns[i].id)
  }

  class Agent {
    const name: string
    /** The event loop, once one is set. */
    var loop: Option<LoopId>
    /** Coroutines spawned before a loop existed; None once drained. */
    var spawnOnStart: Option<set<Coro>>
    /** Coroutines scheduled on the loop, in order; a task's id is its index. */
    var tasks: seq<Coro>
    /** Ids of the frames that passed the gate (the dedup filter). */
    var seen: set<string>
    /** states.should_stop */
    var shouldStop: bool
    /** timers.should_stop */
    var timersShouldStop: bool
    /** The non-timer handler registry, in registration order. */
    var handlers: seq<Handler>
    /** The timer registry: interval key to its handlers. */
    var timerHandlers: map<string, seq<Handler>>
    /** The connection registry, filled by connect and bind. */
    var connections: seq<ConnEntry>
    /** Internal lifecycle events emitted, by name. */
    ghost var emitted: seq<string>
    /** Every pass of a handler through the gate. */
    ghost var invocations: seq<Invocation>
    /** Ids of the connections close() was called on, in order. */
    ghost var closed: seq<nat>
    /** How many times close() ran. */
    ghost var closeCalls: nat

    /** The queue is dropped only after the loop exists. */
    ghost predicate Valid()
      reads this
    {
      spawnOnStart.None? ==> loop.Some?
    }

    constructor(name: string)
      ensures Valid() && this.name == name
      ensures loop == None && spawnOnStart == Some({}) && tasks == []
      ensures seen == {} && !shouldStop && !timersShouldStop
      ensures handlers == [] && timerHandlers == map[] && connections == []
      ensures emitted == [] && invocations == [] && closed == [] && closeCalls == 0
    {
      this.name := name;
      loop, spawnOnStart, tasks := None, Some({}), [];
      seen, shouldStop, timersShouldStop := {}, false, false;
      handlers, timerHandlers, connections := [], map[], [];
      emitted, invocations, closed, closeCalls := [], [], [], 0;
    }

    /**
     * Without a loop the coroutine joins the start-up queue and nothing is
     * returned; with one it becomes the next task.
     */
    method Spawn(coro: Coro) returns (task: Option<TaskId>)
      requires Valid()
      modifies this`spawnOnStart, this`tasks
      ensures Valid()
      ensures loop.None? ==>
        task == None && tasks == old(tasks) && spawnOnStart == Some(old(spawnOnStart).value + {coro})
      ensures loop.Some? ==>
        task == Some(|old(tasks)|) && tasks == old(tasks) + [coro] && spawnOnStart == old(spawnOnStart)
    {
      if loop.None? {
        spawnOnStart := Some(spawnOnStart.value + {coro});
        return None;
      }
      tasks := tasks + [coro];
      return Some(|tasks| - 1);
    }

    /**
     * An explicit loop when one is already set raises AssertionError; an
     * explicit loop is installed; with none at all the default loop is used.
     */
    method SetAsyncioLoop(newLoop: Option<LoopId>, defaultLoop: LoopId) returns (r: Outcome)
      requires Valid()
      modifies this`loop
      ensures Valid()
      ensures r.Fail? <==> old(loop).Some? && newLoop.Some?
      ensures r.Fail? ==> r.error == AssertionError && loop == old(loop)
      ensures r.Pass? ==> loop == Some(
        if newLoop.Some? then newLoop.value
        else if old(loop).Some? then old(loop).value
        else defaultLoop)
    {
      if loop.Some? && newLoop.Some? {
        return Fail(AssertionError);
      }
      if newLoop.Some? {
        loop := newLoop;
      }
      if loop.None? {
        loop := Some(defaultLoop);
      }
      return Pass;
    }

    /**
     * The gate for one frame and one handler. `filterOk` is what
     * apply_filters([handler]) answers, `retVal` what a synchronous handler
     * returns (None for any falsy value) and `handleReturn` the agent's
     * handle_return. The new seen set and the invocation log follow Step;
     * an async handler is spawned, a synchronous one's truthy result is
     * passed to handle_return and that answer returned.
     */
    method TriggerFrameHandler<V, R>(frame: Option<Frame>, handler: Handler, filterOk: bool,
                                     retVal: Option<V>, handleReturn: (Option<Frame>, V) -> R)
      returns (r: Option<R>)
      requires Valid()
      modifies this`seen, this`invocations, this`spawnOnStart, this`tasks
      ensures Valid()
      ensures var step := Step(name, old(seen), Trigger(frame, handler, filterOk));
        seen == step.0 && invocations == old(invocations) + (if step.1.Some? then [step.1.value] else [])
      ensures Gate(name, old(seen), frame, filterOk) != Fire ==>
        r == None && tasks == old(tasks) && spawnOnStart == old(spawnOnStart)
      ensures Gate(name, old(seen), frame, filterOk) == Fire && handler.runAsync ==>
        var coro := ReturnHandler(frame, handler, Payload(handler, frame));
        r == None
        && (loop.None? ==> tasks == old(tasks) && spawnOnStart == Some(old(spawnOnStart).value + {coro}))
        && (loop.Some? ==> tasks == old(tasks) + [coro] && spawnOnStart == old(spawnOnStart))
      ensures Gate(name, old(seen), frame, filterOk) == Fire && !handler.runAsync ==>
        r == (if retVal.Some? then Some(handleReturn(frame, retVal.value)) else None)
        && tasks == old(tasks) && spawnOnStart == old(spawnOnStart)
    {
      if frame.Some? && frame.value.kind == Message && frame.value.source == name {
        return None;
      }
      if frame.Some? && frame.value.kind == Event && frame.value.source != name
         && StartsWith(frame.value.name, LIFECYCLE_PREFIX) {
        return None;
      }
      if frame.Some? && frame.value.id in seen {
        return None;
      }
      if !filterOk {
        return None;
      }
      if frame.Some? {
        seen := seen + {frame.value.id};
      }
      var payload: seq<Arg> := [];
      if handler.passSelf {
        payload := payload + [SelfArg];
      }
      if handler.kind != Timer {
        payload := payload + [FrameArg(frame)];
      }
      assert payload == Payload(handler, frame);
      assert Gate(name, old(seen), frame, filterOk) == Fire;
      invocations := invocations + [Invocation(frame, handler, payload, handler.runAsync)];
      if handler.runAsync {
        var _ := Spawn(ReturnHandler(frame, handler, payload));
        return None;
      }
      if retVal.Some? {
        return Some(handleReturn(frame, retVal.value));
      }
      return None;
    }

    /**
     * Repeated delivery: each trigger in turn goes through the gate. The seen
     * set and the new invocations are those of RunTriggers, so no frame id
     * reaches a handler twice, whatever handlers and transports deliver it.
     */
    method DeliverAll(ts: seq<Trigger>)
      requires Valid()
      modifies this`seen, this`invocations, this`spawnOnStart, this`tasks
      ensures Valid()
      ensures |old(invocations)| <= |invocations| && invocations[..|old(invocations)|] == old(invocations)
      ensures (seen, invocations[|old(invocations)|..]) == RunTriggers(name, old(seen), ts)
      ensures forall id :: CountFor(invocations[|old(invocations)|..], id) <= (if id in old(seen) then 0 else 1)
    {
      ghost var start := |invocations|;
      var k := 0;
      assert ts[k..] == ts && invocations[start..] == [];
      assert [] + RunTriggers(name, seen, ts).1 == RunTriggers(name, seen, ts).1;
      while k < |ts|
        invariant 0 <= k <= |ts| && Valid()
        invariant start <= |invocations| && invocations[..start] == old(invocations)
        invariant var rest := RunTriggers(name, seen, ts[k..]);
          RunTriggers(name, old(seen), ts) == (rest.0, invocations[start..] + rest.1)
      {
        ghost var before := invocations[start..];
        ghost var s0 := seen;
        var t := ts[k];
        assert ts[k..][0] == t && ts[k..][1..] == ts[k + 1..];
        var _ := TriggerFrameHandler<int, int>(t.frame, t.handler, t.filterOk, None, (f: Option<Frame>, v: int) => v);
        ghost var step := Step(name, s0, t);
        ghost var head: seq<Invocation> := if step.1.Some? then [step.1.value] else [];
        ghost var rest := RunTriggers(name, step.0, ts[k + 1..]);
        assert RunTriggers(name, s0, ts[k..]) == (rest.0, head + rest.1);
        assert invocations[start..] == before + head;
        assert before + (head + rest.1) == (before + head) + rest.1;
        k := k + 1;
      }
      assert ts[k..] == [];
      assert invocations[start..] + [] == invocations[start..];
      forall id
        ensures CountFor(invocations[start..], id) <= (if id in old(seen) then 0 else 1)
      {
        AtMostOncePerFrameId(name, old(seen), ts, id);
      }
    }

    /** Timer handlers go to the timer registry under their interval key, the rest to the handler registry. */
    method AddHandler(handler: Handler)
      modifies this`handlers, this`timerHandlers
      ensures handler.kind == Timer ==>
        handlers == old(handlers)
        && timerHandlers == old(timerHandlers)[handler.name :=
             (if handler.name in old(timerHandlers) then old(timerHandlers)[handler.name] else []) + [handler]]
      ensures handler.kind != Timer ==> handlers == old(handlers) + [handler] && timerHandlers == old(timerHandlers)
    {
      if handler.kind == Timer {
        var current := if handler.name in timerHandlers then timerHandlers[handler.name] else [];
        timerHandlers := timerHandlers[handler.name := current + [handler]];
      } else {
        handlers := handlers + [handler];
      }
    }

    /** The on_timer decorator method: registers a timer handler for the interval and gives the callable back. */
    method OnTimer(interval: nat, fn: nat, defaults: HandlerOptions) returns (r: nat)
      modifies this`timerHandlers
      ensures r == fn
      ensures var key := DecimalString(interval);
        timerHandlers == old(timerHandlers)[key :=
          (if key in old(timerHandlers) then old(timerHandlers)[key] else []) + [TimerHandler(interval, fn, defaults)]]
    {
      var key := DecimalString(interval);
      var h := TimerHandler(interval, fn, defaults);
      var current := if key in timerHandlers then timerHandlers[key] else [];
      timerHandlers := timerHandlers[key := current + [h]];
      return fn;
    }

    /**
     * close(endpoint, tags): ValueError when both are given, otherwise
     * close() on exactly the selected connections, in registry order.
     */
    method Close(endpoint: Option<string>, tags: seq<string>) returns (r: Outcome)
      modifies this`closed, this`closeCalls
      ensures closeCalls == old(closeCalls) + 1
      ensures var sel := SelectConnections(connections, endpoint, tags);
        (sel.Err? ==> r == Fail(sel.error) && closed == old(closed))
        && (sel.Ok? ==> r == Pass && closed == old(closed) + Ids(sel.value))
    {
      closeCalls := closeCalls + 1;
      var sel := SelectConnections(connections, endpoint, tags);
      if sel.Err? {
        return Fail(sel.error);
      }
      var selected := sel.value;
      ghost var before := closed;
      var k := 0;
      while k < |selected|
        invariant 0 <= k <= |selected|
        invariant closeCalls == old(closeCalls) + 1
        invariant |closed| == |before| + k && closed[..|before|] == before
        invariant forall i :: 0 <= i < k ==> closed[|before| + i] == selected[i].id
      {
        closed := closed + [selected[k].id];
        k := k + 1;
      }
      assert closed == before + Ids(selected);
      return Pass;
    }

    /** The should_stop state handler: close() only on the false-to-true edge. */
    method OnShouldStop(last: bool, value: bool) returns (r: bool)
      modifies this`closed, this`closeCalls
      ensures r
      ensures !last && value ==> closed == old(closed) + Ids(connections) && closeCalls == old(closeCalls) + 1
      ensures !(!last && value) ==> closed == old(closed) && closeCalls == old(closeCalls)
    {
      if !last && value {
        var _ := Close(None, []);
      }
      return true;
    }

    /** Assigning states.should_stop, which notifies the state handler with the previous and new value. */
    method SetShouldStop(value: bool)
      modifies this`shouldStop, this`closed, this`closeCalls
      ensures shouldStop == value
      ensures !old(shouldStop) && value ==> closed == old(closed) + Ids(connections) && closeCalls == old(closeCalls) + 1
      ensures !(!old(shouldStop) && value) ==> closed == old(closed) && closeCalls == old(closeCalls)
    {
      var last := shouldStop;
      shouldStop := value;
      var _ := OnShouldStop(last, value);
    }

    /** stop(): emits '*** stopping' and sets both stop flags; connections close on the first stop only. */
    method Stop()
      modifies this`emitted, this`shouldStop, this`timersShouldStop, this`closed, this`closeCalls
      ensures shouldStop && timersShouldStop
      ensures emitted == old(emitted) + ["*** stopping"]
      ensures old(shouldStop) ==> closed == old(closed) && closeCalls == old(closeCalls)
      ensures !old(shouldStop) ==> closed == old(closed) + Ids(connections) && closeCalls == old(closeCalls) + 1
    {
      emitted := emitted + ["*** stopping"];
      SetShouldStop(true);
      timersShouldStop := true;
    }

    /**
     * The body of _run_forever: schedules every queued coroutine once and drops
     * the queue when it was non-empty, emits '*** started', then polls
     * should_stop once a second until it is set; then '*** stopped'. Another
     * task calling stop() during poll number `stopAfter` stands for whatever
     * ends the agent.
     */
    method RunForever(stopAfter: nat) returns (polls: nat)
      requires Valid() && loop.Some?
      modifies this`spawnOnStart, this`tasks, this`emitted, this`shouldStop, this`timersShouldStop,
               this`closed, this`closeCalls
      ensures Valid() && shouldStop
      ensures old(spawnOnStart).Some? && old(spawnOnStart).value != {} ==>
        spawnOnStart == None && |tasks| == |old(tasks)| + |old(spawnOnStart).value|
        && tasks[..|old(tasks)|] == old(tasks)
        && multiset(tasks[|old(tasks)|..]) == multiset(old(spawnOnStart).value)
      ensures !(old(spawnOnStart).Some? && old(spawnOnStart).value != {}) ==>
        spawnOnStart == old(spawnOnStart) && tasks == old(tasks)
      ensures emitted == old(emitted) + ["*** started"] + (if old(shouldStop) then [] else ["*** stopping"]) + ["*** stopped"]
      ensures polls == if old(shouldStop) then 0 else stopAfter + 1
      ensures closeCalls == old(closeCalls) + (if old(shouldStop) then 0 else 1)
    {
      DrainSpawnQueue();
      emitted := emitted + ["*** started"];
      polls := WaitForStop(stopAfter);
      emitted := emitted + ["*** stopped"];
    }

    /** Spawns each queued coroutine exactly once and drops the queue, when it is non-empty. */
    method DrainSpawnQueue()
      requires Valid() && loop.Some?
      modifies this`spawnOnStart, this`tasks
      ensures Valid()
      ensures old(spawnOnStart).Some? && old(spawnOnStart).value != {} ==>
        spawnOnStart == None && |tasks| == |old(tasks)| + |old(spawnOnStart).value|
        && tasks[..|old(tasks)|] == old(tasks)
        && multiset(tasks[|old(tasks)|..]) == multiset(old(spawnOnStart).value)
      ensures !(old(spawnOnStart).Some? && old(spawnOnStart).value != {}) ==>
        spawnOnStart == old(spawnOnStart) && tasks == old(tasks)
    {
      if spawnOnStart.Some? && spawnOnStart.value != {} {
        var queued := spawnOnStart.value;
        var pending := queued;
        ghost var added: seq<Coro> := [];
        while pending != {}
          invariant loop.Some? && spawnOnStart == Some(queued)
          invariant pending <= queued
          invariant tasks == old(tasks) + added
          invariant multiset(added) == multiset(queued - pending)
          decreases pending
        {
          var coro :| coro in pending;
          var _ := Spawn(coro);
          assert queued - (pending - {coro}) == (queued - pending) + {coro};
          added := added + [coro];
          pending := pending - {coro};
        }
        assert tasks[|old(tasks)|..] == added;
        assert |added| == |multiset(added)| == |queued|;
        spawnOnStart := None;
      }
    }

    /** The `while should_stop is False` poll; stop() is called during poll number `stopAfter`. */
    method WaitForStop(stopAfter: nat) returns (polls: nat)
      modifies this`emitted, this`shouldStop, this`timersShouldStop, this`closed, this`closeCalls
      ensures shouldStop
      ensures polls == if old(shouldStop) then 0 else stopAfter + 1
      ensures emitted == old(emitted) + (if old(shouldStop) then [] else ["*** stopping"])
      ensures closeCalls == old(closeCalls) + (if old(shouldStop) then 0 else 1)
    {
      polls := 0;
      while !shouldStop
        invariant old(shouldStop) ==> polls == 0 && shouldStop && emitted == old(emitted) && closeCalls == old(closeCalls)
        invariant !old(shouldStop) ==> polls <= stopAfter + 1
        invariant !old(shouldStop) && !shouldStop ==>
          polls <= stopAfter && closeCalls == old(closeCalls) && emitted == old(emitted)
        invariant !old(shouldStop) && shouldStop ==>
          polls == stopAfter + 1 && closeCalls == old(closeCalls) + 1 && emitted == old(emitted) + ["*** stopping"]
        decreases stopAfter + 1 - polls
      {
        if polls == stopAfter {
          Stop();
        }
        polls := polls + 1;
      }
    }
  }

  /** stop() twice: the connections are closed once and '*** stopping' is emitted twice. */
  method StopTwice(a: Agent)
    requires !a.shouldStop
    modifies a
    ensures a.closeCalls == old(a.closeCalls) + 1
    ensures a.closed == old(a.closed) + Ids(a.connections)
    ensures a.emitted == old(a.emitted) + ["*** stopping", "*** stopping"]
  {
    a.Stop();
    a.Stop();
  }
}
