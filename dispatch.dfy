/**
 * The decision `_trigger_frame_handler` makes for one (frame, handler) pair,
 * as pure functions of the agent's name and seen set, and what a sequence of
 * such triggers does to the seen set and to the log of handler invocations.
 * The dedup set is an exact set: the scalable bloom filter it stands for has
 * no false negatives, so every property below that says a frame is dropped
 * holds of the filter too.
 */
module Dispatch {
  import opened Base
  import opened Frames

  /** The reserved prefix of lifecycle event names. */
  const LIFECYCLE_PREFIX: string := "***"

  /** An argument passed to a handler: the agent itself or the frame. */
  datatype Arg = SelfArg | FrameArg(frame: Option<Frame>)

  /** One pass of a handler, inline or spawned as a task. */
  datatype Invocation = Invocation(frame: Option<Frame>, handler: Handler, payload: seq<Arg>, async: bool)

  /** One call of the gate: the frame (None for a timer firing), the handler, the filters' verdict. */
  datatype Trigger = Trigger(frame: Option<Frame>, handler: Handler, filterOk: bool)

  datatype Decision = OwnMessage | ForeignLifecycle | AlreadySeen | Filtered | Fire

  /** A message the agent itself sent. */
  predicate IsOwnMessage(self: string, frame: Option<Frame>) {
    frame.Some? && frame.value.kind == Message && frame.value.source == self
  }

  /** A lifecycle event that another agent emitted. */
  predicate IsForeignLifecycle(self: string, frame: Option<Frame>) {
    frame.Some? && frame.value.kind == Event && frame.value.source != self
    && StartsWith(frame.value.name, LIFECYCLE_PREFIX)
  }

  predicate WasSeen(seen: set<string>, frame: Option<Frame>) {
    frame.Some? && frame.value.id in seen
  }

  /** The checks in source order: loop prevention, lifecycle drop, dedup, filters. */
  function Gate(self: string, seen: set<string>, frame: Option<Frame>, filterOk: bool): Decision {
    if IsOwnMessage(self, frame) then OwnMessage
    else if IsForeignLifecycle(self, frame) then ForeignLifecycle
    else if WasSeen(seen, frame) then AlreadySeen
    else if !filterOk then Filtered
    else Fire
  }

  /** The handler's arguments: the agent first iff pass_self, then the frame unless it is a timer handler. */
  function Payload(handler: Handler, frame: Option<Frame>): (p: seq<Arg>)
    ensures |p| == (if handler.passSelf then 1 else 0) + (if handler.kind != Timer then 1 else 0)
    ensures |p| <= 2
    ensures handler.passSelf <==> SelfArg in p
    ensures handler.passSelf ==> p[0] == SelfArg
    ensures handler.kind != Timer <==> FrameArg(frame) in p
    ensures handler.kind != Timer ==> p[|p| - 1] == FrameArg(frame)
  {
    (if handler.passSelf then [SelfArg] else []) + (if handler.kind != Timer then [FrameArg(frame)] else [])
  }

  /** The ids of the frames a list of invocations carried. */
  function FrameIds(invs: seq<Invocation>): set<string> {
    if invs == [] then {}
    else (if invs[0].frame.Some? then {invs[0].frame.value.id} else {}) + FrameIds(invs[1..])
  }

  /**
   * One trigger: the new seen set and the invocation, if the handler runs.
   * Only a passing non-empty frame adds its id; every dropped trigger leaves
   * the seen set as it was.
   */
  function Step(self: string, seen: set<string>, t: Trigger): (r: (set<string>, Option<Invocation>))
    ensures IsOwnMessage(self, t.frame) ==> r == (seen, None)
    ensures IsForeignLifecycle(self, t.frame) ==> r == (seen, None)
    ensures WasSeen(seen, t.frame) ==> r == (seen, None)
    ensures !t.filterOk ==> r == (seen, None)
    ensures r.1.Some? <==> Gate(self, seen, t.frame, t.filterOk) == Fire
    ensures r.1.Some? ==> r.1.value == Invocation(t.frame, t.handler, Payload(t.handler, t.frame), t.handler.runAsync)
    ensures r.0 == seen + (if r.1.Some? && t.frame.Some? then {t.frame.value.id} else {})
  {
    if Gate(self, seen, t.frame, t.filterOk) == Fire then
      (if t.frame.Some? then seen + {t.frame.value.id} else seen,
       Some(Invocation(t.frame, t.handler, Payload(t.handler, t.frame), t.handler.runAsync)))
    else
      (seen, None)
  }

  /** A sequence of triggers, each seeing the seen set its predecessors left. */
  function RunTriggers(self: string, seen: set<string>, ts: seq<Trigger>): (set<string>, seq<Invocation>)
    decreases |ts|
  {
    if ts == [] then (seen, [])
    else
      var first := Step(self, seen, ts[0]);
      var rest := RunTriggers(self, first.0, ts[1..]);
      (rest.0, (if first.1.Some? then [first.1.value] else []) + rest.1)
  }

  /** How many invocations carried a frame with this id. */
  function CountFor(invs: seq<Invocation>, id: string): nat {
    if invs == [] then 0
    else (if invs[0].frame.Some? && invs[0].frame.value.id == id then 1 else 0) + CountFor(invs[1..], id)
  }

  // ---------------------------------------------------------------------
  // Properties of a run of triggers
  // ---------------------------------------------------------------------

  /** The seen set only grows, and grows by exactly the ids of the frames that passed. */
  lemma {:induction false} RunRecordsExactlyPassedIds(self: string, seen: set<string>, ts: seq<Trigger>)
    ensures RunTriggers(self, seen, ts).0 == seen + FrameIds(RunTriggers(self, seen, ts).1)
    decreases |ts|
  {
    if ts != [] {
      var first := Step(self, seen, ts[0]);
      var rest := RunTriggers(self, first.0, ts[1..]);
      RunRecordsExactlyPassedIds(self, first.0, ts[1..]);
      if first.1.Some? {
        assert ([first.1.value] + rest.1)[1..] == rest.1;
      } else {
        assert [] + rest.1 == rest.1;
      }
    }
  }

  /**
   * At most one handler invocation per frame id, over any sequence of
   * triggers and any handlers; none at all for an id already seen.
   */
  lemma {:induction false} AtMostOncePerFrameId(self: string, seen: set<string>, ts: seq<Trigger>, id: string)
    ensures CountFor(RunTriggers(self, seen, ts).1, id) <= (if id in seen then 0 else 1)
    decreases |ts|
  {
    if ts != [] {
      var first := Step(self, seen, ts[0]);
      var rest := RunTriggers(self, first.0, ts[1..]);
      AtMostOncePerFrameId(self, first.0, ts[1..], id);
      var head: seq<Invocation> := if first.1.Some? then [first.1.value] else [];
      CountForAppend(head, rest.1, id);
      if head != [] && head[0].frame.Some? && head[0].frame.value.id == id {
        assert id in first.0;
      }
    }
  }

  lemma {:induction false} CountForAppend(a: seq<Invocation>, b: seq<Invocation>, id: string)
    ensures CountFor(a + b, id) == CountFor(a, id) + CountFor(b, id)
  {
    if a == [] {
      assert a + b == b;
    } else {
      assert (a + b)[1..] == a[1..] + b;
      CountForAppend(a[1..], b, id);
    }
  }

  /** No invocation in a run carries the agent's own message or another agent's lifecycle event. */
  lemma {:induction false} LoopPrevention(self: string, seen: set<string>, ts: seq<Trigger>)
    ensures forall inv :: inv in RunTriggers(self, seen, ts).1 ==>
      !IsOwnMessage(self, inv.frame) && !IsForeignLifecycle(self, inv.frame)
    decreases |ts|
  {
    if ts != [] {
      var first := Step(self, seen, ts[0]);
      LoopPrevention(self, first.0, ts[1..]);
    }
  }

  /**
   * A vetoed trigger records nothing: the same frame offered to a handler
   * whose filters pass right afterwards still runs it.
   */
  lemma VetoedFrameCanStillFire(self: string, seen: set<string>, f: Frame, vetoed: Handler, h: Handler)
    requires !IsOwnMessage(self, Some(f)) && !IsForeignLifecycle(self, Some(f)) && f.id !in seen
    ensures RunTriggers(self, seen, [Trigger(Some(f), vetoed, false), Trigger(Some(f), h, true)])
      == (seen + {f.id}, [Invocation(Some(f), h, Payload(h, Some(f)), h.runAsync)])
  {
    var ts := [Trigger(Some(f), vetoed, false), Trigger(Some(f), h, true)];
    assert Step(self, seen, ts[0]) == (seen, None);
    assert ts[1..] == [Trigger(Some(f), h, true)];
    assert ts[1..][1..] == [];
    var inv := Invocation(Some(f), h, Payload(h, Some(f)), h.runAsync);
    assert Step(self, seen, ts[1]) == (seen + {f.id}, Some(inv));
    assert ts[1..][0] == ts[1];
    assert RunTriggers(self, seen + {f.id}, ts[1..][1..]) == (seen + {f.id}, []);
    assert [inv] + [] == [inv];
    assert RunTriggers(self, seen, ts[1..]) == (seen + {f.id}, [inv]);
    var empty: seq<Invocation> := [];
    assert empty + [inv] == [inv];
  }

  /** A frame that passed is dropped the next time, for every handler. */
  lemma SecondDeliveryDropped(self: string, seen: set<string>, f: Frame, h1: Handler, h2: Handler, ok2: bool)
    requires Step(self, seen, Trigger(Some(f), h1, true)).1.Some?
    ensures var s1 := Step(self, seen, Trigger(Some(f), h1, true)).0;
      Step(self, s1, Trigger(Some(f), h2, ok2)) == (s1, None)
  {
  }
}
