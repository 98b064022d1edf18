/**
 * run_agents as a wiring plan: which agent starts, binds, connects, joins and
 * runs, in which order, and whose stop() the last agent's '*** stopping'
 * event calls. Agent i is the i-th positional argument; when the interactive
 * shell is requested it is appended as one more agent.
 */
module Orchestration {
  import opened Base
  import opened Utils

  const INMEMORY_SCHEME: string := "inmemory://"

  /** A positional argument of run_agents: an Agent instance or something else. */
  datatype AgentArg = AgentInstance | NotAnAgent

  datatype Action = Start(i: nat) | Bind(i: nat) | Connect(i: nat) | Join(i: nat) | Run(i: nat)

  /**
   * What a call does: the validated endpoint and space, the calls on the agents
   * in order, and the agents the '*** stopping' handler stops, in order.
   */
  datatype Plan = Plan(endpoint: string, space: string, actions: seq<Action>, stopOnStopping: seq<nat>)

  /** The indices lo, lo + 1, ..., hi - 1. */
  function Range(lo: nat, hi: nat): (r: seq<nat>)
    requires lo <= hi
    ensures |r| == hi - lo
    ensures forall k :: 0 <= k < |r| ==> r[k] == lo + k
  {
    seq(hi - lo, k requires 0 <= k < hi - lo => lo + k)
  }

  /** start, connect and join, agent after agent. */
  function ConnectBlock(agents: seq<nat>): seq<Action>
  {
    if agents == [] then []
    else
      var a := agents[|agents| - 1];
      ConnectBlock(agents[..|agents| - 1]) + [Start(a), Connect(a), Join(a)]
  }

  /** The agents that start and connect: the middle ones, and the first unless it binds. */
  function ConnectAgents(n: nat, inmemory: bool): seq<nat>
    requires n >= 2
  {
    if inmemory then Range(1, n - 1) else Range(0, n - 1)
  }

  /** The calls made on n >= 1 agents, as a reference definition. */
  function WiringActions(n: nat, inmemory: bool): seq<Action>
    requires n >= 1
  {
    if n == 1 then [Connect(0), Join(0), Run(0)]
    else
      (if inmemory then [Start(0), Bind(0), Join(0)] else [])
      + ConnectBlock(ConnectAgents(n, inmemory))
      + [Connect(n - 1), Join(n - 1), Run(n - 1)]
  }

  /** The agents stopped on the last agent's '*** stopping' event. */
  function WiringStops(n: nat, inmemory: bool): seq<nat>
    requires n >= 1
  {
    if n == 1 then [] else ConnectAgents(n, inmemory)
  }

  // ---------------------------------------------------------------------
  // Properties of the plan
  // ---------------------------------------------------------------------

  lemma {:induction false} ConnectBlockLength(agents: seq<nat>)
    ensures |ConnectBlock(agents)| == 3 * |agents|
  {
    if agents != [] {
      ConnectBlockLength(agents[..|agents| - 1]);
    }
  }

  /** The j-th connect agent's three calls sit at positions 3j, 3j + 1 and 3j + 2. */
  lemma {:induction false} ConnectBlockAt(agents: seq<nat>, j: nat)
    requires j < |agents|
    ensures |ConnectBlock(agents)| == 3 * |agents|
    ensures ConnectBlock(agents)[3 * j] == Start(agents[j])
    ensures ConnectBlock(agents)[3 * j + 1] == Connect(agents[j])
    ensures ConnectBlock(agents)[3 * j + 2] == Join(agents[j])
  {
    var init := agents[..|agents| - 1];
    ConnectBlockLength(agents);
    ConnectBlockLength(init);
    if j < |init| {
      ConnectBlockAt(init, j);
      assert init[j] == agents[j];
    }
  }

  /** Each call in a connect block is a start, connect or join of a connect agent. */
  lemma {:induction false} ConnectBlockElem(agents: seq<nat>, k: nat)
    requires k < |ConnectBlock(agents)|
    ensures var a := ConnectBlock(agents)[k];
      (a.Start? || a.Connect? || a.Join?) && a.i in agents
  {
    var init := agents[..|agents| - 1];
    ConnectBlockLength(init);
    if k < |ConnectBlock(init)| {
      ConnectBlockElem(init, k);
      assert ConnectBlock(agents)[k] == ConnectBlock(init)[k];
    }
  }

  /** Every action of a connect block names a connect agent, and each of those starts, connects and joins. */
  lemma ConnectBlockMembers(agents: seq<nat>, a: Action)
    ensures a in ConnectBlock(agents) ==> (a.Start? || a.Connect? || a.Join?) && a.i in agents
    ensures (a.Start? || a.Connect? || a.Join?) && a.i in agents ==> a in ConnectBlock(agents)
  {
    var b := ConnectBlock(agents);
    if a in b {
      var k :| 0 <= k < |b| && b[k] == a;
      ConnectBlockElem(agents, k);
    }
    if (a.Start? || a.Connect? || a.Join?) && a.i in agents {
      var j :| 0 <= j < |agents| && agents[j] == a.i;
      ConnectBlockAt(agents, j);
      if a.Start? { assert b[3 * j] == a; }
      else if a.Connect? { assert b[3 * j + 1] == a; }
      else { assert b[3 * j + 2] == a; }
    }
  }

  /** The last agent is the only one that runs, and running is the last call. */
  lemma WiringRunsLastOnly(n: nat, inmemory: bool)
    requires n >= 1
    ensures |WiringActions(n, inmemory)| >= 3
    ensures WiringActions(n, inmemory)[|WiringActions(n, inmemory)| - 1] == Run(n - 1)
    ensures forall k :: 0 <= k < |WiringActions(n, inmemory)| - 1 ==> !WiringActions(n, inmemory)[k].Run?
  {
    if n >= 2 {
      var c := ConnectAgents(n, inmemory);
      var pre: seq<Action> := if inmemory then [Start(0), Bind(0), Join(0)] else [];
      var body := pre + ConnectBlock(c);
      var acts := WiringActions(n, inmemory);
      assert acts == body + [Connect(n - 1), Join(n - 1), Run(n - 1)];
      forall k | 0 <= k < |body| ensures !body[k].Run? {
        if k >= |pre| {
          ConnectBlockElem(c, k - |pre|);
        }
      }
    }
  }

  /** With two or more agents exactly the first binds, and only with an in-memory endpoint. */
  lemma WiringBindsFirstIffInMemory(n: nat, inmemory: bool, i: nat)
    requires n >= 1
    ensures Bind(i) in WiringActions(n, inmemory) <==> n >= 2 && inmemory && i == 0
  {
    if n >= 2 {
      var c := ConnectAgents(n, inmemory);
      ConnectBlockMembers(c, Bind(i));
      var pre := if inmemory then [Start(0), Bind(0), Join(0)] else [];
      assert WiringActions(n, inmemory) == pre + ConnectBlock(c) + [Connect(n - 1), Join(n - 1), Run(n - 1)];
    }
  }

  /** Every agent joins the space; every agent connects except a binding first agent. */
  lemma WiringEveryAgentJoins(n: nat, inmemory: bool, i: nat)
    requires n >= 1 && i < n
    ensures Join(i) in WiringActions(n, inmemory)
    ensures Connect(i) in WiringActions(n, inmemory) <==> !(n >= 2 && inmemory && i == 0)
  {
    if n >= 2 {
      var c := ConnectAgents(n, inmemory);
      ConnectBlockMembers(c, Join(i));
      ConnectBlockMembers(c, Connect(i));
      var pre := if inmemory then [Start(0), Bind(0), Join(0)] else [];
      var acts := WiringActions(n, inmemory);
      assert acts == pre + ConnectBlock(c) + [Connect(n - 1), Join(n - 1), Run(n - 1)];
      if i < n - 1 && !(inmemory && i == 0) {
        assert c[if inmemory then i - 1 else i] == i;
      }
    }
  }

  /** Each connect agent starts, connects and joins in three consecutive calls. */
  lemma WiringConnectAgentOrder(n: nat, inmemory: bool, j: nat)
    requires n >= 2 && j < |ConnectAgents(n, inmemory)|
    ensures var acts := WiringActions(n, inmemory);
      var k := (if inmemory then 3 else 0) + 3 * j;
      var a := ConnectAgents(n, inmemory)[j];
      k + 2 < |acts| && acts[k] == Start(a) && acts[k + 1] == Connect(a) && acts[k + 2] == Join(a)
  {
    var c := ConnectAgents(n, inmemory);
    ConnectBlockAt(c, j);
    var pre := if inmemory then [Start(0), Bind(0), Join(0)] else [];
    var acts := WiringActions(n, inmemory);
    assert acts == pre + ConnectBlock(c) + [Connect(n - 1), Join(n - 1), Run(n - 1)];
    assert acts[|pre| + 3 * j] == ConnectBlock(c)[3 * j];
    assert acts[|pre| + 3 * j + 1] == ConnectBlock(c)[3 * j + 1];
    assert acts[|pre| + 3 * j + 2] == ConnectBlock(c)[3 * j + 2];
  }

  /**
   * The stopping handler stops exactly the connect agents: never the last
   * agent, and the first agent unless it is the in-memory binder.
   */
  lemma WiringStopsConnectAgents(n: nat, inmemory: bool, i: nat)
    requires n >= 1
    ensures i in WiringStops(n, inmemory) <==> n >= 2 && i < n - 1 && !(inmemory && i == 0)
  {
    if n >= 2 && i < n - 1 && !(inmemory && i == 0) {
      assert ConnectAgents(n, inmemory)[if inmemory then i - 1 else i] == i;
    }
  }

  // ---------------------------------------------------------------------
  // run_agents
  // ---------------------------------------------------------------------

  /**
   * Validates the endpoint and the space, stops when there are no agents,
   * rejects any argument that is not an Agent, then wires the agents: a
   * single agent connects, joins and runs; otherwise the first agent binds
   * for an in-memory endpoint, the connect agents start, connect and join,
   * and the last agent connects, joins and runs.
   */
  method RunAgents(agents: seq<AgentArg>, endpoint: PyValue, space: PyValue, shell: bool) returns (r: Result<Plan>)
    ensures ValidateEndpoint(endpoint).Err? ==> r == Err(ValueError)
    ensures ValidateEndpoint(endpoint).Ok? && ValidateSpace(space).Err? ==> r == Err(ValueError)
    ensures ValidateEndpoint(endpoint).Ok? && ValidateSpace(space).Ok? ==>
      var e := ValidateEndpoint(endpoint).value;
      var s := ValidateSpace(space).value;
      var n := |agents| + (if shell then 1 else 0);
      var inmemory := StartsWith(e, INMEMORY_SCHEME);
      r == if agents == [] then Ok(Plan(e, s, [], []))
           else if NotAnAgent in agents then Err(ValueError)
           else Ok(Plan(e, s, WiringActions(n, inmemory), WiringStops(n, inmemory)))
  {
    var ev := ValidateEndpoint(endpoint);
    if ev.Err? {
      return Err(ev.error);
    }
    var sv := ValidateSpace(space);
    if sv.Err? {
      return Err(sv.error);
    }
    var e, s := ev.value, sv.value;
    if |agents| == 0 {
      return Ok(Plan(e, s, [], []));
    }
    var allAgents := CheckAgents(agents);
    if !allAgents {
      return Err(ValueError);
    }
    var n := |agents| + (if shell then 1 else 0);
    var actions, stops := Wire(n, StartsWith(e, INMEMORY_SCHEME));
    return Ok(Plan(e, s, actions, stops));
  }

  /** The isinstance check over every positional argument. */
  method CheckAgents(agents: seq<AgentArg>) returns (ok: bool)
    ensures ok <==> NotAnAgent !in agents
  {
    var i := 0;
    while i < |agents|
      invariant 0 <= i <= |agents|
      invariant NotAnAgent !in agents[..i]
    {
      if agents[i].NotAnAgent? {
        return false;
      }
      i := i + 1;
    }
    assert agents[..i] == agents;
    return true;
  }

  /** The calls on n >= 1 validated agents, in order, and the stop list. */
  method Wire(n: nat, inmemory: bool) returns (actions: seq<Action>, stops: seq<nat>)
    requires n >= 1
    ensures actions == WiringActions(n, inmemory)
    ensures stops == WiringStops(n, inmemory)
  {
    if n == 1 {
      return [Connect(0), Join(0), Run(0)], [];
    }
    var first, last := 0, n - 1;
    var more := Range(1, n - 1);
    actions := [];
    var connectAgents: seq<nat>;
    if inmemory {
      actions := actions + [Start(first), Bind(first), Join(first)];
      connectAgents := more;
    } else {
      connectAgents := [first] + more;
    }
    assert connectAgents == ConnectAgents(n, inmemory);
    ghost var pre := actions;
    var j := 0;
    while j < |connectAgents|
      invariant 0 <= j <= |connectAgents|
      invariant actions == pre + ConnectBlock(connectAgents[..j])
    {
      var a := connectAgents[j];
      assert connectAgents[..j + 1][..j] == connectAgents[..j];
      actions := actions + [Start(a), Connect(a), Join(a)];
      j := j + 1;
    }
    assert connectAgents[..j] == connectAgents;
    actions := actions + [Connect(last), Join(last), Run(last)];
    stops := connectAgents;
  }

  /**
   * The '*** stopping' handler: calls stop() on every connect agent in order;
   * an agent whose stop() raises (those in `raises`) is reported and the loop
   * goes on.
   */
  method ExitOtherAgents(connectAgents: seq<nat>, raises: set<nat>) returns (stopped: seq<nat>, failed: seq<nat>)
    ensures stopped == connectAgents
    ensures forall a :: a in failed <==> a in connectAgents && a in raises
    ensures |failed| <= |stopped|
  {
    stopped, failed := [], [];
    var k := 0;
    while k < |connectAgents|
      invariant 0 <= k <= |connectAgents|
      invariant stopped == connectAgents[..k]
      invariant forall a :: a in failed <==> a in connectAgents[..k] && a in raises
      invariant |failed| <= k
    {
      var a := connectAgents[k];
      stopped := stopped + [a];
      if a in raises {
        failed := failed + [a];
      }
      assert connectAgents[..k + 1] == connectAgents[..k] + [a];
      k := k + 1;
    }
    assert connectAgents[..k] == connectAgents;
  }
}
