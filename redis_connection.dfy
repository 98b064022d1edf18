/**
 * The Redis pub/sub transport. The network calls (create_redis, auth,
 * subscribe, publish_json, wait_message, get_json) are replaced by handles
 * the caller passes in and by logs of what was published, closed, cancelled
 * and forwarded; the incoming stream of a subscription is a given sequence.
 */
module Redis {
  import opened Base
  import opened Frames
  import opened Utils
  import opened Connections
  import opened AgentRuntime

  /** A Redis client or subscription channel handed out by the network layer. */
  type Handle = nat

  /** A message as get_json decodes it; the empty mapping is falsy. */
  type WireMessage = map<string, string>

  const REDIS_SCHEME: string := "redis://"
  /** How many 0.1 s polls _reconnect waits for the connection at most. */
  const RECONNECT_POLLS: nat := 100

  function OptSeq<T>(o: Option<T>): seq<T> {
    if o.Some? then [o.value] else []
  }

  // ---------------------------------------------------------------------
  // Endpoint parsing: endpoint.replace('redis://', '').split(':')
  // ---------------------------------------------------------------------

  /** Python's str.replace: every non-overlapping occurrence, scanning left to right. */
  function ReplaceAll(s: string, pat: string, rep: string): string
    requires |pat| > 0
    decreases |s|
  {
    if |s| < |pat| then s
    else if s[..|pat|] == pat then rep + ReplaceAll(s[|pat|..], pat, rep)
    else [s[0]] + ReplaceAll(s[1..], pat, rep)
  }

  /** `pat` occurs in `s` at position i. */
  predicate OccursAt(s: string, pat: string, i: nat) {
    i + |pat| <= |s| && s[i..i + |pat|] == pat
  }

  /** `pat` occurs somewhere in `s`. */
  ghost predicate Occurs(s: string, pat: string) {
    exists i: nat :: OccursAt(s, pat, i)
  }

  /** A pattern absent from a text is absent from its tail. */
  lemma AbsentFromTail(s: string, pat: string)
    requires |s| > 0 && !Occurs(s, pat)
    ensures !Occurs(s[1..], pat)
  {
    forall i: nat
      ensures !OccursAt(s[1..], pat, i)
    {
      assert !OccursAt(s, pat, i + 1);
      if i + |pat| <= |s| - 1 {
        var window := s[1..][i..i + |pat|];
        assert forall k :: 0 <= k < |pat| ==> window[k] == s[i + 1 + k];
        assert window == s[i + 1..i + 1 + |pat|];
      }
    }
  }

  /** Text in which the pattern does not occur is left as it is. */
  lemma {:induction false} ReplaceAllAbsent(s: string, pat: string, rep: string)
    requires |pat| > 0 && !Occurs(s, pat)
    ensures ReplaceAll(s, pat, rep) == s
    decreases |s|
  {
    if |s| >= |pat| {
      assert !OccursAt(s, pat, 0);
      AbsentFromTail(s, pat);
      ReplaceAllAbsent(s[1..], pat, rep);
      assert s == [s[0]] + s[1..];
    }
  }

  /** Python's str.split(sep) for a one-character separator. */
  function Split(s: string, sep: char): (parts: seq<string>)
    ensures |parts| >= 1
  {
    if s == [] then [""]
    else
      var rest := Split(s[1..], sep);
      if s[0] == sep then [""] + rest
      else [[s[0]] + rest[0]] + rest[1..]
  }

  /** sep.join(parts) */
  function JoinWith(parts: seq<string>, sep: char): string
    requires |parts| >= 1
  {
    if |parts| == 1 then parts[0] else parts[0] + [sep] + JoinWith(parts[1..], sep)
  }

  /** Splitting and joining again gives the string back. */
  lemma {:induction false} SplitJoin(s: string, sep: char)
    ensures JoinWith(Split(s, sep), sep) == s
  {
    if s != [] {
      var rest := Split(s[1..], sep);
      SplitJoin(s[1..], sep);
      assert s == [s[0]] + s[1..];
      if s[0] == sep {
        var parts := [""] + rest;
        assert Split(s, sep) == parts;
        assert parts[1..] == rest;
      } else {
        assert Split(s, sep) == [[s[0]] + rest[0]] + rest[1..];
        JoinConsFirst(s[0], rest, sep);
      }
    }
  }

  /** Putting a character in front of the first part puts it in front of the joined text. */
  lemma JoinConsFirst(c: char, parts: seq<string>, sep: char)
    requires |parts| >= 1
    ensures JoinWith([[c] + parts[0]] + parts[1..], sep) == [c] + JoinWith(parts, sep)
  {
    var longer := [[c] + parts[0]] + parts[1..];
    if |parts| > 1 {
      assert longer[1..] == parts[1..];
    }
  }

  /** A text without the separator is one part. */
  lemma {:induction false} SplitNone(s: string, sep: char)
    requires sep !in s
    ensures Split(s, sep) == [s]
    decreases |s|
  {
    if s != [] {
      SplitNone(s[1..], sep);
      assert s == [s[0]] + s[1..];
    }
  }

  /** The first separator ends the first part. */
  lemma {:induction false} SplitAt(a: string, b: string, sep: char)
    requires sep !in a
    ensures Split(a + [sep] + b, sep) == [a] + Split(b, sep)
    decreases |a|
  {
    if a == [] {
      assert a + [sep] + b == [sep] + b;
      assert ([sep] + b)[1..] == b;
    } else {
      SplitAt(a[1..], b, sep);
      assert (a + [sep] + b)[1..] == a[1..] + [sep] + b;
      assert a == [a[0]] + a[1..];
    }
  }

  /** There is one more part than there are separators. */
  lemma {:induction false} SplitCount(s: string, sep: char)
    ensures |Split(s, sep)| == multiset(s)[sep] + 1
  {
    if s != [] {
      SplitCount(s[1..], sep);
      assert s == [s[0]] + s[1..];
    }
  }

  /** No part holds the separator. */
  lemma {:induction false} SplitNoSep(s: string, sep: char)
    ensures forall i :: 0 <= i < |Split(s, sep)| ==> sep !in Split(s, sep)[i]
  {
    if s != [] {
      SplitNoSep(s[1..], sep);
    }
  }

  /**
   * Host and port of a redis endpoint: the text left after removing every
   * 'redis://' must split on ':' into exactly two parts, else unpacking
   * raises ValueError.
   */
  function HostPort(endpoint: string): (r: Result<(string, string)>)
    ensures r.Err? ==> r.error == ValueError
  {
    var parts := Split(ReplaceAll(endpoint, REDIS_SCHEME, ""), ':');
    if |parts| == 2 then Ok((parts[0], parts[1])) else Err(ValueError)
  }

  /**
   * The endpoint splits exactly when, with the scheme removed, it holds one
   * ':', and then host ':' port is what is left.
   */
  lemma HostPortCorrect(endpoint: string)
    ensures var rest := ReplaceAll(endpoint, REDIS_SCHEME, ""); var r := HostPort(endpoint);
      (r.Ok? <==> multiset(rest)[':'] == 1)
      && (r.Ok? ==> r.value.0 + ":" + r.value.1 == rest && ':' !in r.value.0 && ':' !in r.value.1)
  {
    var rest := ReplaceAll(endpoint, REDIS_SCHEME, "");
    var parts := Split(rest, ':');
    SplitCount(rest, ':');
    SplitNoSep(rest, ':');
    if |parts| == 2 {
      SplitJoin(rest, ':');
      assert JoinWith(parts, ':') == parts[0] + [':'] + JoinWith(parts[1..], ':');
    }
  }

  // ---------------------------------------------------------------------
  // The listener
  // ---------------------------------------------------------------------

  /**
   * What the listener hands to the agent: the decoded messages in arrival
   * order, up to the first empty one, and nothing when not connected.
   */
  function ForwardedFrames(incoming: seq<WireMessage>, connected: bool, decode: WireMessage -> Frame): (r: seq<Frame>)
    ensures |r| <= |incoming|
    ensures forall i :: 0 <= i < |r| ==> |incoming[i]| > 0 && r[i] == decode(incoming[i])
    ensures connected && |r| < |incoming| ==> |incoming[|r|]| == 0
    ensures !connected ==> r == []
  {
    if !connected || incoming == [] || |incoming[0]| == 0 then []
    else [decode(incoming[0])] + ForwardedFrames(incoming[1..], connected, decode)
  }

  class RedisConnection {
    /** The inherited Connection state. */
    const base: Connection
    /** The owning agent, whose spawn runs the listener. */
    const agent: Agent
    var subscriber: Option<Handle>
    var publisher: Option<Handle>
    /** The current subscription channel. */
    var connection: Option<Handle>
    var spaces: set<string>
    var listenerTask: Option<TaskId>
    var auth: Option<string>
    /**
     * The space names passed to each subscribe call, in order. This logs the
     * calls, not what the client is subscribed to: nothing ever unsubscribes,
     * so the client's own subscriptions only accumulate.
     */
    ghost var subscriptions: seq<set<string>>
    /**
     * The space of the current channel: subscribe returns one channel per
     * name and only the first is kept, so the listener hears that space only.
     */
    ghost var listenedSpace: Option<string>
    /** The (host, port) pairs clients were created for. */
    ghost var dialed: seq<(string, string)>
    /** Handles close() was called on, in order. */
    ghost var closedHandles: seq<Handle>
    /** Tasks cancel() was called on, in order. */
    ghost var cancelledTasks: seq<TaskId>
    /** (space, frame) pairs passed to publish_json, in order. */
    ghost var published: seq<(string, Frame)>
    /** Frames passed to the agent's handle_frame, in order. */
    ghost var forwarded: seq<Frame>

    constructor(agent: Agent)
      ensures this.agent == agent && fresh(base)
      ensures !base.connected && base.endpoint == None
      ensures subscriber == None && publisher == None && connection == None && listenerTask == None
      ensures spaces == {} && auth == None
      ensures subscriptions == [] && listenedSpace == None && dialed == [] && closedHandles == [] && cancelledTasks == []
      ensures published == [] && forwarded == []
    {
      this.agent := agent;
      base := new Connection();
      subscriber, publisher, connection, listenerTask := None, None, None, None;
      spaces, auth := {}, None;
      subscriptions, listenedSpace := [], None;
      dialed, closedHandles, cancelledTasks := [], [], [];
      published, forwarded := [], [];
    }

    /**
     * connect: validates the endpoint and the auth and stores the auth
     * before any further check, so a refused connect still replaces it; the
     * checks and their order are those of ConnectTarget. Once they pass, the
     * two clients (`sub`, `pub`) are created for the host and port and kept,
     * and then both are sent the auth. `authReply` is what those two auth
     * calls come to, which the client library and the server decide: when
     * it is an error, connect raises it with both clients kept and the
     * connection still not connected; otherwise the connection is marked
     * connected. The endpoint is never recorded.
     */
    method Connect(endpoint: PyValue, authArg: PyValue, sub: Handle, pub: Handle, authReply: Outcome)
      returns (r: Outcome)
      modifies this`auth, this`subscriber, this`publisher, this`dialed, base`connected
      ensures var t := ConnectTarget(endpoint, authArg, old(base.connected));
        (t.Err? ==> r == Fail(t.error)) && (t.Ok? ==> r == authReply)
      ensures StoredAuth(endpoint, authArg).Some? ==> auth == StoredAuth(endpoint, authArg).value
      ensures StoredAuth(endpoint, authArg).None? ==> unchanged(this`auth)
      ensures ConnectTarget(endpoint, authArg, old(base.connected)).Err? ==>
        unchanged(this`subscriber, this`publisher, this`dialed)
      ensures ConnectTarget(endpoint, authArg, old(base.connected)).Ok? ==>
        var t := ConnectTarget(endpoint, authArg, old(base.connected));
        subscriber == Some(sub) && publisher == Some(pub) && dialed == old(dialed) + [t.value, t.value]
      ensures base.connected <==> old(base.connected) || r.Pass?
      ensures base.endpoint == old(base.endpoint)
    {
      var stored := StoredAuth(endpoint, authArg);
      if stored.Some? {
        auth := stored.value;
      }
      var t := ConnectTarget(endpoint, authArg, base.connected);
      if t.Err? {
        return Fail(t.error);
      }
      subscriber := Some(sub);
      publisher := Some(pub);
      dialed := dialed + [t.value, t.value];
      if authReply.Fail? {
        return authReply;
      }
      base.connected := true;
      return Pass;
    }

    /**
     * bind as written: it calls the coroutine function connect without
     * awaiting it, so the coroutine never runs and nothing changes.
     */
    method BindAsWritten(endpoint: PyValue)
      ensures unchanged(this, base)
    {
    }

    /** bind as evidently intended: the same as connect without auth. */
    method Bind(endpoint: PyValue, sub: Handle, pub: Handle, authReply: Outcome) returns (r: Outcome)
      modifies this`auth, this`subscriber, this`publisher, this`dialed, base`connected
      ensures var t := ConnectTarget(endpoint, PyNone, old(base.connected));
        (t.Err? ==> r == Fail(t.error)) && (t.Ok? ==> r == authReply)
      ensures ConnectTarget(endpoint, PyNone, old(base.connected)).Ok? ==>
        var t := ConnectTarget(endpoint, PyNone, old(base.connected));
        subscriber == Some(sub) && publisher == Some(pub) && auth == None
        && dialed == old(dialed) + [t.value, t.value]
      ensures ConnectTarget(endpoint, PyNone, old(base.connected)).Err? ==>
        unchanged(this`subscriber, this`publisher, this`dialed)
      ensures base.connected <==> old(base.connected) || r.Pass?
    {
      r := Connect(endpoint, PyNone, sub, pub, authReply);
    }

    /**
     * The channel, the listener, the subscribe log, the closed and cancelled
     * logs and the agent's task queue are all as they were.
     */
    twostate predicate ChannelKept()
      reads this, agent
    {
      connection == old(connection) && listenerTask == old(listenerTask)
      && subscriptions == old(subscriptions) && listenedSpace == old(listenedSpace)
      && closedHandles == old(closedHandles) && cancelledTasks == old(cancelledTasks)
      && agent.tasks == old(agent.tasks) && agent.spawnOnStart == old(agent.spawnOnStart)
    }

    /**
     * After a subscribe that returned: the last subscribe call names the
     * current space set; `channel` is installed and listens to one of those
     * spaces; the previous channel was closed and the previous listener
     * cancelled, each if there was one; and exactly one listener over
     * `channel` was spawned, as a new task when the agent has a loop and as a
     * queued coroutine otherwise.
     */
    twostate predicate Resubscribed(channel: Handle)
      reads this, agent
    {
      connection == Some(channel)
      && subscriptions == old(subscriptions) + [spaces]
      && listenedSpace.Some? && listenedSpace.value in spaces
      && closedHandles == old(closedHandles) + OptSeq(old(connection))
      && cancelledTasks == old(cancelledTasks) + OptSeq(old(listenerTask))
      && (agent.loop.Some? ==>
            listenerTask == Some(|old(agent.tasks)|)
            && agent.tasks == old(agent.tasks) + [ConnectionListener(channel)]
            && agent.spawnOnStart == old(agent.spawnOnStart))
      && (agent.loop.None? ==>
            listenerTask == None && agent.tasks == old(agent.tasks) && old(agent.spawnOnStart).Some?
            && agent.spawnOnStart == Some(old(agent.spawnOnStart).value + {ConnectionListener(channel)}))
    }

    /**
     * _reconnect: waits up to RECONNECT_POLLS polls for the connection, then
     * calls subscribe with every joined space. Without a subscriber client the
     * lookup of subscribe raises AttributeError; with no space at all the call
     * lacks its one required channel name and raises TypeError; either way
     * nothing else happens. Otherwise subscribe returns one channel per space,
     * in the set's iteration order, and only the first (`channel`) is kept:
     * the previous channel is closed and the previous listener cancelled, if
     * there are any, and one listener is spawned over the kept channel.
     */
    method Reconnect(channel: Handle) returns (r: Outcome, polls: nat)
      requires agent.Valid()
      modifies this`connection, this`listenerTask, this`subscriptions, this`listenedSpace,
               this`closedHandles, this`cancelledTasks, agent`spawnOnStart, agent`tasks
      ensures agent.Valid()
      ensures polls == if base.connected then 0 else RECONNECT_POLLS
      ensures r.Fail? <==> subscriber.None? || spaces == {}
      ensures r.Fail? ==> r.error == (if subscriber.None? then AttributeError else TypeError) && ChannelKept()
      ensures r.Pass? ==> Resubscribed(channel)
    {
      var timeout := RECONNECT_POLLS;
      polls := 0;
      while !base.connected && timeout > 0
        invariant polls + timeout == RECONNECT_POLLS
        invariant base.connected ==> polls == 0
      {
        timeout := timeout - 1;
        polls := polls + 1;
      }
      if subscriber.None? {
        return Fail(AttributeError), polls;
      }
      if spaces == {} {
        return Fail(TypeError), polls;
      }
      subscriptions := subscriptions + [spaces];
      ghost var first :| first in spaces;
      if connection.Some? {
        closedHandles := closedHandles + [connection.value];
      }
      if listenerTask.Some? {
        cancelledTasks := cancelledTasks + [listenerTask.value];
      }
      connection := Some(channel);
      listenedSpace := Some(first);
      listenerTask := agent.Spawn(ConnectionListener(channel));
      return Pass, polls;
    }

    /**
     * _connection_listener over the messages the kept channel delivers, in
     * order (so frames of the listened space only):
     * each is decoded (`decode` is Frame.from_dict) and handed to the agent,
     * until an empty message or a disconnected connection ends the loop.
     */
    method Listen(incoming: seq<WireMessage>, decode: WireMessage -> Frame)
      modifies this`forwarded
      ensures forwarded == old(forwarded) + ForwardedFrames(incoming, base.connected, decode)
    {
      ghost var all := ForwardedFrames(incoming, base.connected, decode);
      var k := 0;
      while k < |incoming|
        invariant 0 <= k <= |incoming| && k <= |all|
        invariant forwarded == old(forwarded) + all[..k]
      {
        var message := incoming[k];
        ForwardedDrop(incoming, k, base.connected, decode);
        if |message| == 0 || !base.connected {
          break;
        }
        forwarded := forwarded + [decode(message)];
        k := k + 1;
      }
      assert all[..k] == all;
    }

    /** join: a valid name joins the space set, then the channel is resubscribed. */
    method Join(space: string, maxLength: nat, channel: Handle) returns (r: Outcome)
      requires agent.Valid()
      modifies this`spaces, this`connection, this`listenerTask, this`subscriptions, this`listenedSpace, this`closedHandles,
               this`cancelledTasks, agent`spawnOnStart, agent`tasks
      ensures agent.Valid()
      ensures ValidateName(PyStr(space), maxLength).Err? ==>
        r == Fail(ValueError) && spaces == old(spaces) && ChannelKept()
      ensures ValidateName(PyStr(space), maxLength).Ok? ==>
        spaces == old(spaces) + {space}
        && (r.Fail? <==> subscriber.None?)
        && (r.Fail? ==> r.error == AttributeError && ChannelKept())
        && (r.Pass? ==> Resubscribed(channel))
    {
      var v := ValidateName(PyStr(space), maxLength);
      if v.Err? {
        return Fail(v.error);
      }
      r := AddSpace(space, channel);
    }

    /** The part of join after validation: add the space and reconnect. */
    method AddSpace(space: string, channel: Handle) returns (r: Outcome)
      requires agent.Valid()
      modifies this`spaces, this`connection, this`listenerTask, this`subscriptions, this`listenedSpace, this`closedHandles,
               this`cancelledTasks, agent`spawnOnStart, agent`tasks
      ensures agent.Valid()
      ensures spaces == old(spaces) + {space}
      ensures r.Fail? <==> subscriber.None?
      ensures r.Fail? ==> r.error == AttributeError && ChannelKept()
      ensures r.Pass? ==> Resubscribed(channel)
    {
      spaces := spaces + {space};
      var polls;
      r, polls := Reconnect(channel);
    }

    /** leave: a valid name that is joined leaves the space set (KeyError if absent), then the channel is resubscribed. */
    method Leave(space: string, maxLength: nat, channel: Handle) returns (r: Outcome)
      requires agent.Valid()
      modifies this`spaces, this`connection, this`listenerTask, this`subscriptions, this`listenedSpace, this`closedHandles,
               this`cancelledTasks, agent`spawnOnStart, agent`tasks
      ensures agent.Valid()
      ensures ValidateName(PyStr(space), maxLength).Err? ==>
        r == Fail(ValueError) && spaces == old(spaces) && ChannelKept()
      ensures ValidateName(PyStr(space), maxLength).Ok? && space !in old(spaces) ==>
        r == Fail(KeyError) && spaces == old(spaces) && ChannelKept()
      ensures ValidateName(PyStr(space), maxLength).Ok? && space in old(spaces) ==>
        spaces == old(spaces) - {space}
        && (r.Fail? <==> subscriber.None? || spaces == {})
        && (r.Fail? ==> r.error == (if subscriber.None? then AttributeError else TypeError) && ChannelKept())
        && (r.Pass? ==> Resubscribed(channel))
    {
      var v := ValidateName(PyStr(space), maxLength);
      if v.Err? {
        return Fail(v.error);
      }
      if space !in spaces {
        return Fail(KeyError);
      }
      r := RemoveSpace(space, channel);
    }

    /** The part of leave after its checks: remove the space and reconnect. */
    method RemoveSpace(space: string, channel: Handle) returns (r: Outcome)
      requires agent.Valid()
      modifies this`spaces, this`connection, this`listenerTask, this`subscriptions, this`listenedSpace, this`closedHandles,
               this`cancelledTasks, agent`spawnOnStart, agent`tasks
      ensures agent.Valid()
      ensures spaces == old(spaces) - {space}
      ensures r.Fail? <==> subscriber.None? || spaces == {}
      ensures r.Fail? ==> r.error == (if subscriber.None? then AttributeError else TypeError) && ChannelKept()
      ensures r.Pass? ==> Resubscribed(channel)
    {
      spaces := spaces - {space};
      var polls;
      r, polls := Reconnect(channel);
    }

    /** spaces(): the joined spaces as a list, each once. */
    method Spaces() returns (r: seq<string>)
      ensures |r| == |spaces|
      ensures forall s :: s in r <==> s in spaces
      ensures forall i, j :: 0 <= i < j < |r| ==> r[i] != r[j]
    {
      r := [];
      var pending := spaces;
      while pending != {}
        invariant pending <= spaces
        invariant forall s :: s in r <==> s in spaces - pending
        invariant |r| == |spaces - pending|
        invariant forall i, j :: 0 <= i < j < |r| ==> r[i] != r[j]
        decreases pending
      {
        var s :| s in pending;
        assert spaces - (pending - {s}) == (spaces - pending) + {s};
        r := r + [s];
        pending := pending - {s};
      }
    }

    /**
     * broadcast: nothing without a publisher; otherwise one publish to the
     * frame's space when it has one, else one publish to each joined space,
     * each space once.
     */
    method Broadcast(frame: Frame)
      modifies this`published
      ensures publisher.None? ==> published == old(published)
      ensures publisher.Some? && Truthy(frame.space) ==> published == old(published) + [(frame.space.value, frame)]
      ensures publisher.Some? && !Truthy(frame.space) ==>
        |old(published)| <= |published| && published[..|old(published)|] == old(published)
        && EachSpaceOnce(published[|old(published)|..], frame, spaces)
    {
      if publisher.None? {
        return;
      }
      if Truthy(frame.space) {
        published := published + [(frame.space.value, frame)];
        return;
      }
      ghost var start := |published|;
      var pending := spaces;
      while pending != {}
        invariant pending <= spaces
        invariant start <= |published| && published[..start] == old(published)
        invariant EachSpaceOnce(published[start..], frame, spaces - pending)
        decreases pending
      {
        var s :| s in pending;
        ghost var tail := published[start..];
        published := published + [(s, frame)];
        assert published[start..] == tail + [(s, frame)];
        EachSpaceOnceAdd(tail, frame, spaces - pending, s);
        assert spaces - (pending - {s}) == (spaces - pending) + {s};
        pending := pending - {s};
      }
    }

    /**
     * close: cancels the listener and closes the channel and both clients,
     * each only if present; the connected flag and the spaces stay as they are.
     */
    method Close()
      modifies this`closedHandles, this`cancelledTasks
      ensures cancelledTasks == old(cancelledTasks) + OptSeq(listenerTask)
      ensures closedHandles == old(closedHandles) + OptSeq(connection) + OptSeq(subscriber) + OptSeq(publisher)
    {
      if listenerTask.Some? {
        cancelledTasks := cancelledTasks + [listenerTask.value];
      }
      if connection.Some? {
        closedHandles := closedHandles + [connection.value];
      }
      if subscriber.Some? {
        closedHandles := closedHandles + [subscriber.value];
      }
      if publisher.Some? {
        closedHandles := closedHandles + [publisher.value];
      }
    }

    /** The `endpoint` property: connect never records the endpoint. */
    function Endpoint(): (r: Option<string>)
      reads this, base
      ensures r == base.endpoint
    {
      base.Endpoint()
    }
  }

  /** Dropping the first k messages, all of them forwarded, drops the first k forwarded frames. */
  lemma {:induction false} ForwardedDrop(incoming: seq<WireMessage>, k: nat, connected: bool, decode: WireMessage -> Frame)
    requires k <= |ForwardedFrames(incoming, connected, decode)|
    ensures ForwardedFrames(incoming[k..], connected, decode) == ForwardedFrames(incoming, connected, decode)[k..]
    decreases k
  {
    if k > 0 {
      ForwardedDrop(incoming[1..], k - 1, connected, decode);
      assert incoming[1..][k - 1..] == incoming[k..];
    }
  }

  /**
   * The checks of connect, in the order it makes them, on an endpoint, an
   * auth argument and the current connected flag: the host and port the
   * clients are created for, or the exception raised.
   */
  function ConnectTarget(endpoint: PyValue, auth: PyValue, connected: bool): Result<(string, string)> {
    if ValidateEndpoint(endpoint).Err? then Err(ValueError)
    else if ValidateAuth(auth).Err? then Err(AssertionError)
    else if connected then Err(ConnectionError)
    else if !StartsWith(ValidateEndpoint(endpoint).value, REDIS_SCHEME) then Err(ValueError)
    else HostPort(ValidateEndpoint(endpoint).value)
  }

  /**
   * What connect stores as its auth before its remaining checks: the
   * validated auth once both the endpoint and the auth validate, nothing
   * (None) when either validation raises first.
   */
  function StoredAuth(endpoint: PyValue, auth: PyValue): Option<Option<string>> {
    if ValidateEndpoint(endpoint).Ok? && ValidateAuth(auth).Ok? then Some(ValidateAuth(auth).value) else None
  }

  /** The auth is stored, as given, exactly when the endpoint is a string and the auth is None or a string. */
  lemma StoredAuthIff(endpoint: PyValue, auth: PyValue)
    ensures StoredAuth(endpoint, auth).Some? <==> endpoint.PyStr? && !auth.PyOther?
    ensures auth.PyStr? && endpoint.PyStr? ==> StoredAuth(endpoint, auth) == Some(Some(auth.s))
    ensures auth.PyNone? && endpoint.PyStr? ==> StoredAuth(endpoint, auth) == Some(None)
  {
  }

  /** A refused connect still stores the auth when the refusal comes after validation. */
  lemma RefusedConnectStoresAuth(endpoint: PyValue, auth: PyValue, connected: bool)
    requires ConnectTarget(endpoint, auth, connected).Err? && ConnectTarget(endpoint, auth, connected).error == ConnectionError
    ensures StoredAuth(endpoint, auth).Some?
  {
  }

  /**
   * connect succeeds exactly for a first connect with a string endpoint
   * whose normalised form starts with 'redis://' and, with that scheme
   * removed, holds exactly one ':'; the clients are then created for the
   * text on either side of it.
   */
  lemma ConnectSucceedsIff(endpoint: PyValue, auth: PyValue, connected: bool)
    ensures ConnectTarget(endpoint, auth, connected).Ok? <==>
      !connected && endpoint.PyStr? && !auth.PyOther?
      && StartsWith(ValidateEndpoint(endpoint).value, REDIS_SCHEME)
      && multiset(ReplaceAll(ValidateEndpoint(endpoint).value, REDIS_SCHEME, ""))[':'] == 1
    ensures ConnectTarget(endpoint, auth, connected).Ok? ==>
      var hp := ConnectTarget(endpoint, auth, connected).value;
      hp.0 + ":" + hp.1 == ReplaceAll(ValidateEndpoint(endpoint).value, REDIS_SCHEME, "")
  {
    if endpoint.PyStr? {
      HostPortCorrect(ValidateEndpoint(endpoint).value);
    }
  }

  /** An already connected connection refuses every further connect with a valid endpoint and auth. */
  lemma SecondConnectRefused(endpoint: PyValue, auth: PyValue)
    requires endpoint.PyStr? && !auth.PyOther?
    ensures ConnectTarget(endpoint, auth, true) == Err(ConnectionError)
  {
  }

  /** Every refusal of connect is a ValueError, an AssertionError or a ConnectionError. */
  lemma ConnectErrors(endpoint: PyValue, auth: PyValue, connected: bool)
    ensures var t := ConnectTarget(endpoint, auth, connected);
      t.Err? ==> t.error in {ValueError, AssertionError, ConnectionError}
  {
  }

  /**
   * An endpoint built as 'redis://' host ':' port, with no ':' in host or
   * port and no further 'redis://' after the scheme, gives back that host
   * and port.
   */
  lemma HostPortRoundTrip(host: string, port: string)
    requires ':' !in host && ':' !in port && !Occurs(host + ":" + port, REDIS_SCHEME)
    ensures HostPort(REDIS_SCHEME + host + ":" + port) == Ok((host, port))
  {
    var t := host + ":" + port;
    var e := REDIS_SCHEME + t;
    assert e == REDIS_SCHEME + host + ":" + port;
    assert e[..|REDIS_SCHEME|] == REDIS_SCHEME && e[|REDIS_SCHEME|..] == t;
    ReplaceAllAbsent(t, REDIS_SCHEME, "");
    assert ReplaceAll(e, REDIS_SCHEME, "") == t;
    assert t == host + [':'] + port;
    SplitAt(host, port, ':');
    SplitNone(port, ':');
  }

  /** `tail` published `frame` once to each space of `targets` and to nothing else. */
  ghost predicate EachSpaceOnce(tail: seq<(string, Frame)>, frame: Frame, targets: set<string>) {
    && |tail| == |targets|
    && (forall i :: 0 <= i < |tail| ==> tail[i].1 == frame && tail[i].0 in targets)
    && (forall i, j :: 0 <= i < j < |tail| ==> tail[i].0 != tail[j].0)
  }

  lemma EachSpaceOnceAdd(tail: seq<(string, Frame)>, frame: Frame, targets: set<string>, s: string)
    requires EachSpaceOnce(tail, frame, targets) && s !in targets
    ensures EachSpaceOnce(tail + [(s, frame)], frame, targets + {s})
  {
  }

  /** One publish per space: every joined space is among the targets of such a run. */
  lemma {:induction false} EachSpaceOnceCovers(tail: seq<(string, Frame)>, frame: Frame, targets: set<string>)
    requires EachSpaceOnce(tail, frame, targets)
    ensures forall s :: s in targets ==> exists i :: 0 <= i < |tail| && tail[i].0 == s
    decreases |tail|
  {
    if tail != [] {
      var last := tail[|tail| - 1].0;
      var front := tail[..|tail| - 1];
      assert forall i :: 0 <= i < |front| ==> front[i] == tail[i];
      assert forall i :: 0 <= i < |front| ==> front[i].0 != last;
      assert |targets - {last}| == |targets| - 1;
      assert EachSpaceOnce(front, frame, targets - {last});
      EachSpaceOnceCovers(front, frame, targets - {last});
      forall s | s in targets
        ensures exists i :: 0 <= i < |tail| && tail[i].0 == s
      {
        if s == last {
          assert tail[|tail| - 1].0 == s;
        } else {
          assert s in targets - {last};
          var i :| 0 <= i < |front| && front[i].0 == s;
          assert tail[i].0 == s;
        }
      }
    }
  }

  /**
   * join followed by leave of a space not yet joined: the space set is as it
   * was. When other spaces remain, leave's subscribe call names exactly them;
   * the channel join installed is closed and its listener cancelled, and a
   * second listener runs over `second`. When the space was the only one,
   * leave's subscribe raises TypeError, and the channel join installed stays
   * current with its listener uncancelled, listening to the space that was
   * left.
   */
  method JoinThenLeave(c: RedisConnection, space: string, maxLength: nat, first: Handle, second: Handle)
    returns (joined: Outcome, left: Outcome)
    requires c.agent.Valid() && c.subscriber.Some?
    requires ValidateName(PyStr(space), maxLength).Ok? && space !in c.spaces
    modifies c`spaces, c`connection, c`listenerTask, c`subscriptions, c`listenedSpace, c`closedHandles,
             c`cancelledTasks, c.agent`spawnOnStart, c.agent`tasks
    ensures joined == Pass && c.spaces == old(c.spaces)
    ensures old(c.spaces) == {} ==>
      left == Fail(TypeError) && c.connection == Some(first) && c.listenedSpace == Some(space)
      && c.subscriptions == old(c.subscriptions) + [{space}]
      && c.closedHandles == old(c.closedHandles) + OptSeq(old(c.connection))
      && c.cancelledTasks == old(c.cancelledTasks) + OptSeq(old(c.listenerTask))
    ensures old(c.spaces) == {} && c.agent.loop.Some? ==>
      c.listenerTask == Some(|old(c.agent.tasks)|)
      && c.agent.tasks == old(c.agent.tasks) + [ConnectionListener(first)]
    ensures old(c.spaces) == {} && c.agent.loop.None? ==>
      c.listenerTask == None
      && c.agent.spawnOnStart == Some(old(c.agent.spawnOnStart).value + {ConnectionListener(first)})
    ensures old(c.spaces) != {} ==>
      left == Pass && c.connection == Some(second)
      && c.subscriptions == old(c.subscriptions) + [old(c.spaces) + {space}, old(c.spaces)]
      && c.listenedSpace.Some? && c.listenedSpace.value in old(c.spaces)
      && c.closedHandles == old(c.closedHandles) + OptSeq(old(c.connection)) + [first]
    ensures old(c.spaces) != {} && c.agent.loop.Some? ==>
      c.cancelledTasks == old(c.cancelledTasks) + OptSeq(old(c.listenerTask)) + [|old(c.agent.tasks)|]
      && c.listenerTask == Some(|old(c.agent.tasks)| + 1)
      && c.agent.tasks == old(c.agent.tasks) + [ConnectionListener(first), ConnectionListener(second)]
    ensures old(c.spaces) != {} && c.agent.loop.None? ==>
      c.cancelledTasks == old(c.cancelledTasks) + OptSeq(old(c.listenerTask)) && c.listenerTask == None
      && c.agent.spawnOnStart
         == Some(old(c.agent.spawnOnStart).value + {ConnectionListener(first), ConnectionListener(second)})
  {
    if c.spaces == {} {
      joined, left := JoinThenLeaveOnly(c, space, maxLength, first, second);
    } else {
      joined, left := JoinThenLeaveAmongOthers(c, space, maxLength, first, second);
    }
  }

  /** JoinThenLeave when no space was joined before: leave's subscribe raises TypeError. */
  method JoinThenLeaveOnly(c: RedisConnection, space: string, maxLength: nat, first: Handle, second: Handle)
    returns (joined: Outcome, left: Outcome)
    requires c.agent.Valid() && c.subscriber.Some? && c.spaces == {}
    requires ValidateName(PyStr(space), maxLength).Ok?
    modifies c`spaces, c`connection, c`listenerTask, c`subscriptions, c`listenedSpace, c`closedHandles,
             c`cancelledTasks, c.agent`spawnOnStart, c.agent`tasks
    ensures joined == Pass && c.spaces == {}
    ensures left == Fail(TypeError) && c.connection == Some(first) && c.listenedSpace == Some(space)
    ensures c.subscriptions == old(c.subscriptions) + [{space}]
    ensures c.closedHandles == old(c.closedHandles) + OptSeq(old(c.connection))
    ensures c.cancelledTasks == old(c.cancelledTasks) + OptSeq(old(c.listenerTask))
    ensures c.agent.loop.Some? ==>
      c.listenerTask == Some(|old(c.agent.tasks)|)
      && c.agent.tasks == old(c.agent.tasks) + [ConnectionListener(first)]
    ensures c.agent.loop.None? ==>
      c.listenerTask == None
      && c.agent.spawnOnStart == Some(old(c.agent.spawnOnStart).value + {ConnectionListener(first)})
  {
    ghost var s0 := c.spaces;
    joined := c.Join(space, maxLength, first);
    left := c.Leave(space, maxLength, second);
    assert s0 + {space} == {space};
  }


  /** JoinThenLeave when other spaces were joined: leave's subscribe call names exactly them. */
  method JoinThenLeaveAmongOthers(c: RedisConnection, space: string, maxLength: nat, first: Handle, second: Handle)
    returns (joined: Outcome, left: Outcome)
    requires c.agent.Valid() && c.subscriber.Some? && c.spaces != {}
    requires ValidateName(PyStr(space), maxLength).Ok? && space !in c.spaces
    modifies c`spaces, c`connection, c`listenerTask, c`subscriptions, c`listenedSpace, c`closedHandles,
             c`cancelledTasks, c.agent`spawnOnStart, c.agent`tasks
    ensures joined == Pass && left == Pass && c.spaces == old(c.spaces) && c.connection == Some(second)
    ensures c.subscriptions == old(c.subscriptions) + [old(c.spaces) + {space}, old(c.spaces)]
    ensures c.listenedSpace.Some? && c.listenedSpace.value in old(c.spaces)
    ensures c.closedHandles == old(c.closedHandles) + OptSeq(old(c.connection)) + [first]
    ensures c.agent.loop.Some? ==>
      c.cancelledTasks == old(c.cancelledTasks) + OptSeq(old(c.listenerTask)) + [|old(c.agent.tasks)|]
      && c.listenerTask == Some(|old(c.agent.tasks)| + 1)
      && c.agent.tasks == old(c.agent.tasks) + [ConnectionListener(first), ConnectionListener(second)]
    ensures c.agent.loop.None? ==>
      c.cancelledTasks == old(c.cancelledTasks) + OptSeq(old(c.listenerTask)) && c.listenerTask == None
      && c.agent.spawnOnStart
         == Some(old(c.agent.spawnOnStart).value + {ConnectionListener(first), ConnectionListener(second)})
  {
    ghost var s0, subs0, tasks0, queue0 := c.spaces, c.subscriptions, c.agent.tasks, c.agent.spawnOnStart;
    AddThenRemove(s0, space);
    joined := c.Join(space, maxLength, first);
    left := c.Leave(space, maxLength, second);
    AppendTwo(subs0, s0 + {space}, s0);
    if c.agent.loop.Some? {
      AppendTwo(tasks0, ConnectionListener(first), ConnectionListener(second));
    } else {
      AddTwo(queue0.value, ConnectionListener(first), ConnectionListener(second));
    }
  }


  /** Adding an absent element and removing it again gives the set back. */
  lemma AddThenRemove<T>(s: set<T>, x: T)
    requires x !in s
    ensures s + {x} - {x} == s
  {
  }

  /** Adding two elements one at a time adds them both. */
  lemma AddTwo<T>(s: set<T>, x: T, y: T)
    ensures s + {x} + {y} == s + {x, y}
  {
  }

  /** Appending two elements one at a time appends them both. */
  lemma AppendTwo<T>(s: seq<T>, x: T, y: T)
    ensures s + [x] + [y] == s + [x, y]
  {
  }

  /** An endpoint with no edge whitespace and no upper-case letter is its own normal form. */
  lemma NormalisedEndpoint(e: string)
    requires NoEdgeSpace(e) && NoUpper(e)
    ensures ValidateEndpoint(PyStr(e)) == Ok(e)
  {
    StripNoop(e);
    LowerFacts(e);
  }

  /**
   * A first connect to a well-formed 'redis://' host ':' port endpoint
   * succeeds, and the clients are created for that host and port.
   */
  lemma WellFormedConnects(host: string, port: string)
    requires ':' !in host && ':' !in port && !Occurs(host + ":" + port, REDIS_SCHEME)
    requires NoUpper(host + ":" + port) && (port == [] || !IsSpace(port[|port| - 1]))
    ensures var e := REDIS_SCHEME + host + ":" + port;
      ValidateEndpoint(PyStr(e)) == Ok(e) && HostPort(e) == Ok((host, port))
      && ConnectTarget(PyStr(e), PyNone, false) == Ok((host, port))
  {
    var t := host + ":" + port;
    var e := REDIS_SCHEME + t;
    assert e == REDIS_SCHEME + host + ":" + port;
    assert e[..|REDIS_SCHEME|] == REDIS_SCHEME;
    assert e[|e| - 1] == t[|t| - 1];
    assert forall i :: |REDIS_SCHEME| <= i < |e| ==> e[i] == t[i - |REDIS_SCHEME|];
    assert NoUpper(e);
    NormalisedEndpoint(e);
    HostPortRoundTrip(host, port);
  }

  /**
   * bind as written leaves a fresh connection disconnected, even on an
   * endpoint that connect accepts.
   */
  method BindAsWrittenDoesNotConnect(c: RedisConnection, host: string, port: string)
    requires !c.base.connected
    requires ':' !in host && ':' !in port && !Occurs(host + ":" + port, REDIS_SCHEME)
    requires NoUpper(host + ":" + port) && (port == [] || !IsSpace(port[|port| - 1]))
    ensures ConnectTarget(PyStr(REDIS_SCHEME + host + ":" + port), PyNone, false) == Ok((host, port))
    ensures !c.base.connected && c.subscriber == old(c.subscriber) && c.publisher == old(c.publisher)
  {
    WellFormedConnects(host, port);
    c.BindAsWritten(PyStr(REDIS_SCHEME + host + ":" + port));
  }

  /**
   * The intended bind, on such an endpoint, creates both clients for that
   * host and port with no auth, and connects exactly when the auth calls
   * succeed.
   */
  method BindConnects(c: RedisConnection, host: string, port: string, sub: Handle, pub: Handle, authReply: Outcome)
    requires !c.base.connected
    requires ':' !in host && ':' !in port && !Occurs(host + ":" + port, REDIS_SCHEME)
    requires NoUpper(host + ":" + port) && (port == [] || !IsSpace(port[|port| - 1]))
    modifies c`auth, c`subscriber, c`publisher, c`dialed, c.base`connected
    ensures c.subscriber == Some(sub) && c.publisher == Some(pub) && c.auth == None
    ensures c.dialed == old(c.dialed) + [(host, port), (host, port)]
    ensures c.base.connected <==> authReply.Pass?
  {
    WellFormedConnects(host, port);
    var r := c.Bind(PyStr(REDIS_SCHEME + host + ":" + port), sub, pub, authReply);
  }

}
