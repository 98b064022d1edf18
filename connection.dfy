/**
 * The transport base class: the `connected` and `endpoint` state, their
 * read-only accessors, and the transport operations, every one of which the
 * base leaves unimplemented. A transport such as RedisConnection holds its
 * base as a field and supplies the operations itself.
 */
module Connections {
  import opened Base
  import opened Frames

  class Connection {
    var connected: bool
    var endpoint: Option<string>

    /** A fresh connection is not connected and has no endpoint. */
    constructor()
      ensures !connected && endpoint == None
    {
      connected := false;
      endpoint := None;
    }

    /** The `connected` property. */
    function Connected(): (r: bool)
      reads this
      ensures r <==> connected
    {
      connected
    }

    /** The `endpoint` property. */
    function Endpoint(): (r: Option<string>)
      reads this
      ensures r == endpoint
    {
      endpoint
    }

    // The operations a transport must supply: on the base each raises NotImplementedError.

    method Connect(endpoint: string) returns (r: Outcome)
      ensures r == Fail(NotImplementedError)
    {
      return Fail(NotImplementedError);
    }

    method Bind(endpoint: string) returns (r: Outcome)
      ensures r == Fail(NotImplementedError)
    {
      return Fail(NotImplementedError);
    }

    method Close() returns (r: Outcome)
      ensures r == Fail(NotImplementedError)
    {
      return Fail(NotImplementedError);
    }

    method Broadcast(frame: Frame) returns (r: Result<bool>)
      ensures r == Err(NotImplementedError)
    {
      return Err(NotImplementedError);
    }

    method Join(space: string) returns (r: Result<bool>)
      ensures r == Err(NotImplementedError)
    {
      return Err(NotImplementedError);
    }

    method Leave(space: string) returns (r: Result<bool>)
      ensures r == Err(NotImplementedError)
    {
      return Err(NotImplementedError);
    }

    method Spaces() returns (r: Result<seq<string>>)
      ensures r == Err(NotImplementedError)
    {
      return Err(NotImplementedError);
    }

    method Agents(space: string) returns (r: Result<seq<string>>)
      ensures r == Err(NotImplementedError)
    {
      return Err(NotImplementedError);
    }

    method Describe(space: string, agent: Option<string>) returns (r: Result<map<string, string>>)
      ensures r == Err(NotImplementedError)
    {
      return Err(NotImplementedError);
    }
  }

  /** The accessors read the state a fresh connection starts in. */
  method FreshConnectionState() returns (c: Connection)
    ensures fresh(c)
    ensures !c.Connected() && c.Endpoint() == None
  {
    c := new Connection();
  }
}
