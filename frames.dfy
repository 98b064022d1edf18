/**
 * The parts of frames and handlers that the core reads. The modules that
 * define them (frames, handlers, symbols) are not part of this model; only
 * the fields the dispatch gate, the connections and the orchestrator use are
 * kept here.
 */
module Frames {
  import opened Base

  /** The KINDS enumeration: the six wire kinds, the timer pseudo-kind and UNSET. */
  datatype Kind = Event | Message | State | Command | Request | Response | Timer | Unset

  /** A frame: id is the sole dedup key; space is the optional destination. */
  datatype Frame = Frame(id: string, kind: Kind, name: string, source: string, space: Option<string>)

  /** A registered handler: the callable is identified by `fn`. */
  datatype Handler = Handler(kind: Kind, name: string, fn: nat, passSelf: bool, runAsync: bool)

  /** Python truthiness of an optional string (None and '' are falsy). */
  predicate Truthy(s: Option<string>) {
    s.Some? && |s.value| > 0
  }
}
