/**
 * The metric payload the Moleculer broker emits with `metrics.trace.span.start` and
 * `metrics.trace.span.finish`, restricted to the fields the service reads.
 *
 * JavaScript presence and truthiness are explicit: an optional field is an
 * `Option`, and the flags the service only tests for truthiness are `bool`s.
 */
module Events {
  import opened Wrappers

  /** The `action` object; its `name` may itself be undefined. */
  datatype Action = Action(name: Option<string>)

  /** An opaque object handed to the agent unchanged (`meta`, `params`). */
  datatype Blob = Blob(tag: nat)

  /**
   * One metric event.
   *  - `parent`, `name`: tested for truthiness, so `Some("")` counts as unset.
   *  - `action`, `meta`, `params`: objects, truthy whenever present.
   *  - `parentID`, `callerNodeID`, `nodeID`: tested with `hasOwnProperty`; `Some(s)`
   *    means the property exists and `s` is how `Array.prototype.join` renders its
   *    value (null and undefined render as the empty string).
   *  - `fromCache`, `remoteCall`, `error`: the truthiness of those properties.
   */
  datatype Payload = Payload(
    id: string,
    parent: Option<string>,
    name: Option<string>,
    action: Option<Action>,
    parentID: Option<string>,
    callerNodeID: Option<string>,
    nodeID: Option<string>,
    fromCache: bool,
    remoteCall: bool,
    error: bool,
    meta: Option<Blob>,
    params: Option<Blob>)

  /** JavaScript truthiness of an optional string: present and not empty. */
  predicate Truthy(v: Option<string>) {
    v.Some? && v.value != ""
  }

  /** A payload is a root span when `!payload.parent` holds. */
  predicate IsRoot(p: Payload) {
    !Truthy(p.parent)
  }
}
