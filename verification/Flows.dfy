/**
 Flows as the front end stores them, and the tasks that run them.
 */
module Flows {
  import opened Options
  import opened DottedPath

  /** A node of a flow.  An absent field is None; `events` holds the names of the true `event_*` fields. */
  datatype Node = Node(
    id: string,
    kind: Option<string>,
    wires: Option<seq<seq<string>>>,
    deviceId: Option<string>,
    templateId: Option<string>,
    legacyDeviceId: Option<string>,
    legacyTemplateId: Option<string>,
    events: set<string>)

  /** A flow that is being executed: its nodes by their identifiers. */
  datatype Wiring = Wiring(flowId: string, nodeMap: map<string, Node>)

  datatype Metadata = Metadata(tenant: string, originator: string, timestamp: Option<int>)

  /** A task: deliver a message to the node `hop` of a flow. */
  datatype Task = Task(hop: string, message: Json, flow: Wiring, metadata: Metadata)

  /** What a node's handler makes of a message.  Unknown: no handler is registered for the type.  Throws: an
      exception instead of a promise.  An output is None where the handler gave a falsy value. */
  datatype Outcome = Unknown | Throws | Rejects | Results(outputs: seq<Option<Json>>)

  /** The handlers of all node types, as functions of the node, the message, the flow and the metadata. */
  type Library = (Node, Json, string, Metadata) -> Outcome
}
