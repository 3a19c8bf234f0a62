/**
 Dispatching an event: the flows that the index finds for its device and templates, each once, and the heads
 that those flows fire through their node maps, compared with a scan of all nodes.
 */
module Ingestor {
  import opened Bags
  import opened Options
  import opened DottedPath
  import opened Flows
  import opened Executor
  import opened FlowManager

  /** An event after pre-processing.  `source` is the name of the event, "publish" for device data; `payload`
      is the message for the heads of the new kinds and `attrs`, if there are any, the one for those of the old
      kinds. */
  datatype Event = Event(
    device: string, templates: seq<string>, source: string, payload: Json, attrs: Option<Json>, metadata: Metadata)

  // ---------- what should fire ----------

  /** Whether a head fires on an event once its flow has been reached.  The old kinds do not look at the
      device or the template. */
  predicate Fires(node: Node, event: Event)
  {
    if node.kind == Some("event device in") then node.deviceId == Some(event.device) && event.source in node.events
    else if node.kind == Some("event template in") then
      node.templateId.Some? && node.templateId.value in event.templates && event.source in node.events
    else (node.kind == Some("device in") || node.kind == Some("device template in")) && event.source == "publish"
  }

  /** A head of the flow names the device of the event, or one of its templates. */
  ghost predicate Reached(flow: StoredFlow, event: Event)
  {
    exists n :: n in flow.index.red && Matches(n, event)
  }

  predicate Matches(node: Node, event: Event)
  {
    !Ignored(node)
    && (NamesDevice(node) ==> DeviceOf(node) == Some(event.device))
    && (NamesTemplate(node) ==> TemplateOf(node).Some? && TemplateOf(node).value in event.templates)
    && (NamesDevice(node) || NamesTemplate(node))
  }

  predicate Found(flow: StoredFlow, event: Event)
  {
    Some(event.device) in flow.index.devices || exists t :: t in event.templates && Some(t) in flow.index.templates
  }

  /** The two lookups find exactly the flows that a scan of all nodes would reach. */
  lemma FoundIsReached(flow: StoredFlow, event: Event)
    requires flow.index == IndexOf(flow.index.red)
    ensures Found(flow, event) <==> Reached(flow, event)
  {
    var red := flow.index.red;
    DeviceIsIndexed(red, event.device);
    forall t: string
      ensures Some(t) in Templates(red) <==>
              exists n :: n in red && !Ignored(n) && NamesTemplate(n) && TemplateOf(n) == Some(t)
    {
      TemplateIsIndexed(red, t);
    }
    if Found(flow, event) {
      if Some(event.device) in flow.index.devices {
        var n :| n in red && !Ignored(n) && NamesDevice(n) && DeviceOf(n) == Some(event.device);
        assert Matches(n, event);
      } else {
        var t :| t in event.templates && Some(t) in flow.index.templates;
        var n :| n in red && !Ignored(n) && NamesTemplate(n) && TemplateOf(n) == Some(t);
        assert Matches(n, event);
      }
    }
    if Reached(flow, event) {
      var n :| n in red && Matches(n, event);
      assert NamesTemplate(n) ==> Some(TemplateOf(n).value) in Templates(red);
    }
  }

  // ---------- one flow ----------

  /** `nodeMap`: of several nodes with one identifier the last counts. */
  function NodeMap(red: seq<Node>): (r: map<string, Node>)
    ensures forall id :: id in r <==> exists n :: n in red && n.id == id
  {
    if red == [] then map[]
    else
      var last := red[|red| - 1];
      assert red == red[..|red| - 1] + [last];
      NodeMap(red[..|red| - 1])[last.id := last]
  }

  /** The node that stands for an identifier: the last one that has it. */
  lemma {:induction false} LastNodeCounts(red: seq<Node>, i: nat)
    requires i < |red| && forall j :: i < j < |red| ==> red[j].id != red[i].id
    ensures red[i].id in NodeMap(red) && NodeMap(red)[red[i].id] == red[i]
    decreases |red|
  {
    var init, last := red[..|red| - 1], red[|red| - 1];
    if i < |init| {
      assert last.id != red[i].id && init[i] == red[i];
      LastNodeCounts(init, i);
    }
  }

  ghost predicate DistinctNodes(red: seq<Node>)
  {
    forall i, j :: 0 <= i < j < |red| ==> red[i].id != red[j].id
  }

  /** The nodes that a list of heads fires, in order. */
  function Fired(heads: seq<string>, nodes: map<string, Node>, event: Event): seq<Node>
    requires forall h :: h in heads ==> h in nodes
  {
    if heads == [] then []
    else
      var node := nodes[heads[|heads| - 1]];
      Fired(heads[..|heads| - 1], nodes, event) + if Fires(node, event) then [node] else []
  }

  /** Scanning every node of the flow. */
  function Scanned(red: seq<Node>, event: Event): (r: seq<Node>)
    ensures forall n :: n in r <==> n in red && IsHead(n) && Fires(n, event)
  {
    if red == [] then []
    else
      var last := red[|red| - 1];
      assert red == red[..|red| - 1] + [last];
      Scanned(red[..|red| - 1], event) + if IsHead(last) && Fires(last, event) then [last] else []
  }

  lemma {:induction false} HeadsAreNodes(red: seq<Node>)
    ensures forall h :: h in HeadIds(red) ==> h in NodeMap(red)
  {
    if red != [] {
      HeadsAreNodes(red[..|red| - 1]);
    }
  }

  lemma {:induction false} FiredIsLocal(heads: seq<string>, a: map<string, Node>, b: map<string, Node>, event: Event)
    requires forall h :: h in heads ==> h in a && h in b && a[h] == b[h]
    ensures Fired(heads, a, event) == Fired(heads, b, event)
  {
    if heads != [] {
      FiredIsLocal(heads[..|heads| - 1], a, b, event);
    }
  }

  lemma FiredAppend(heads: seq<string>, head: string, nodes: map<string, Node>, event: Event)
    requires head in nodes && forall h :: h in heads ==> h in nodes
    ensures Fired(heads + [head], nodes, event)
         == Fired(heads, nodes, event) + if Fires(nodes[head], event) then [nodes[head]] else []
  {
    assert (heads + [head])[..|heads|] == heads;
  }

  /** The nodes that a flow fires: its heads, through its node map. */
  function FiredHeads(red: seq<Node>, event: Event): seq<Node>
  {
    HeadsAreNodes(red);
    Fired(HeadIds(red), NodeMap(red), event)
  }

  /** Another node stands for the head in the map, and one of the two fires. */
  predicate Misfires(head: Node, nodes: map<string, Node>, event: Event)
    requires head.id in nodes
  {
    IsHead(head) && nodes[head.id] != head && (Fires(head, event) || Fires(nodes[head.id], event))
  }

  ghost predicate FiresAsScanned(red: seq<Node>, event: Event)
  {
    forall n :: n in red ==> !Misfires(n, NodeMap(red), event)
  }

  lemma {:induction false} NodeMapKeepsIds(red: seq<Node>)
    ensures forall id :: id in NodeMap(red) ==> NodeMap(red)[id] in red && NodeMap(red)[id].id == id
    decreases |red|
  {
    if red != [] {
      NodeMapKeepsIds(red[..|red| - 1]);
    }
  }

  /** One more node: what it adds to the heads that fire and to the scan. */
  lemma OneMoreHead(init: seq<Node>, last: Node, nodes: map<string, Node>, event: Event)
    requires last.id in nodes && forall h :: h in HeadIds(init) ==> h in nodes
    ensures forall h :: h in HeadIds(init + [last]) ==> h in nodes
    ensures Fired(HeadIds(init + [last]), nodes, event)
         == Fired(HeadIds(init), nodes, event)
            + if IsHead(last) && Fires(nodes[last.id], event) then [nodes[last.id]] else []
    ensures Scanned(init + [last], event)
         == Scanned(init, event) + if IsHead(last) && Fires(last, event) then [last] else []
  {
    var red := init + [last];
    assert red[..|red| - 1] == init;
    assert HeadIds(red) == HeadIds(init) + if IsHead(last) then [last.id] else [];
    FiredAppend(HeadIds(init), last.id, nodes, event);
    assert HeadIds(init) + [] == HeadIds(init);
  }

  lemma {:induction false} HeadsAreIn(red: seq<Node>, nodes: map<string, Node>)
    requires forall n :: n in red ==> n.id in nodes
    ensures forall h :: h in HeadIds(red) ==> h in nodes
    decreases |red|
  {
    if red != [] {
      HeadsAreIn(red[..|red| - 1], nodes);
    }
  }

  /** Without a misfire, the heads fire node by node as the scan does. */
  lemma {:induction false} NoMisfireAgrees(red: seq<Node>, nodes: map<string, Node>, event: Event)
    requires forall n :: n in red ==> n.id in nodes && !Misfires(n, nodes, event)
    requires forall h :: h in HeadIds(red) ==> h in nodes
    ensures Fired(HeadIds(red), nodes, event) == Scanned(red, event)
    decreases |red|
  {
    if red != [] {
      var init, last := red[..|red| - 1], red[|red| - 1];
      assert red == init + [last];
      HeadsAreIn(init, nodes);
      NoMisfireAgrees(init, nodes, event);
      OneMoreHead(init, last, nodes, event);
    }
  }

  /** A node of the map that fires does so for every head with its identifier, and is scanned at most as often. */
  lemma {:induction false} FiresForEveryHead(red: seq<Node>, nodes: map<string, Node>, event: Event, m: Node)
    requires forall n :: n in red ==> n.id in nodes && nodes[n.id].id == n.id
    requires forall h :: h in HeadIds(red) ==> h in nodes
    requires m.id in nodes && nodes[m.id] == m && Fires(m, event)
    ensures multiset(Scanned(red, event))[m] <= multiset(Fired(HeadIds(red), nodes, event))[m]
    ensures (exists n :: n in red && IsHead(n) && n.id == m.id && n != m) ==>
              multiset(Scanned(red, event))[m] < multiset(Fired(HeadIds(red), nodes, event))[m]
    decreases |red|
  {
    if red != [] {
      var init, last := red[..|red| - 1], red[|red| - 1];
      assert red == init + [last];
      HeadsAreIn(init, nodes);
      FiresForEveryHead(init, nodes, event, m);
      OneMoreHead(init, last, nodes, event);
    }
  }

  lemma {:induction false} FiredIsMapped(heads: seq<string>, nodes: map<string, Node>, event: Event)
    requires forall h :: h in heads ==> h in nodes
    ensures forall n :: n in Fired(heads, nodes, event) ==> exists h :: h in heads && nodes[h] == n
  {
    if heads != [] {
      FiredIsMapped(heads[..|heads| - 1], nodes, event);
      assert heads[|heads| - 1] in heads;
    }
  }

  /** A misfire shows: a node is fired too often, or not at all. */
  lemma MisfireShows(red: seq<Node>, event: Event, n: Node)
    requires n in red && Misfires(n, NodeMap(red), event)
    ensures multiset(FiredHeads(red, event)) != multiset(Scanned(red, event))
  {
    HeadsAreNodes(red);
    NodeMapKeepsIds(red);
    var m := NodeMap(red)[n.id];
    if Fires(m, event) {
      FiresForEveryHead(red, NodeMap(red), event, m);
    } else {
      FiredIsMapped(HeadIds(red), NodeMap(red), event);
      assert n in multiset(Scanned(red, event));
      assert n !in FiredHeads(red, event);
    }
  }

  /** Firing the heads through the map is scanning the nodes, in order and even as a bag, if and only if no node
      stands for another in the map when either of them fires. */
  lemma HeadsAgreeWithScan(red: seq<Node>, event: Event)
    ensures FiredHeads(red, event) == Scanned(red, event) <==> FiresAsScanned(red, event)
    ensures multiset(FiredHeads(red, event)) == multiset(Scanned(red, event)) <==> FiresAsScanned(red, event)
  {
    if FiresAsScanned(red, event) {
      HeadsAreNodes(red);
      NoMisfireAgrees(red, NodeMap(red), event);
    } else {
      var n :| n in red && Misfires(n, NodeMap(red), event);
      MisfireShows(red, event, n);
    }
  }

  lemma {:induction false} DistinctNodesAreMapped(red: seq<Node>)
    requires DistinctNodes(red)
    ensures forall n :: n in red ==> NodeMap(red)[n.id] == n
    decreases |red|
  {
    if red != [] {
      var init, last := red[..|red| - 1], red[|red| - 1];
      assert red == init + [last];
      DistinctNodesAreMapped(init);
    }
  }

  // ---------- before any event ----------

  /** Some event fires the node. */
  predicate CanFire(node: Node)
  {
    || node.kind == Some("device in") || node.kind == Some("device template in")
    || (node.kind == Some("event device in") && node.deviceId.Some? && node.events != {})
    || (node.kind == Some("event template in") && node.templateId.Some? && node.events != {})
  }

  /** An event that does. */
  ghost function FiringEvent(node: Node): (event: Event)
    requires CanFire(node)
    ensures Fires(node, event)
  {
    var source := if node.kind == Some("device in") || node.kind == Some("device template in") then "publish"
                  else var e :| e in node.events; e;
    var device := if node.deviceId.Some? then node.deviceId.value else "";
    var templates := if node.templateId.Some? then [node.templateId.value] else [];
    Event(device, templates, source, Null, None, Metadata("", device, None))
  }

  /** Another node stands for the head in the map, and some event fires one of the two. */
  predicate CanMisfire(head: Node, nodes: map<string, Node>)
    requires head.id in nodes
  {
    IsHead(head) && nodes[head.id] != head && (CanFire(head) || CanFire(nodes[head.id]))
  }

  /** Exactly the flows that fire on every event as scanning their nodes would. */
  lemma FlowAgreesExactly(red: seq<Node>)
    ensures (forall event :: FiredHeads(red, event) == Scanned(red, event)) <==>
            forall n :: n in red ==> !CanMisfire(n, NodeMap(red))
  {
    forall event
      ensures FiredHeads(red, event) == Scanned(red, event) <==> FiresAsScanned(red, event)
    {
      HeadsAgreeWithScan(red, event);
    }
    if n :| n in red && CanMisfire(n, NodeMap(red)) {
      var event := FiringEvent(if CanFire(n) then n else NodeMap(red)[n.id]);
      assert Misfires(n, NodeMap(red), event);
      assert FiredHeads(red, event) != Scanned(red, event);
    } else {
      forall event
        ensures FiresAsScanned(red, event)
      {
      }
    }
  }

  lemma IndexOfTwo(a: Node, b: Node)
    requires IsHead(a) && IsHead(b) && a.id == b.id
    ensures HeadIds([a, b]) == [a.id, a.id] && NodeMap([a, b]) == map[a.id := b]
  {
    assert [a, b][..1] == [a] && [a][..0] == [];
    assert HeadIds([a]) == HeadIds([]) + [a.id] && NodeMap([a]) == NodeMap([])[a.id := a];
  }

  lemma FiredOfTwo(id: string, node: Node, event: Event)
    requires Fires(node, event)
    ensures Fired([id, id], map[id := node], event) == [node, node]
  {
    FiredAppend([id], id, map[id := node], event);
    FiredAppend([], id, map[id := node], event);
    assert [] + [id] == [id] && [id] + [id] == [id, id];
  }

  lemma ScannedOfTwo(a: Node, b: Node, event: Event)
    requires IsHead(a) && IsHead(b) && Fires(a, event) && Fires(b, event)
    ensures Scanned([a, b], event) == [a, b]
  {
    assert [a, b][..1] == [a] && [a][..0] == [];
    assert Scanned([a], event) == Scanned([], event) + [a];
  }

  /** Two nodes with one identifier: the second fires twice, the first, which should, not at all. */
  lemma SharedIdentifierMisfires(event: Event)
    requires event.source == "publish"
    ensures exists a: Node, b: Node :: a.id == b.id && a != b && HeadIds([a, b]) == [a.id, b.id]
              && Scanned([a, b], event) == [a, b] && NodeMap([a, b]) == map[b.id := b]
              && Fired(HeadIds([a, b]), NodeMap([a, b]), event) == [b, b]
  {
    var a := Node("n", Some("event device in"), Some([]), Some(event.device), None, None, None, {"publish"});
    var b := a.(kind := Some("device in"), legacyDeviceId := Some(event.device));
    IndexOfTwo(a, b);
    FiredOfTwo("n", b, event);
    ScannedOfTwo(a, b, event);
  }

  // ---------- the tasks ----------

  /** The message of a first task; a payload that is undefined does not get into the JSON text. */
  function Message(payload: Option<Json>): Json
  {
    Object(if payload.Some? then map["payload" := payload.value] else map[])
  }

  function MessageFor(node: Node, event: Event): Json
  {
    Message(if node.kind == Some("device in") || node.kind == Some("device template in")
            then event.attrs else Some(event.payload))
  }

  /** The message at every output. */
  function Copies(message: Json, count: nat): (copies: seq<Option<Json>>)
    ensures |copies| == count && forall i :: 0 <= i < count ==> copies[i] == Some(message)
  {
    seq(count, i => Some(message))
  }

  /** The first tasks of a fired head: one for every wire of every output. */
  function FirstTasks(node: Node, flow: Wiring, event: Event): seq<Task>
  {
    var message := MessageFor(node, event);
    Fanned(Task(node.id, message, flow, event.metadata), Copies(message, |Wires(node)|), Wires(node), 0)
  }

  /** The first tasks of a head, exactly.  Old heads hand on the attributes of the event, new ones the event. */
  lemma FirstTasksAreTheFanOut(node: Node, flow: Wiring, event: Event)
    requires node.wires.Some?
    ensures var isOld := node.kind == Some("device in") || node.kind == Some("device template in");
            var message := if !isOld then Object(map["payload" := event.payload])
                           else if event.attrs.Some? then Object(map["payload" := event.attrs.value])
                           else Object(map[]);
            IsFanOut(FirstTasks(node, flow, event), Copies(message, |node.wires.value|), node.wires.value, flow,
                     event.metadata)
  {
    var message := MessageFor(node, event);
    FannedIsTheFanOut(Task(node.id, message, flow, event.metadata), Copies(message, |Wires(node)|), Wires(node));
  }

  function TasksFor(nodes: seq<Node>, flow: Wiring, event: Event): seq<Task>
  {
    if nodes == [] then []
    else TasksFor(nodes[..|nodes| - 1], flow, event) + FirstTasks(nodes[|nodes| - 1], flow, event)
  }

  /** `_publish`: what it sends, with priority 0, in order. */
  method Publish(node: Node, message: Json, flow: Wiring, metadata: Metadata) returns (tasks: seq<Task>)
    ensures tasks == Fanned(Task(node.id, message, flow, metadata), Copies(message, |Wires(node)|), Wires(node), 0)
    ensures node.wires.Some? ==>
              IsFanOut(tasks, Copies(message, |node.wires.value|), node.wires.value, flow, metadata)
  {
    tasks := [];
    var wires := Wires(node);
    ghost var origin, outputs := Task(node.id, message, flow, metadata), Copies(message, |wires|);
    var i := 0;
    while i < |wires|
      invariant 0 <= i <= |wires|
      invariant tasks + Fanned(origin, outputs, wires, i) == Fanned(origin, outputs, wires, 0)
    {
      FannedStep(origin, outputs, wires, i, tasks);
      var sent := PublishOutput(wires[i], message, flow, metadata, origin);
      tasks := tasks + sent;
      i := i + 1;
    }
    assert tasks + [] == tasks;
    FannedIsTheFanOut(origin, outputs, wires);
  }

  /** The loop over the wires of one output. */
  method PublishOutput(output: seq<string>, message: Json, flow: Wiring, metadata: Metadata, ghost origin: Task)
    returns (sent: seq<Task>)
    requires origin.flow == flow && origin.metadata == metadata
    ensures sent == Sends(origin, message, output)
  {
    sent := [];
    var k := 0;
    while k < |output|
      invariant 0 <= k <= |output| == |Sends(origin, message, output)|
      invariant sent == Sends(origin, message, output)[..k]
    {
      sent := sent + [Task(output[k], message, flow, metadata)];
      k := k + 1;
    }
  }

  method BuildNodeMap(red: seq<Node>) returns (nodes: map<string, Node>)
    ensures nodes == NodeMap(red)
  {
    nodes := map[];
    var i := 0;
    while i < |red|
      invariant 0 <= i <= |red| && nodes == NodeMap(red[..i])
    {
      assert red[..i + 1][..i] == red[..i];
      nodes := nodes[red[i].id := red[i]];
      i := i + 1;
    }
    assert red[..i] == red;
  }

  /** `_handleFlow`. */
  method HandleFlow(flow: StoredFlow, event: Event) returns (tasks: seq<Task>)
    requires flow.index == IndexOf(flow.index.red)
    ensures tasks == TasksFor(FiredHeads(flow.index.red, event), WiringOf(flow), event)
  {
    HeadsAreNodes(flow.index.red);
    var nodes := BuildNodeMap(flow.index.red);
    tasks := FireHeads(flow.index.heads, Wiring(flow.id, nodes), event);
  }

  lemma TasksAppend(nodes: seq<Node>, node: Node, flow: Wiring, event: Event)
    ensures TasksFor(nodes + [node], flow, event) == TasksFor(nodes, flow, event) + FirstTasks(node, flow, event)
  {
    assert (nodes + [node])[..|nodes|] == nodes;
  }

  /** The switch over the kind of a head. */
  method FireHead(node: Node, wiring: Wiring, event: Event) returns (tasks: seq<Task>)
    ensures tasks == if Fires(node, event) then FirstTasks(node, wiring, event) else []
  {
    var fires := false;
    var message := Some(event.payload);
    if node.kind == Some("device in") || node.kind == Some("device template in") {
      fires, message := event.source == "publish", event.attrs;
    } else if node.kind == Some("event device in") {
      fires := node.deviceId == Some(event.device) && event.source in node.events;
    } else if node.kind == Some("event template in") {
      fires := node.templateId.Some? && node.templateId.value in event.templates && event.source in node.events;
    }
    assert fires == Fires(node, event);
    if !fires {
      return [];
    }
    tasks := Publish(node, Message(message), wiring, event.metadata);
  }

  lemma HeadAfterHead(heads: seq<string>, i: nat, wiring: Wiring, event: Event)
    requires i < |heads| && forall h :: h in heads ==> h in wiring.nodeMap
    ensures var node := wiring.nodeMap[heads[i]];
            TasksFor(Fired(heads[..i + 1], wiring.nodeMap, event), wiring, event)
            == TasksFor(Fired(heads[..i], wiring.nodeMap, event), wiring, event)
               + if Fires(node, event) then FirstTasks(node, wiring, event) else []
  {
    var node, before := wiring.nodeMap[heads[i]], Fired(heads[..i], wiring.nodeMap, event);
    assert heads[..i + 1] == heads[..i] + [heads[i]];
    FiredAppend(heads[..i], heads[i], wiring.nodeMap, event);
    if Fires(node, event) {
      TasksAppend(before, node, wiring, event);
    } else {
      assert before + [] == before && TasksFor(before, wiring, event) + [] == TasksFor(before, wiring, event);
    }
  }

  /** The loop over the heads of a flow. */
  method FireHeads(heads: seq<string>, wiring: Wiring, event: Event) returns (tasks: seq<Task>)
    requires forall h :: h in heads ==> h in wiring.nodeMap
    ensures tasks == TasksFor(Fired(heads, wiring.nodeMap, event), wiring, event)
  {
    tasks := [];
    for i := 0 to |heads|
      invariant tasks == TasksFor(Fired(heads[..i], wiring.nodeMap, event), wiring, event)
    {
      HeadAfterHead(heads, i, wiring, event);
      var published := FireHead(wiring.nodeMap[heads[i]], wiring, event);
      tasks := tasks + published;
    }
    assert heads[..|heads|] == heads;
  }

  // ---------- the event ----------

  /** One stored flow or none for every identifier, in the order of first appearance. */
  ghost predicate IsUnion(flows: seq<StoredFlow>, from: seq<StoredFlow>)
  {
    DistinctIds(flows) && forall f :: f in flows <==> f in from
  }

  ghost predicate OneFlowPerId(flows: seq<StoredFlow>)
  {
    forall f, g :: f in flows && g in flows && f.id == g.id ==> f == g
  }

  /** The loop that removes repeated flows: an object keyed by the identifier. */
  method RemoveRepeated(lists: seq<StoredFlow>) returns (unique: seq<StoredFlow>)
    requires OneFlowPerId(lists)
    ensures IsUnion(unique, lists)
  {
    var uniqueFlows: map<string, StoredFlow> := map[];
    unique := [];
    var i := 0;
    while i < |lists|
      invariant 0 <= i <= |lists|
      invariant IsUnion(unique, lists[..i])
      invariant forall id :: id in uniqueFlows <==> exists f :: f in unique && f.id == id
    {
      assert lists[..i + 1] == lists[..i] + [lists[i]];
      assert forall f :: f in lists[..i + 1] ==> f in lists;
      if lists[i].id !in uniqueFlows {
        unique := unique + [lists[i]];
      }
      uniqueFlows := uniqueFlows[lists[i].id := lists[i]];
      i := i + 1;
    }
    assert lists[..i] == lists;
  }

  /** A head that fires on the event. */
  datatype Firing = Firing(flow: StoredFlow, node: Node)

  ghost predicate ShouldFire(flows: seq<StoredFlow>, firing: Firing, event: Event)
  {
    firing.flow in flows && firing.node in firing.flow.index.red && IsHead(firing.node)
    && Fires(firing.node, event) && Reached(firing.flow, event)
  }

  /** The tasks of a list of firings, in order. */
  function TasksOf(firings: seq<Firing>, event: Event): seq<Task>
  {
    if firings == [] then []
    else
      var last := firings[|firings| - 1];
      TasksOf(firings[..|firings| - 1], event) + FirstTasks(last.node, WiringOf(last.flow), event)
  }

  function WiringOf(flow: StoredFlow): Wiring { Wiring(flow.id, NodeMap(flow.index.red)) }

  ghost predicate NoRepeats(firings: seq<Firing>)
  {
    forall i, j :: 0 <= i < j < |firings| ==> firings[i] != firings[j]
  }

  ghost function FiringsOf(flow: StoredFlow, nodes: seq<Node>): (r: seq<Firing>)
    ensures |r| == |nodes| && forall i :: 0 <= i < |r| ==> r[i] == Firing(flow, nodes[i])
  {
    seq(|nodes|, i requires 0 <= i < |nodes| => Firing(flow, nodes[i]))
  }

  lemma Associate(a: seq<Task>, b: seq<Task>, c: seq<Task>)
    ensures a + b + c == a + (b + c)
  {
  }

  lemma TasksOfAppend(firings: seq<Firing>, f: Firing, event: Event)
    ensures TasksOf(firings + [f], event) == TasksOf(firings, event) + FirstTasks(f.node, WiringOf(f.flow), event)
  {
    assert (firings + [f])[..|firings|] == firings;
  }

  lemma {:induction false} TasksOfFlow(before: seq<Firing>, flow: StoredFlow, nodes: seq<Node>, event: Event)
    ensures TasksOf(before + FiringsOf(flow, nodes), event)
         == TasksOf(before, event) + TasksFor(nodes, WiringOf(flow), event)
    decreases |nodes|
  {
    if nodes == [] {
      TasksOfNoNodes(before, flow, event);
    } else {
      var init, last := nodes[..|nodes| - 1], nodes[|nodes| - 1];
      assert nodes == init + [last];
      TasksOfFlow(before, flow, init, event);
      OneMoreFiring(before, flow, init, last, event);
    }
  }

  lemma {:induction false} TasksOfNoNodes(before: seq<Firing>, flow: StoredFlow, event: Event)
    ensures TasksOf(before + FiringsOf(flow, []), event) == TasksOf(before, event) + TasksFor([], WiringOf(flow), event)
  {
    assert before + FiringsOf(flow, []) == before;
    assert TasksOf(before, event) + [] == TasksOf(before, event);
  }

  lemma OneMoreIsFired(flow: StoredFlow, init: seq<Node>, last: Node)
    ensures FiringsOf(flow, init + [last]) == FiringsOf(flow, init) + [Firing(flow, last)]
  {
  }

  lemma FiringsAppend(before: seq<Firing>, flow: StoredFlow, init: seq<Node>, last: Node)
    ensures before + FiringsOf(flow, init + [last]) == before + FiringsOf(flow, init) + [Firing(flow, last)]
  {
    OneMoreIsFired(flow, init, last);
    var sofar := FiringsOf(flow, init);
    assert before + (sofar + [Firing(flow, last)]) == before + sofar + [Firing(flow, last)];
  }

  lemma {:induction false} OneMoreFiring(before: seq<Firing>, flow: StoredFlow, init: seq<Node>, last: Node,
                                         event: Event)
    requires TasksOf(before + FiringsOf(flow, init), event)
          == TasksOf(before, event) + TasksFor(init, WiringOf(flow), event)
    ensures TasksOf(before + FiringsOf(flow, init + [last]), event)
         == TasksOf(before, event) + TasksFor(init + [last], WiringOf(flow), event)
  {
    FiringsAppend(before, flow, init, last);
    TasksOfAppend(before + FiringsOf(flow, init), Firing(flow, last), event);
    TasksAppend(init, last, WiringOf(flow), event);
    Associate(TasksOf(before, event), TasksFor(init, WiringOf(flow), event), FirstTasks(last, WiringOf(flow), event));
  }

  /** What is picked from every flow, flow by flow. */
  ghost function Gathered(flows: seq<StoredFlow>, pick: StoredFlow -> seq<Node>): seq<Firing>
  {
    if flows == [] then []
    else
      var last := flows[|flows| - 1];
      Gathered(flows[..|flows| - 1], pick) + FiringsOf(last, pick(last))
  }

  lemma GatheredAppend(flows: seq<StoredFlow>, flow: StoredFlow, pick: StoredFlow -> seq<Node>)
    ensures Gathered(flows + [flow], pick) == Gathered(flows, pick) + FiringsOf(flow, pick(flow))
  {
    assert (flows + [flow])[..|flows|] == flows;
  }

  lemma {:induction false} FiringsAreCounted(flow: StoredFlow, nodes: seq<Node>, f: Firing)
    ensures multiset(FiringsOf(flow, nodes))[f] == if f.flow == flow then multiset(nodes)[f.node] else 0
    decreases |nodes|
  {
    if nodes != [] {
      var init, last := nodes[..|nodes| - 1], nodes[|nodes| - 1];
      assert nodes == init + [last];
      FiringsAreCounted(flow, init, f);
      OneMoreIsFired(flow, init, last);
      OneMore(FiringsOf(flow, init), Firing(flow, last), f);
      OneMore(init, last, f.node);
    }
  }

  /** A firing is gathered as often as its node is picked from its flow. */
  lemma {:induction false} GatheredIsCounted(flows: seq<StoredFlow>, pick: StoredFlow -> seq<Node>, f: Firing)
    requires DistinctIds(flows)
    ensures multiset(Gathered(flows, pick))[f] == if f.flow in flows then multiset(pick(f.flow))[f.node] else 0
    decreases |flows|
  {
    if flows != [] {
      var init, last := flows[..|flows| - 1], flows[|flows| - 1];
      assert flows == init + [last] && last !in init;
      GatheredIsCounted(init, pick, f);
      FiringsAreCounted(last, pick(last), f);
    }
  }

  lemma {:induction false} PickedAlike(flows: seq<StoredFlow>, a: StoredFlow -> seq<Node>, b: StoredFlow -> seq<Node>)
    requires forall f :: f in flows ==> a(f) == b(f)
    ensures Gathered(flows, a) == Gathered(flows, b)
    decreases |flows|
  {
    if flows != [] {
      PickedAlike(flows[..|flows| - 1], a, b);
    }
  }

  // ---------- what is fired, and what a scan would fire ----------

  ghost function FiredBy(event: Event): StoredFlow -> seq<Node>
  {
    (f: StoredFlow) => FiredHeads(f.index.red, event)
  }

  /** The heads that the flows fire, flow by flow. */
  ghost function AllFired(flows: seq<StoredFlow>, event: Event): seq<Firing>
  {
    Gathered(flows, FiredBy(event))
  }

  ghost function FiredIfReached(event: Event): StoredFlow -> seq<Node>
  {
    f => if Reached(f, event) then FiredHeads(f.index.red, event) else []
  }

  ghost function ScannedIfReached(event: Event): StoredFlow -> seq<Node>
  {
    f => if Reached(f, event) then Scanned(f.index.red, event) else []
  }

  /** The heads that the event fires: those of the flows it reaches. */
  ghost function DispatchedFirings(flows: seq<StoredFlow>, event: Event): seq<Firing>
  {
    Gathered(flows, FiredIfReached(event))
  }

  /** The heads that scanning every node of every flow fires. */
  ghost function ScannedFirings(flows: seq<StoredFlow>, event: Event): seq<Firing>
  {
    Gathered(flows, ScannedIfReached(event))
  }

  /** No flow that the event reaches misfires. */
  ghost predicate NothingMisfires(flows: seq<StoredFlow>, event: Event)
  {
    forall f :: f in flows && Reached(f, event) ==> FiresAsScanned(f.index.red, event)
  }

  lemma FiringsDiffer(flows: seq<StoredFlow>, event: Event, flow: StoredFlow)
    requires DistinctIds(flows) && flow in flows && Reached(flow, event) && !FiresAsScanned(flow.index.red, event)
    ensures multiset(DispatchedFirings(flows, event)) != multiset(ScannedFirings(flows, event))
  {
    var fired, scanned := FiredHeads(flow.index.red, event), Scanned(flow.index.red, event);
    HeadsAgreeWithScan(flow.index.red, event);
    var n :| multiset(fired)[n] != multiset(scanned)[n];
    GatheredIsCounted(flows, FiredIfReached(event), Firing(flow, n));
    GatheredIsCounted(flows, ScannedIfReached(event), Firing(flow, n));
  }

  /** The dispatch of an event fires the heads that scanning every node of every flow would fire, in order and
      even as a bag, if and only if no flow that the event reaches misfires. */
  lemma DispatchIsScanExactly(flows: seq<StoredFlow>, event: Event)
    requires DistinctIds(flows)
    ensures DispatchedFirings(flows, event) == ScannedFirings(flows, event) <==> NothingMisfires(flows, event)
    ensures multiset(DispatchedFirings(flows, event)) == multiset(ScannedFirings(flows, event))
            <==> NothingMisfires(flows, event)
  {
    if NothingMisfires(flows, event) {
      forall f | f in flows
        ensures FiredIfReached(event)(f) == ScannedIfReached(event)(f)
      {
        HeadsAgreeWithScan(f.index.red, event);
      }
      PickedAlike(flows, FiredIfReached(event), ScannedIfReached(event));
    } else {
      var f :| f in flows && Reached(f, event) && !FiresAsScanned(f.index.red, event);
      FiringsDiffer(flows, event, f);
    }
  }

  lemma {:induction false} ScanHasNoRepeats(red: seq<Node>, event: Event)
    requires DistinctNodes(red)
    ensures forall n :: multiset(Scanned(red, event))[n] <= 1
    decreases |red|
  {
    if red != [] {
      var init, last := red[..|red| - 1], red[|red| - 1];
      assert red == init + [last];
      ScanHasNoRepeats(init, event);
      assert last !in Scanned(init, event);
    }
  }

  lemma NoRepeatsByCount(firings: seq<Firing>)
    requires forall f :: multiset(firings)[f] <= 1
    ensures NoRepeats(firings)
  {
    forall i, j | 0 <= i < j < |firings|
      ensures firings[i] != firings[j]
    {
      assert firings == firings[..j] + [firings[j]] + firings[j + 1..];
      var f := firings[j];
      assert multiset(firings)[f] == multiset(firings[..j])[f] + 1 + multiset(firings[j + 1..])[f];
      assert firings[..j][i] == firings[i] && firings[i] in multiset(firings[..j]);
    }
  }

  /** The scan lists the heads that should fire, and each once in flows with distinct nodes. */
  lemma ScanFiresWhatShould(flows: seq<StoredFlow>, event: Event)
    requires DistinctIds(flows)
    ensures forall f :: f in ScannedFirings(flows, event) <==> ShouldFire(flows, f, event)
    ensures (forall f :: f in flows && Reached(f, event) ==> DistinctNodes(f.index.red)) ==>
              NoRepeats(ScannedFirings(flows, event))
  {
    forall f
      ensures f in ScannedFirings(flows, event) <==> ShouldFire(flows, f, event)
    {
      GatheredIsCounted(flows, ScannedIfReached(event), f);
      assert f in ScannedFirings(flows, event) <==> f in multiset(ScannedFirings(flows, event));
    }
    if forall f :: f in flows && Reached(f, event) ==> DistinctNodes(f.index.red) {
      forall f
        ensures multiset(ScannedFirings(flows, event))[f] <= 1
      {
        GatheredIsCounted(flows, ScannedIfReached(event), f);
        if f.flow in flows && Reached(f.flow, event) {
          ScanHasNoRepeats(f.flow.index.red, event);
        }
      }
      NoRepeatsByCount(ScannedFirings(flows, event));
    }
  }

  /** The lookups by the device and by every template. */
  method LookUp(manager: FlowManager, event: Event) returns (lists: seq<StoredFlow>)
    ensures forall f :: f in lists <==> f in manager.collection && Found(f, event)
  {
    lists := manager.GetByDevice(event.device);
    var t := 0;
    while t < |event.templates|
      invariant 0 <= t <= |event.templates|
      invariant forall f :: f in lists <==>
        f in manager.collection
        && (Some(event.device) in f.index.devices
            || exists k :: 0 <= k < t && Some(event.templates[k]) in f.index.templates)
    {
      var flows := manager.GetByTemplate(event.templates[t]);
      lists := lists + flows;
      t := t + 1;
    }
  }

  lemma OneMoreFlow(flows: seq<StoredFlow>, i: nat, event: Event)
    requires i < |flows|
    ensures TasksOf(AllFired(flows[..i + 1], event), event)
         == TasksOf(AllFired(flows[..i], event), event)
            + TasksFor(FiredHeads(flows[i].index.red, event), WiringOf(flows[i]), event)
  {
    var pick, flow := FiredBy(event), flows[i];
    assert flows[..i + 1] == flows[..i] + [flow];
    GatheredAppend(flows[..i], flow, pick);
    TasksOfFlow(Gathered(flows[..i], pick), flow, pick(flow), event);
  }

  /** The loop over the flows that were found. */
  method HandleFlows(unique: seq<StoredFlow>, event: Event) returns (tasks: seq<Task>)
    requires AllIndexed(unique)
    ensures tasks == TasksOf(AllFired(unique, event), event)
  {
    tasks := [];
    var i := 0;
    while i < |unique|
      invariant 0 <= i <= |unique| && tasks == TasksOf(AllFired(unique[..i], event), event)
    {
      var flow := unique[i];
      assert flow in unique;
      var more := HandleFlow(flow, event);
      OneMoreFlow(unique, i, event);
      tasks := tasks + more;
      i := i + 1;
    }
    assert unique[..i] == unique;
  }

  lemma {:induction false} TasksOfTwo(a: seq<Firing>, b: seq<Firing>, event: Event)
    ensures TasksOf(a + b, event) == TasksOf(a, event) + TasksOf(b, event)
    decreases |b|
  {
    if b == [] {
      assert a + b == a;
    } else {
      var init, last := b[..|b| - 1], b[|b| - 1];
      assert b == init + [last];
      TasksOfTwo(a, init, event);
      TasksOfOneMore(a, init, last, event);
    }
  }

  lemma {:induction false} TasksOfOneMore(a: seq<Firing>, init: seq<Firing>, last: Firing, event: Event)
    requires TasksOf(a + init, event) == TasksOf(a, event) + TasksOf(init, event)
    ensures TasksOf(a + (init + [last]), event) == TasksOf(a, event) + TasksOf(init + [last], event)
  {
    var x, y, z := TasksOf(a, event), TasksOf(init, event), FirstTasks(last.node, WiringOf(last.flow), event);
    assert TasksOf(a + (init + [last]), event) == x + y + z by {
      TasksOfAppend(a + init, last, event);
      assert a + (init + [last]) == a + init + [last];
    }
    assert TasksOf(init + [last], event) == y + z by {
      TasksOfAppend(init, last, event);
    }
    Associate(x, y, z);
  }

  lemma {:induction false} TasksWithout(firings: seq<Firing>, i: nat, event: Event)
    requires i < |firings|
    ensures multiset(TasksOf(firings, event))
         == multiset(TasksOf(Without(firings, i), event))
            + multiset(FirstTasks(firings[i].node, WiringOf(firings[i].flow), event))
  {
    var a, f, b := firings[..i], firings[i], firings[i + 1..];
    assert firings == a + [f] + b;
    TasksOfTwo(a + [f], b, event);
    TasksOfAppend(a, f, event);
    TasksOfTwo(a, b, event);
  }

  /** The order of the firings does not change which tasks are sent. */
  lemma {:induction false} TasksPermute(a: seq<Firing>, b: seq<Firing>, event: Event)
    requires multiset(a) == multiset(b)
    ensures multiset(TasksOf(a, event)) == multiset(TasksOf(b, event))
    decreases |a|
  {
    if a == [] {
      assert |multiset(b)| == 0;
    } else {
      var i := FindSame(a, 0, b);
      TakeSame(a, 0, b, i);
      TasksPermute(Without(a, 0), Without(b, i), event);
      TasksWithout(a, 0, event);
      TasksWithout(b, i, event);
    }
  }

  // ---------- a head gets its first tasks ----------

  /** A head that stands for itself in the node map fires with its flow. */
  lemma HeadIsDispatched(flows: seq<StoredFlow>, event: Event, f: StoredFlow, n: Node)
    requires DistinctIds(flows) && f in flows && Reached(f, event)
    requires n in f.index.red && IsHead(n) && Fires(n, event)
    requires n.id in NodeMap(f.index.red) && NodeMap(f.index.red)[n.id] == n
    ensures Firing(f, n) in DispatchedFirings(flows, event)
  {
    var red := f.index.red;
    HeadsAreNodes(red);
    NodeMapKeepsIds(red);
    FiresForEveryHead(red, NodeMap(red), event, n);
    assert n in multiset(Scanned(red, event));
    GatheredIsCounted(flows, FiredIfReached(event), Firing(f, n));
    assert Firing(f, n) in multiset(DispatchedFirings(flows, event));
  }

  lemma {:induction false} FiringSendsItsTasks(firings: seq<Firing>, f: Firing, event: Event)
    requires f in firings
    ensures forall t :: t in FirstTasks(f.node, WiringOf(f.flow), event) ==> t in TasksOf(firings, event)
    decreases |firings|
  {
    var init, last := firings[..|firings| - 1], firings[|firings| - 1];
    assert firings == init + [last];
    if f != last {
      FiringSendsItsTasks(init, f, event);
    }
  }

  /** Every wire of a firing head leads a first task away. */
  lemma HeadSendsAlongItsWires(flows: seq<StoredFlow>, event: Event, f: StoredFlow, n: Node, o: nat, k: nat)
    requires Firing(f, n) in DispatchedFirings(flows, event)
    requires n.wires.Some? && o < |n.wires.value| && k < |n.wires.value[o]|
    ensures Task(n.wires.value[o][k], MessageFor(n, event), Wiring(f.id, NodeMap(f.index.red)), event.metadata)
         in TasksOf(DispatchedFirings(flows, event), event)
  {
    FiringSendsItsTasks(DispatchedFirings(flows, event), Firing(f, n), event);
    FirstTaskOfWire(n, WiringOf(f), event, o, k);
  }

  lemma FirstTaskOfWire(n: Node, flow: Wiring, event: Event, o: nat, k: nat)
    requires n.wires.Some? && o < |n.wires.value| && k < |n.wires.value[o]|
    ensures Task(n.wires.value[o][k], MessageFor(n, event), flow, event.metadata) in FirstTasks(n, flow, event)
  {
    var wires, message := n.wires.value, MessageFor(n, event);
    var copies := Copies(message, |wires|);
    FannedAt(Task(n.id, message, flow, event.metadata), copies, wires, 0, o, k);
    assert FirstTasks(n, flow, event)[WiresBefore(copies, wires, o) + k]
        == Task(wires[o][k], message, flow, event.metadata);
  }

  /** The heads of the new kinds that an event is for: they name its device or one of its templates, and its name. */
  predicate IsFor(n: Node, event: Event)
  {
    && n.wires.Some? && event.source in n.events
    && ((n.kind == Some("event device in") && n.deviceId == Some(event.device))
        || (n.kind == Some("event template in") && n.templateId.Some? && n.templateId.value in event.templates))
  }

  /** The heads of the old kinds that name the device of the data, or one of its templates. */
  predicate IsOldFor(n: Node, event: Event)
  {
    && n.wires.Some? && event.source == "publish"
    && ((n.kind == Some("device in") && n.legacyDeviceId == Some(event.device))
        || (n.kind == Some("device template in") && n.legacyTemplateId.Some?
            && n.legacyTemplateId.value in event.templates))
  }

  /** A head that an event is for gets it: one task for every wire, with the event as the payload for the new kinds,
      and its attributes, if there are any, for the old kinds. */
  lemma HeadGetsItsEvent(flows: seq<StoredFlow>, event: Event, f: StoredFlow, n: Node, o: nat, k: nat)
    requires DistinctIds(flows) && f in flows && n in f.index.red && (IsFor(n, event) || IsOldFor(n, event))
    requires n.id in NodeMap(f.index.red) && NodeMap(f.index.red)[n.id] == n
    requires o < |n.wires.value| && k < |n.wires.value[o]|
    ensures var message := if IsFor(n, event) then Object(map["payload" := event.payload])
                           else if event.attrs.Some? then Object(map["payload" := event.attrs.value])
                           else Object(map[]);
            Task(n.wires.value[o][k], message, Wiring(f.id, NodeMap(f.index.red)), event.metadata)
            in TasksOf(DispatchedFirings(flows, event), event)
  {
    assert Matches(n, event);
    HeadIsDispatched(flows, event, f, n);
    HeadSendsAlongItsWires(flows, event, f, n, o, k);
  }

  /** When a head fires, kind by kind, and no other node ever does. */
  lemma FiresExactly(n: Node, event: Event)
    ensures Fires(n, event) <==>
      || (n.kind == Some("event device in") && n.deviceId == Some(event.device) && event.source in n.events)
      || (n.kind == Some("event template in") && event.source in n.events
          && exists t :: t in event.templates && n.templateId == Some(t))
      || (n.kind == Some("device in") && event.source == "publish")
      || (n.kind == Some("device template in") && event.source == "publish")
  {
    if n.templateId.Some? {
      assert n.templateId == Some(n.templateId.value);
    }
  }

  /** In whatever order the flows are found, what they fire is what the event fires. */
  lemma FoundFlowsFire(unique: seq<StoredFlow>, flows: seq<StoredFlow>, event: Event)
    requires DistinctIds(unique) && DistinctIds(flows)
    requires forall f :: f in unique <==> f in flows && Reached(f, event)
    ensures multiset(TasksOf(AllFired(unique, event), event))
         == multiset(TasksOf(DispatchedFirings(flows, event), event))
  {
    forall f: Firing
      ensures multiset(AllFired(unique, event))[f] == multiset(DispatchedFirings(flows, event))[f]
    {
      GatheredIsCounted(unique, FiredBy(event), f);
      GatheredIsCounted(flows, FiredIfReached(event), f);
    }
    assert multiset(AllFired(unique, event)) == multiset(DispatchedFirings(flows, event));
    TasksPermute(AllFired(unique, event), DispatchedFirings(flows, event), event);
  }

  /** `_handleEvent`: the lookups, the removal of repeated flows, and every flow in turn.  The tasks it sends are
      those of the heads that the reached flows fire; they are those of the scan of every node of every flow
      whenever no reached flow misfires. */
  method HandleEvent(manager: FlowManager, event: Event) returns (tasks: seq<Task>)
    requires manager.Valid()
    ensures multiset(tasks) == multiset(TasksOf(DispatchedFirings(manager.collection, event), event))
    ensures NothingMisfires(manager.collection, event) ==>
              multiset(tasks) == multiset(TasksOf(ScannedFirings(manager.collection, event), event))
  {
    var lists := LookUp(manager, event);
    var unique := RemoveRepeated(lists);
    forall f | f in manager.collection
      ensures f in unique <==> Reached(f, event)
    {
      FoundIsReached(f, event);
    }
    tasks := HandleFlows(unique, event);
    FoundFlowsFire(unique, manager.collection, event);
    DispatchIsScanExactly(manager.collection, event);
  }

  /** A head of the new kinds that fires by itself reaches its own flow, so the index never hides it. */
  lemma EventHeadsAreNeverMissed(flows: seq<StoredFlow>, firing: Firing, event: Event)
    requires firing.flow in flows && firing.node in firing.flow.index.red && IsHead(firing.node)
    requires firing.node.kind == Some("event device in") || firing.node.kind == Some("event template in")
    ensures ShouldFire(flows, firing, event) <==> Fires(firing.node, event)
  {
    if Fires(firing.node, event) {
      assert Matches(firing.node, event);
    }
  }

  predicate IsOldHead(node: Node)
  {
    IsHead(node) && (node.kind == Some("device in") || node.kind == Some("device template in"))
  }

  /** Some event finds the flow by this node. */
  predicate CanBeFoundBy(node: Node)
  {
    IsHead(node) && (if NamesDevice(node) then DeviceOf(node).Some? else TemplateOf(node).Some?)
  }

  /** The two heads name the same device, or the same template. */
  predicate NameTheSame(a: Node, b: Node)
  {
    || (NamesDevice(a) && NamesDevice(b) && DeviceOf(a) == DeviceOf(b))
    || (NamesTemplate(a) && NamesTemplate(b) && TemplateOf(a) == TemplateOf(b))
  }

  /** On every event, the old heads of the flow that fire are those that it names. */
  ghost predicate OldHeadsFireForTheirOwn(flow: StoredFlow)
  {
    forall o, event :: IsOldHead(o) && ShouldFire([flow], Firing(flow, o), event) ==> Matches(o, event)
  }

  /** Data that finds a flow by one head and is not what another head names. */
  function DataFor(n: Node, o: Node): (event: Event)
    requires CanBeFoundBy(n) && IsOldHead(o) && !NameTheSame(o, n)
    ensures event.source == "publish" && Matches(n, event) && !Matches(o, event)
  {
    var device := if NamesDevice(n) then DeviceOf(n).value
                  else if DeviceOf(o).Some? then DeviceOf(o).value + "0" else "";
    var templates := if NamesDevice(n) then [] else [TemplateOf(n).value];
    Event(device, templates, "publish", Null, None, Metadata("", device, None))
  }

  /** Exactly the flows whose old heads fire only for the device or template they name: all heads that the flow
      can be found by name the same as each of them. */
  lemma OldHeadsFireForTheirOwnExactly(flow: StoredFlow)
    ensures OldHeadsFireForTheirOwn(flow) <==>
            forall o, n :: o in flow.index.red && n in flow.index.red && IsOldHead(o) && CanBeFoundBy(n) ==>
              NameTheSame(o, n)
  {
    var red := flow.index.red;
    if o, n :| o in red && n in red && IsOldHead(o) && CanBeFoundBy(n) && !NameTheSame(o, n) {
      assert Matches(n, DataFor(n, o));
      assert ShouldFire([flow], Firing(flow, o), DataFor(n, o));
    } else {
      forall o, event | IsOldHead(o) && ShouldFire([flow], Firing(flow, o), event)
        ensures Matches(o, event)
      {
        var n :| n in red && Matches(n, event);
        assert NameTheSame(o, n);
      }
    }
  }

  /** A head of the old kinds fires on data of a device it does not name, when another head of its flow names
      the device. */
  lemma OldHeadsFireForOthers(event: Event)
    requires event.source == "publish"
    ensures exists flow: StoredFlow, node: Node :: flow.index == IndexOf(flow.index.red)
              && ShouldFire([flow], Firing(flow, node), event) && DeviceOf(node) != Some(event.device)
  {
    var own := Node("a", Some("event device in"), Some([]), Some(event.device), None, None, None, {});
    var legacy := Node("b", Some("device in"), Some([]), None, None, Some(event.device + "0"), None, {});
    var flow := StoredFlow("f", "", true, IndexOf([own, legacy]));
    assert own in flow.index.red && Matches(own, event) && legacy in flow.index.red;
    assert |event.device + "0"| != |event.device|;
    assert ShouldFire([flow], Firing(flow, legacy), event);
  }
}
