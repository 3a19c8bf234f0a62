/**
 The flows of a tenant: parsing a flow into its index of heads, devices and templates, and the collection
 that keeps flow and index together.
 */
module FlowManager {
  import opened Options
  import opened Flows

  /** What parsing a flow yields.  A device or template a node does not name is None. */
  datatype ParsedFlow = ParsedFlow(
    heads: seq<string>, devices: seq<Option<string>>, templates: seq<Option<string>>, red: seq<Node>)

  datatype StoredFlow = StoredFlow(id: string, title: string, enabled: bool, index: ParsedFlow)

  /** The `enabled` field of a request. */
  datatype Given = Absent | Flag(value: bool) | Other

  /** Nodes that parsing skips: tabs, and nodes without wires. */
  predicate Ignored(node: Node) { node.kind == Some("tab") || node.wires == None }

  predicate NamesDevice(node: Node) { node.kind == Some("event device in") || node.kind == Some("device in") }

  predicate NamesTemplate(node: Node)
  {
    node.kind == Some("event template in") || node.kind == Some("device template in")
  }

  predicate IsHead(node: Node) { !Ignored(node) && (NamesDevice(node) || NamesTemplate(node)) }

  function DeviceOf(node: Node): Option<string>
  {
    if node.kind == Some("event device in") then node.deviceId else node.legacyDeviceId
  }

  function TemplateOf(node: Node): Option<string>
  {
    if node.kind == Some("event template in") then node.templateId else node.legacyTemplateId
  }

  /** Every node has a type, and every head of the old kind for templates has a template. */
  predicate Parses(flow: seq<Node>)
  {
    forall i :: 0 <= i < |flow| ==>
      flow[i].kind.Some?
      && (!Ignored(flow[i]) && flow[i].kind == Some("device template in") ==> flow[i].legacyTemplateId.Some?)
  }

  // ---------- the index of a flow ----------

  function HeadIds(flow: seq<Node>): seq<string>
  {
    if flow == [] then []
    else HeadIds(flow[..|flow| - 1]) + if IsHead(flow[|flow| - 1]) then [flow[|flow| - 1].id] else []
  }

  function Devices(flow: seq<Node>): seq<Option<string>>
  {
    if flow == [] then []
    else
      var last := flow[|flow| - 1];
      Devices(flow[..|flow| - 1]) + if !Ignored(last) && NamesDevice(last) then [DeviceOf(last)] else []
  }

  function Templates(flow: seq<Node>): seq<Option<string>>
  {
    if flow == [] then []
    else
      var last := flow[|flow| - 1];
      Templates(flow[..|flow| - 1]) + if !Ignored(last) && NamesTemplate(last) then [TemplateOf(last)] else []
  }

  function IndexOf(flow: seq<Node>): ParsedFlow { ParsedFlow(HeadIds(flow), Devices(flow), Templates(flow), flow) }

  lemma OneMoreNode(flow: seq<Node>, i: nat)
    requires i < |flow|
    ensures var node, sofar := flow[i], flow[..i];
            && HeadIds(flow[..i + 1]) == HeadIds(sofar) + (if IsHead(node) then [node.id] else [])
            && Devices(flow[..i + 1])
               == Devices(sofar) + (if !Ignored(node) && NamesDevice(node) then [DeviceOf(node)] else [])
            && Templates(flow[..i + 1])
               == Templates(sofar) + (if !Ignored(node) && NamesTemplate(node) then [TemplateOf(node)] else [])
  {
    assert flow[..i + 1][..i] == flow[..i] && flow[..i + 1][i] == flow[i];
  }

  /** The index finds a flow by a device exactly when one of its heads names the device. */
  lemma {:induction false} DeviceIsIndexed(flow: seq<Node>, device: string)
    ensures Some(device) in Devices(flow) <==>
            exists n :: n in flow && !Ignored(n) && NamesDevice(n) && DeviceOf(n) == Some(device)
    decreases |flow|
  {
    if flow != [] {
      var init, last := flow[..|flow| - 1], flow[|flow| - 1];
      DeviceIsIndexed(init, device);
      assert flow == init + [last];
      assert forall n :: n in flow <==> n in init || n == last;
    }
  }

  lemma {:induction false} TemplateIsIndexed(flow: seq<Node>, template: string)
    ensures Some(template) in Templates(flow) <==>
            exists n :: n in flow && !Ignored(n) && NamesTemplate(n) && TemplateOf(n) == Some(template)
    decreases |flow|
  {
    if flow != [] {
      var init, last := flow[..|flow| - 1], flow[|flow| - 1];
      TemplateIsIndexed(init, template);
      assert flow == init + [last];
      assert forall n :: n in flow <==> n in init || n == last;
    }
  }

  /** What a head of the flow is, and what it is found by, kind by kind: the nodes with wires of four kinds. */
  predicate IsHeadOf(n: Node, kind: string) { n.wires.Some? && n.kind == Some(kind) }

  /** The index, exactly: the heads, devices and templates of the nodes of the four kinds. */
  lemma IndexIsOfTheHeads(flow: seq<Node>, id: string, device: string, template: string)
    ensures id in HeadIds(flow) <==>
            exists n :: n in flow && n.id == id
              && (IsHeadOf(n, "event device in") || IsHeadOf(n, "event template in")
                  || IsHeadOf(n, "device in") || IsHeadOf(n, "device template in"))
    ensures Some(device) in Devices(flow) <==>
            exists n :: n in flow
              && ((IsHeadOf(n, "event device in") && n.deviceId == Some(device))
                  || (IsHeadOf(n, "device in") && n.legacyDeviceId == Some(device)))
    ensures Some(template) in Templates(flow) <==>
            exists n :: n in flow
              && ((IsHeadOf(n, "event template in") && n.templateId == Some(template))
                  || (IsHeadOf(n, "device template in") && n.legacyTemplateId == Some(template)))
  {
    HeadIsIndexed(flow, id);
    DeviceIsIndexed(flow, device);
    TemplateIsIndexed(flow, template);
  }

  lemma {:induction false} HeadIsIndexed(flow: seq<Node>, id: string)
    ensures id in HeadIds(flow) <==> exists n :: n in flow && IsHead(n) && n.id == id
    decreases |flow|
  {
    if flow != [] {
      var init, last := flow[..|flow| - 1], flow[|flow| - 1];
      HeadIsIndexed(init, id);
      assert flow == init + [last];
      assert forall n :: n in flow <==> n in init || n == last;
    }
  }

  /** The index is in the order of the nodes. */
  lemma {:induction false} IndexIsInOrder(a: seq<Node>, b: seq<Node>)
    ensures HeadIds(a + b) == HeadIds(a) + HeadIds(b)
    ensures Devices(a + b) == Devices(a) + Devices(b)
    ensures Templates(a + b) == Templates(a) + Templates(b)
    decreases |b|
  {
    if b == [] {
      assert a + b == a;
    } else {
      var init, last := b[..|b| - 1], b[|b| - 1];
      assert (a + b)[..|a + b| - 1] == a + init && (a + b)[|a + b| - 1] == last;
      IndexIsInOrder(a, init);
    }
  }

  /** Which flows parsing accepts. */
  lemma ParsesExactly(flow: seq<Node>)
    ensures Parses(flow) <==>
            forall n :: n in flow ==> n.kind.Some? && (IsHeadOf(n, "device template in") ==> n.legacyTemplateId.Some?)
  {
    if Parses(flow) {
      forall n | n in flow
        ensures n.kind.Some? && (IsHeadOf(n, "device template in") ==> n.legacyTemplateId.Some?)
      {
        var i :| 0 <= i < |flow| && flow[i] == n;
      }
    } else {
      var i :| 0 <= i < |flow|
        && !(flow[i].kind.Some?
             && (!Ignored(flow[i]) && flow[i].kind == Some("device template in") ==> flow[i].legacyTemplateId.Some?));
      assert flow[i] in flow;
    }
  }

  // ---------- the collection ----------

  ghost predicate DistinctIds(flows: seq<StoredFlow>)
  {
    forall i, j :: 0 <= i < j < |flows| ==> flows[i].id != flows[j].id
  }

  /** Every stored index is the index of the stored nodes. */
  ghost predicate AllIndexed(flows: seq<StoredFlow>)
  {
    forall f :: f in flows ==> f.index == IndexOf(f.index.red) && Parses(f.index.red)
  }

  /** The flows that a query on one index field selects. */
  function Select(flows: seq<StoredFlow>, chosen: StoredFlow -> bool): (r: seq<StoredFlow>)
    ensures forall f :: f in r <==> f in flows && chosen(f)
  {
    if flows == [] then [] else (if chosen(flows[0]) then [flows[0]] else []) + Select(flows[1..], chosen)
  }

  class FlowManager {
    var collection: seq<StoredFlow>

    constructor ()
      ensures Valid() && collection == []
    {
      collection := [];
    }

    ghost predicate Valid()
      reads this
    {
      DistinctIds(collection) && AllIndexed(collection)
    }

    /** `parse`.  None: an exception. */
    static method Parse(flow: seq<Node>) returns (parsed: Option<ParsedFlow>)
      ensures parsed.Some? <==> Parses(flow)
      ensures parsed.Some? ==> parsed.value == IndexOf(flow)
    {
      var heads, devices, templates := [], [], [];
      var i := 0;
      while i < |flow|
        invariant 0 <= i <= |flow|
        invariant Parses(flow[..i])
        invariant heads == HeadIds(flow[..i]) && devices == Devices(flow[..i]) && templates == Templates(flow[..i])
      {
        var node := flow[i];
        OneMoreNode(flow, i);
        if node.kind.None? {
          return None;
        }
        if !(node.kind.value == "tab" || node.wires.None?) {
          if node.kind.value == "event device in" {
            heads, devices := heads + [node.id], devices + [node.deviceId];
          } else if node.kind.value == "event template in" {
            heads, templates := heads + [node.id], templates + [node.templateId];
          } else if node.kind.value == "device in" {
            heads, devices := heads + [node.id], devices + [node.legacyDeviceId];
          } else if node.kind.value == "device template in" {
            if node.legacyTemplateId.None? {
              return None;
            }
            heads, templates := heads + [node.id], templates + [node.legacyTemplateId];
          }
        }
        i := i + 1;
      }
      assert flow[..i] == flow;
      return Some(ParsedFlow(heads, devices, templates, flow));
    }

    method Find(flowId: string) returns (at: Option<nat>)
      requires Valid()
      ensures at.Some? ==> at.value < |collection| && collection[at.value].id == flowId
      ensures at.None? ==> forall f :: f in collection ==> f.id != flowId
    {
      var i := 0;
      while i < |collection|
        invariant 0 <= i <= |collection| && forall j :: 0 <= j < i ==> collection[j].id != flowId
      {
        if collection[i].id == flowId {
          return Some(i);
        }
        i := i + 1;
      }
      return None;
    }

    /** `create`, with the identifier that uuid() gave. */
    method Create(title: string, enabled: Given, flow: seq<Node>, id: string) returns (created: bool)
      requires Valid() && forall f :: f in collection ==> f.id != id
      modifies this
      ensures Valid()
      ensures created <==> title != "" && !enabled.Other? && Parses(flow)
      ensures collection == old(collection)
                + if created then [StoredFlow(id, title, enabled.Absent? || enabled.value, IndexOf(flow))] else []
    {
      if title == "" || enabled.Other? {
        return false;
      }
      var parsed := Parse(flow);
      if parsed.None? {
        return false;
      }
      collection := collection + [StoredFlow(id, title, enabled.Absent? || enabled.value, parsed.value)];
      return true;
    }

    /** `set`.  An absent or empty label (`title` here), an absent or false `enabled` and an absent flow keep
        what is stored, so that `set` cannot disable a flow. */
    method Set(flowId: string, title: string, enabled: bool, flow: Option<seq<Node>>) returns (replaced: bool)
      requires Valid()
      modifies this
      ensures Valid() && |collection| == |old(collection)|
      ensures replaced <==> (exists f :: f in old(collection) && f.id == flowId) && (flow.Some? ==> Parses(flow.value))
      ensures !replaced ==> collection == old(collection)
      ensures replaced ==> forall i :: 0 <= i < |collection| ==>
                collection[i] ==
                if old(collection)[i].id != flowId then old(collection)[i]
                else StoredFlow(flowId, if title != "" then title else old(collection)[i].title,
                                enabled || old(collection)[i].enabled,
                                if flow.Some? then IndexOf(flow.value) else old(collection)[i].index)
    {
      var at := Find(flowId);
      if at.None? {
        return false;
      }
      var oldFlow := collection[at.value];
      assert oldFlow in collection;
      var newFlow := oldFlow;
      if flow.Some? {
        var parsed := Parse(flow.value);
        if parsed.None? {
          return false;
        }
        newFlow := newFlow.(index := parsed.value);
      }
      if title != "" {
        newFlow := newFlow.(title := title);
      }
      if enabled {
        newFlow := newFlow.(enabled := true);
      }
      collection := collection[at.value := newFlow];
      return true;
    }

    method Remove(flowId: string) returns (removed: bool)
      requires Valid()
      modifies this
      ensures Valid()
      ensures removed <==> exists f :: f in old(collection) && f.id == flowId
      ensures forall f :: f in collection <==> f in old(collection) && f.id != flowId
    {
      var at := Find(flowId);
      if at.None? {
        return false;
      }
      assert collection[at.value] in collection;
      var before, after := collection[..at.value], collection[at.value + 1..];
      assert collection == before + [collection[at.value]] + after;
      collection := before + after;
      return true;
    }

    method GetByDevice(device: string) returns (flows: seq<StoredFlow>)
      ensures forall f :: f in flows <==> f in collection && Some(device) in f.index.devices
    {
      flows := Select(collection, (f: StoredFlow) => Some(device) in f.index.devices);
    }

    method GetByTemplate(template: string) returns (flows: seq<StoredFlow>)
      ensures forall f :: f in flows <==> f in collection && Some(template) in f.index.templates
    {
      flows := Select(collection, (f: StoredFlow) => Some(template) in f.index.templates);
    }
  }
}
