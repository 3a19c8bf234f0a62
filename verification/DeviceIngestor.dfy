/**
 Pre-processing an event: the device cache is brought up to date or asked, the static attributes of the device
 are added, the event is dispatched, and the delivery is acknowledged.
 */
module DeviceIngestor {
  import opened Options
  import opened DottedPath
  import opened Flows
  import opened FlowManager
  import opened Ingestor
  import Cache = DeviceCache

  /** The attributes that a message carries, if it carries any. */
  type Attributes = Option<map<string, Json>>

  /** What a delivery of the event queue holds. */
  datatype Incoming =
    | Unreadable                                                                   // not JSON, or another source
    | Malformed(fromManager: bool)                                                 // a message that does not parse
    | ManagerEvent(kind: string, tenant: string, device: string, record: Cache.Record, attrs: Attributes)
    | DeviceData(tenant: string, device: string, timestamp: Option<int>, attrs: Attributes)

  /** How the calls to the cache and to the device manager go. */
  datatype Calls = Calls(ready: bool, readable: bool, first: Cache.Attempt, second: Cache.Attempt,
                         stores: bool, deletes: bool)

  function Key(tenant: string, device: string): string { tenant + ":" + device }

  /** A tenant's name has no colon; then keys are different for different devices. */
  lemma {:induction false} KeysAreDifferent(a: string, d: string, b: string, e: string)
    requires ':' !in a && ':' !in b && Key(a, d) == Key(b, e)
    ensures a == b && d == e
    decreases |a|
  {
    assert Key(a, d)[0] == if a == "" then ':' else a[0];
    assert Key(b, e)[0] == if b == "" then ':' else b[0];
    if a == "" {
      assert Key(a, d)[1..] == d && Key(b, e)[1..] == e;
    } else {
      assert Key(a, d)[1..] == Key(a[1..], d) && Key(b, e)[1..] == Key(b[1..], e);
      KeysAreDifferent(a[1..], d, b[1..], e);
      assert a == [a[0]] + a[1..] && b == [b[0]] + b[1..];
    }
  }

  function StaticValues(info: Cache.DeviceInfo): map<string, Json>
  {
    map k | k in info.staticAttrs :: Text(info.staticAttrs[k].value)
  }

  /** The static attributes with some of the labels. */
  function SomeValues(info: Cache.DeviceInfo, labels: set<string>): map<string, Json>
  {
    map k | k in info.staticAttrs && k in labels :: Text(info.staticAttrs[k].value)
  }

  lemma OneMoreValue(attrs: map<string, Json>, info: Cache.DeviceInfo, labels: set<string>, attr: string)
    requires attr in info.staticAttrs
    ensures attrs + SomeValues(info, labels + {attr})
         == (attrs + SomeValues(info, labels))[attr := Text(info.staticAttrs[attr].value)]
  {
    assert SomeValues(info, labels + {attr}) == SomeValues(info, labels)[attr := Text(info.staticAttrs[attr].value)];
  }

  lemma FirstAndLastValues(attrs: map<string, Json>, info: Cache.DeviceInfo)
    ensures attrs + SomeValues(info, {}) == attrs
    ensures SomeValues(info, info.staticAttrs.Keys) == StaticValues(info)
  {
    assert SomeValues(info, {}) == map[];
  }

  /** The static attributes copied over those of the event.  With none to copy to, the first copy throws. */
  datatype Merged = CopyThrows | Merged(attrs: Attributes)

  function WithStatic(attrs: Attributes, info: Cache.DeviceInfo): Merged
  {
    if attrs.Some? then Merged(Some(attrs.value + StaticValues(info)))
    else if info.staticAttrs.Keys == {} then Merged(None)
    else CopyThrows
  }

  /** The loop that copies them. */
  method AddStatic(attrs: Attributes, info: Cache.DeviceInfo) returns (result: Merged)
    ensures result == WithStatic(attrs, info)
  {
    if attrs.None? {
      return if info.staticAttrs.Keys == {} then Merged(None) else CopyThrows;
    }
    var merged := CopyStatic(attrs.value, info);
    return Merged(Some(merged));
  }

  method CopyStatic(attrs: map<string, Json>, info: Cache.DeviceInfo) returns (merged: map<string, Json>)
    ensures merged == attrs + StaticValues(info)
  {
    merged := attrs;
    var left := info.staticAttrs.Keys;
    ghost var done: set<string> := {};
    FirstAndLastValues(attrs, info);
    while left != {}
      invariant left <= info.staticAttrs.Keys && left + done == info.staticAttrs.Keys
      invariant merged == attrs + SomeValues(info, done)
      decreases |left|
    {
      var attr :| attr in left;
      OneMoreValue(attrs, info, done, attr);
      merged := merged[attr := Text(info.staticAttrs[attr].value)];
      left := left - {attr};
      done := done + {attr};
    }
    assert done == info.staticAttrs.Keys;
  }

  /** The rest of a message: how its attributes are presented to the flows. */
  type Layout = Attributes -> Json

  function EventFor(device: string, templates: seq<string>, kind: string, attrs: Attributes, tenant: string,
                    timestamp: Option<int>, layout: Layout): Event
  {
    Event(device, templates, kind, layout(attrs), if attrs.Some? then Some(Object(attrs.value)) else None,
          Metadata(tenant, device, timestamp))
  }

  /** What is cached for a created or updated device: without attributes, there are no static ones. */
  function Stored(record: Cache.Record, attrs: Attributes): Cache.Record
  {
    if attrs.None? then record.(attrs := []) else record
  }

  /** The event that is dispatched, given what the lookup of the device gives, if one is made.  None: the event
      comes to nothing. */
  function Dispatched(incoming: Incoming, info: Option<Cache.DeviceInfo>, layout: Layout): Option<Event>
  {
    match incoming
    case Unreadable => None
    case Malformed(_) => None
    case ManagerEvent(kind, tenant, device, record, attrs) =>
      if kind == "create" || kind == "update" then
        if attrs.None? then None   // their transformation throws
        else Some(EventFor(device, record.templates, kind, attrs, tenant, None, layout))
      else if info.None? then None
      else if kind == "remove" then Some(EventFor(device, info.value.templates, kind, attrs, tenant, None, layout))
      else if kind == "configure" then
        match WithStatic(attrs, info.value)
        case CopyThrows => None
        case Merged(all) => Some(EventFor(device, info.value.templates, kind, all, tenant, None, layout))
      else None
    case DeviceData(tenant, device, timestamp, attrs) =>
      if info.None? then None
      else
        match WithStatic(attrs, info.value)
        case CopyThrows => None
        case Merged(all) => Some(EventFor(device, info.value.templates, "publish", all, tenant, timestamp, layout))
  }

  predicate LooksUp(incoming: Incoming)
  {
    incoming.DeviceData? || (incoming.ManagerEvent? && (incoming.kind == "remove" || incoming.kind == "configure"))
  }

  /** What the cache holds for the device afterwards. */
  function CachedThen(incoming: Incoming, cached: Option<Cache.DeviceInfo>, calls: Calls): Option<Cache.DeviceInfo>
  {
    if incoming.ManagerEvent? && (incoming.kind == "create" || incoming.kind == "update") then
      if calls.stores then Some(Cache.InfoOf(Stored(incoming.record, incoming.attrs))) else cached
    else if !LooksUp(incoming) then cached
    else
      var after := Cache.CachedAfter(cached, calls.ready, calls.readable, calls.first, calls.second);
      var found := Cache.Found(cached, calls.ready, calls.readable, calls.first, calls.second);
      if incoming.ManagerEvent? && incoming.kind == "remove" && found.Some? && calls.deletes then None else after
  }

  /** The first tasks of an event: those of the heads that the flows it reaches fire. */
  ghost function TasksExpected(flows: seq<StoredFlow>, event: Option<Event>): multiset<Task>
  {
    if event.None? then multiset{} else multiset(TasksOf(DispatchedFirings(flows, event.value), event.value))
  }

  /** They are as the scan of all nodes of all flows has them, if no flow that the event reaches misfires. */
  lemma ExpectedIsScanned(flows: seq<StoredFlow>, event: Event)
    requires DistinctIds(flows) && NothingMisfires(flows, event)
    ensures TasksExpected(flows, Some(event)) == multiset(TasksOf(ScannedFirings(flows, event), event))
  {
    DispatchIsScanExactly(flows, event);
  }

  class DeviceIngestor {
    const deviceCache: Cache.DeviceCache
    const flowManager: FlowManager
    var acks: nat

    constructor (deviceCache: Cache.DeviceCache, flowManager: FlowManager)
      ensures this.deviceCache == deviceCache && this.flowManager == flowManager && acks == 0
    {
      this.deviceCache, this.flowManager, acks := deviceCache, flowManager, 0;
    }

    ghost predicate Valid()
      reads this, flowManager
    {
      flowManager.Valid()
    }

    /** What is to happen for an event of a device: what is cached for it then, and what is sent. */
    twostate predicate Handled(incoming: Incoming, layout: Layout, calls: Calls, tasks: seq<Task>)
      requires incoming.ManagerEvent? || incoming.DeviceData?
      reads this, deviceCache, flowManager
    {
      var key := Key(incoming.tenant, incoming.device);
      var cached := old(deviceCache.At(key));
      var info := if LooksUp(incoming) then Cache.Found(cached, calls.ready, calls.readable, calls.first, calls.second)
                  else None;
      && deviceCache.OnlyKey(key) && deviceCache.At(key) == CachedThen(incoming, cached, calls)
      && multiset(tasks) == TasksExpected(flowManager.collection, Dispatched(incoming, info, layout))
    }

    /** `preProcessEvent`: whatever happens, the delivery is acknowledged once; and an event that is not lost on
        the way sends its first tasks. */
    method PreProcessEvent(incoming: Incoming, layout: Layout, calls: Calls) returns (tasks: seq<Task>)
      requires Valid()
      modifies this`acks, deviceCache
      ensures Valid() && acks == old(acks) + 1
      ensures incoming.Unreadable? || incoming.Malformed? ==>
                tasks == [] && deviceCache.client == old(deviceCache.client)
      ensures incoming.ManagerEvent? || incoming.DeviceData? ==> Handled(incoming, layout, calls, tasks)
    {
      tasks := [];
      match incoming {
        case Unreadable =>
        case Malformed(_) =>
        case ManagerEvent(_, _, _, _, _) => tasks := PreProcessDeviceManagerEvent(incoming, layout, calls);
        case DeviceData(_, _, _, _) => tasks := PreProcessDeviceEvent(incoming, layout, calls);
      }
      acks := acks + 1;
    }

    method PreProcessDeviceManagerEvent(incoming: Incoming, layout: Layout, calls: Calls) returns (tasks: seq<Task>)
      requires Valid() && incoming.ManagerEvent?
      modifies deviceCache
      ensures Handled(incoming, layout, calls, tasks)
    {
      var ManagerEvent(kind, tenant, device, record, attrs) := incoming;
      tasks := [];
      if kind == "create" || kind == "update" {
        deviceCache.AddDevice(Key(tenant, device), Stored(record, attrs), calls.stores);
        if attrs.None? {
          return;
        }
        tasks := HandleEvent(flowManager, EventFor(device, record.templates, kind, attrs, tenant, None, layout));
      } else if kind == "remove" || kind == "configure" {
        var info := LookUpDevice(tenant, device, calls);
        if info.None? {
          return;
        }
        var merged := Merged(attrs);
        if kind == "remove" {
          deviceCache.DeleteDevice(Key(tenant, device), calls.deletes);
        } else {
          merged := AddStatic(attrs, info.value);
          if merged.CopyThrows? {
            return;
          }
        }
        tasks := HandleEvent(flowManager,
                             EventFor(device, info.value.templates, kind, merged.attrs, tenant, None, layout));
      }
    }

    method PreProcessDeviceEvent(incoming: Incoming, layout: Layout, calls: Calls) returns (tasks: seq<Task>)
      requires Valid() && incoming.DeviceData?
      modifies deviceCache
      ensures Handled(incoming, layout, calls, tasks)
    {
      var DeviceData(tenant, device, timestamp, attrs) := incoming;
      var info := LookUpDevice(tenant, device, calls);
      if info.None? {
        return [];
      }
      var merged := AddStatic(attrs, info.value);
      if merged.CopyThrows? {
        return [];
      }
      tasks := HandleEvent(flowManager,
                           EventFor(device, info.value.templates, "publish", merged.attrs, tenant, timestamp, layout));
    }

    method LookUpDevice(tenant: string, device: string, calls: Calls) returns (info: Option<Cache.DeviceInfo>)
      modifies deviceCache
      ensures var key := Key(tenant, device);
              && info == Cache.Found(old(deviceCache.At(key)), calls.ready, calls.readable, calls.first, calls.second)
              && deviceCache.At(key)
                 == Cache.CachedAfter(old(deviceCache.At(key)), calls.ready, calls.readable, calls.first, calls.second)
              && deviceCache.OnlyKey(key)
    {
      info := deviceCache.GetDeviceInfo(Key(tenant, device), calls.ready, calls.readable, calls.first, calls.second);
    }
  }

  // ---------- what is dispatched ----------

  /** The labels that the event carries or the lookup gives, a static attribute before one of the event. */
  ghost predicate HasStaticOver(merged: Attributes, attrs: Attributes, info: Cache.DeviceInfo)
  {
    if attrs.None? then merged.None? && info.staticAttrs.Keys == {}
    else
      && merged.Some? && merged.value.Keys == attrs.value.Keys + info.staticAttrs.Keys
      && forall k :: k in merged.value ==>
           merged.value[k] == if k in info.staticAttrs then Text(info.staticAttrs[k].value) else attrs.value[k]
  }

  /** The event is about the device and its message, and shows these attributes. */
  predicate Presents(e: Event, device: string, templates: seq<string>, source: string, tenant: string,
                     timestamp: Option<int>, attrs: Attributes, layout: Layout)
  {
    && e.device == device && e.templates == templates && e.source == source
    && e.metadata.tenant == tenant && e.metadata.originator == device && e.metadata.timestamp == timestamp
    && e.payload == layout(attrs)
    && (attrs.None? ==> e.attrs.None?) && (attrs.Some? ==> e.attrs == Some(Object(attrs.value)))
  }

  /** What is dispatched for an event that is not lost, kind by kind. */
  lemma DispatchedPresents(incoming: Incoming, info: Option<Cache.DeviceInfo>, layout: Layout)
    requires Dispatched(incoming, info, layout).Some?
    ensures var e := Dispatched(incoming, info, layout).value;
            match incoming
            case ManagerEvent(kind, tenant, device, record, attrs) =>
              if kind == "create" || kind == "update" then
                Presents(e, device, record.templates, kind, tenant, None, attrs, layout)
              else if kind == "remove" then
                info.Some? && Presents(e, device, info.value.templates, "remove", tenant, None, attrs, layout)
              else
                && kind == "configure" && info.Some?
                && exists merged ::
                     HasStaticOver(merged, attrs, info.value)
                     && Presents(e, device, info.value.templates, "configure", tenant, None, merged, layout)
            case DeviceData(tenant, device, timestamp, attrs) =>
              && info.Some?
              && exists merged ::
                   HasStaticOver(merged, attrs, info.value)
                   && Presents(e, device, info.value.templates, "publish", tenant, timestamp, merged, layout)
            case _ => false
  {
    if LooksUp(incoming) && info.Some? && !(incoming.ManagerEvent? && incoming.kind == "remove") {
      var merged := WithStatic(incoming.attrs, info.value).attrs;
      assert HasStaticOver(merged, incoming.attrs, info.value);
    }
  }

  /** What is cached afterwards, kind by kind: a create or update event stores the record if the write succeeds; a
      remove event deletes the entry if its lookup gives a record and the deletion succeeds; a lookup keeps a cached
      record that it could read; events of other kinds touch nothing. */
  lemma CachedThenExactly(incoming: Incoming, cached: Option<Cache.DeviceInfo>, calls: Calls)
    ensures incoming.ManagerEvent? && incoming.kind in {"create", "update"} ==>
              CachedThen(incoming, cached, calls) ==
              if !calls.stores then cached
              else Some(Cache.InfoOf(Cache.Record(incoming.record.templates,
                                                  if incoming.attrs.Some? then incoming.record.attrs else [])))
    ensures incoming.ManagerEvent? && incoming.kind == "remove" && !LookupFails(cached, calls) && calls.deletes ==>
              CachedThen(incoming, cached, calls) == None
    ensures incoming.ManagerEvent? && incoming.kind == "remove" && LookupFails(cached, calls) ==>
              CachedThen(incoming, cached, calls) == cached
    ensures incoming.ManagerEvent? && incoming.kind == "remove" && !calls.deletes ==>
              CachedThen(incoming, cached, calls)
              == CachedThen(DeviceData(incoming.tenant, incoming.device, None, incoming.attrs), cached, calls)
    ensures LooksUp(incoming) && calls.ready && calls.readable && cached.Some? ==>
              CachedThen(incoming, cached, calls) == None || CachedThen(incoming, cached, calls) == cached
    ensures incoming.DeviceData? && calls.ready && calls.readable && cached.Some? ==>
              CachedThen(incoming, cached, calls) == cached
    ensures incoming.Unreadable? || incoming.Malformed?
            || (incoming.ManagerEvent? && incoming.kind !in {"create", "update", "remove", "configure"}) ==>
              CachedThen(incoming, cached, calls) == cached
  {
  }

  /** A head for one of the templates of the record gets the create or update event, and one for a template that the
      lookup gives gets the device data, along each of its wires. */
  lemma TemplateHeadGetsTheEvent(flows: seq<StoredFlow>, incoming: Incoming, info: Option<Cache.DeviceInfo>,
                                 layout: Layout, f: StoredFlow, n: Node, template: string, o: nat, k: nat)
    requires DistinctIds(flows) && f in flows && n in f.index.red && n.kind == Some("event template in")
    requires n.templateId == Some(template) && n.wires.Some? && o < |n.wires.value| && k < |n.wires.value[o]|
    requires n.id in NodeMap(f.index.red) && NodeMap(f.index.red)[n.id] == n
    requires match incoming
             case ManagerEvent(kind, _, _, record, attrs) =>
               && kind in n.events && kind in {"create", "update", "remove", "configure"}
               && (if kind in {"create", "update"} then template in record.templates && attrs.Some?
                   else info.Some? && template in info.value.templates
                        && (kind == "remove" || attrs.Some? || info.value.staticAttrs.Keys == {}))
             case DeviceData(_, _, _, attrs) =>
               && "publish" in n.events && info.Some? && template in info.value.templates
               && (attrs.Some? || info.value.staticAttrs.Keys == {})
             case _ => false
    ensures Dispatched(incoming, info, layout).Some?
    ensures exists message, timestamp ::
              Task(n.wires.value[o][k], Object(map["payload" := message]), Wiring(f.id, NodeMap(f.index.red)),
                   Metadata(incoming.tenant, incoming.device, timestamp))
              in TasksExpected(flows, Dispatched(incoming, info, layout))
  {
    var e := Dispatched(incoming, info, layout).value;
    DispatchedPresents(incoming, info, layout);
    assert IsFor(n, e);
    HeadGetsItsEvent(flows, e, f, n, o, k);
  }

  // ---------- when an event comes to nothing ----------

  /** The request to the device manager gives nothing: it is not answered, or the cache refuses the answer. */
  predicate Fails(attempt: Cache.Attempt)
  {
    attempt.response.None? || (attempt.ready && !attempt.writes)
  }

  predicate LookupFails(cached: Option<Cache.DeviceInfo>, calls: Calls)
  {
    if calls.ready && calls.readable then cached.None? && Fails(calls.first) && Fails(calls.second)
    else Fails(calls.first)
  }

  /** The lookup gives a static attribute. */
  predicate FindsStatic(cached: Option<Cache.DeviceInfo>, calls: Calls)
  {
    var found := Cache.Found(cached, calls.ready, calls.readable, calls.first, calls.second);
    found.Some? && found.value.staticAttrs.Keys != {}
  }

  /** The event has nothing to fire with: a message that is not understood, or one without the attributes that are
      transformed or extended. */
  predicate IsUseless(incoming: Incoming, cached: Option<Cache.DeviceInfo>, calls: Calls)
  {
    match incoming
    case ManagerEvent(kind, _, _, _, attrs) =>
      || kind !in {"create", "update", "remove", "configure"}
      || (kind in {"create", "update"} && attrs.None?)
      || (kind == "configure" && attrs.None? && FindsStatic(cached, calls))
    case DeviceData(_, _, _, attrs) => attrs.None? && FindsStatic(cached, calls)
    case _ => true
  }

  /** Exactly when an event comes to nothing, from what is cached and how the calls go.  A write to the cache that
      fails loses an event that has asked the device manager, but never a create or update event. */
  lemma LostExactly(incoming: Incoming, cached: Option<Cache.DeviceInfo>, calls: Calls, layout: Layout)
    ensures var info := if LooksUp(incoming)
                        then Cache.Found(cached, calls.ready, calls.readable, calls.first, calls.second) else None;
            Dispatched(incoming, info, layout).None? <==>
              IsUseless(incoming, cached, calls) || (LooksUp(incoming) && LookupFails(cached, calls))
  {
    if LooksUp(incoming) {
      assert LookupFails(cached, calls)
         <==> Cache.Found(cached, calls.ready, calls.readable, calls.first, calls.second).None?;
    }
  }
}
