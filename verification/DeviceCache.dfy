/**
 The cache of device records: filled by create and update events and, on a miss, from the device manager;
 emptied by remove events.
 */
module DeviceCache {
  import opened Options

  datatype Attr = Attr(name: string, kind: string, staticValue: string, specialized: bool)

  /** A device as the device manager knows it; its attributes come template by template. */
  datatype Record = Record(templates: seq<string>, attrs: seq<seq<Attr>>)

  datatype StaticAttr = StaticAttr(value: string, specialized: bool)

  datatype DeviceInfo = DeviceInfo(templates: seq<string>, staticAttrs: map<string, StaticAttr>)

  // ---------- static attributes ----------

  predicate IsStatic(attr: Attr) { attr.kind == "static" && attr.staticValue != "" }

  function Flat(attrs: seq<seq<Attr>>): seq<Attr>
  {
    if attrs == [] then [] else Flat(attrs[..|attrs| - 1]) + attrs[|attrs| - 1]
  }

  function StaticAttrs(attrs: seq<Attr>): map<string, StaticAttr>
  {
    if attrs == [] then map[]
    else
      var before, last := StaticAttrs(attrs[..|attrs| - 1]), attrs[|attrs| - 1];
      if IsStatic(last) then before[last.name := StaticAttr(last.staticValue, last.specialized)] else before
  }

  /** Attribute number i is a static one with a value and the label. */
  predicate Gives(attrs: seq<Attr>, i: int, wanted: string)
  {
    0 <= i < |attrs| && attrs[i].name == wanted && attrs[i].kind == "static" && |attrs[i].staticValue| > 0
  }

  /** Of several static attributes with one label the last one counts; no other attribute does. */
  lemma {:induction false} LastStaticCounts(attrs: seq<Attr>, wanted: string)
    ensures wanted in StaticAttrs(attrs) <==> exists i :: Gives(attrs, i, wanted)
    ensures wanted in StaticAttrs(attrs) ==>
              exists i :: Gives(attrs, i, wanted) && (forall j :: j > i ==> !Gives(attrs, j, wanted))
                && StaticAttrs(attrs)[wanted].value == attrs[i].staticValue
                && StaticAttrs(attrs)[wanted].specialized == attrs[i].specialized
    decreases |attrs|
  {
    if attrs != [] {
      var init, last := attrs[..|attrs| - 1], attrs[|attrs| - 1];
      assert forall i :: 0 <= i < |init| ==> attrs[i] == init[i];
      assert forall i :: Gives(attrs, i, wanted) <==>
          Gives(init, i, wanted) || (i == |init| && Gives(attrs, |init|, wanted));
      LastStaticCounts(init, wanted);
      if Gives(attrs, |init|, wanted) {
        assert forall j :: j > |init| ==> !Gives(attrs, j, wanted);
      } else if wanted in StaticAttrs(init) {
        var i :| Gives(init, i, wanted) && (forall j :: j > i ==> !Gives(init, j, wanted))
          && StaticAttrs(init)[wanted].value == init[i].staticValue
          && StaticAttrs(init)[wanted].specialized == init[i].specialized;
        assert Gives(attrs, i, wanted) && forall j :: j > i ==> !Gives(attrs, j, wanted);
      }
    }
  }

  /** The attributes of all templates are taken template by template. */
  lemma {:induction false} FlatOfTwo(a: seq<seq<Attr>>, b: seq<seq<Attr>>)
    ensures Flat(a + b) == Flat(a) + Flat(b)
    ensures |a| == 1 ==> Flat(a) == a[0]
    decreases |b|
  {
    if b == [] {
      assert a + b == a && Flat(a) + [] == Flat(a);
    } else {
      var init, last := b[..|b| - 1], b[|b| - 1];
      assert (a + b)[..|a + b| - 1] == a + init && (a + b)[|a + b| - 1] == last;
      FlatOfTwo(a, init);
      assert Flat(a) + (Flat(init) + last) == Flat(a) + Flat(init) + last;
    }
    if |a| == 1 {
      assert a[..0] == [] && [] + a[0] == a[0];
    }
  }

  /** Static attributes of later attributes come over those of earlier ones. */
  lemma {:induction false} StaticAttrsMerge(a: seq<Attr>, b: seq<Attr>)
    ensures StaticAttrs(a + b) == StaticAttrs(a) + StaticAttrs(b)
    decreases |b|
  {
    if b == [] {
      assert a + b == a;
    } else {
      var init, last := b[..|b| - 1], b[|b| - 1];
      assert a + b == a + init + [last] && b == init + [last];
      StaticAttrsMerge(a, init);
      OneMoreAttr(a + init, last);
      OneMoreAttr(init, last);
    }
  }

  /** What is cached of a device: its templates, and its static attributes template by template, those of a later
      one over those of an earlier one. */
  lemma InfoIsOfTheRecord(templates: seq<string>, earlier: seq<seq<Attr>>, last: seq<Attr>)
    ensures InfoOf(Record(templates, [])) == DeviceInfo(templates, map[])
    ensures InfoOf(Record(templates, earlier + [last]))
         == DeviceInfo(templates, InfoOf(Record(templates, earlier)).staticAttrs + StaticAttrs(last))
  {
    FlatOfTwo(earlier, [last]);
    FlatOfTwo([last], []);
    StaticAttrsMerge(Flat(earlier), last);
  }

  lemma OneMoreAttr(attrs: seq<Attr>, attr: Attr)
    ensures StaticAttrs(attrs + [attr])
         == if IsStatic(attr) then StaticAttrs(attrs)[attr.name := StaticAttr(attr.staticValue, attr.specialized)]
            else StaticAttrs(attrs)
  {
    assert (attrs + [attr])[..|attrs|] == attrs;
  }

  /** `_addStaticAttrs`: the loop over the templates. */
  method AddStaticAttrs(attrs: seq<seq<Attr>>) returns (result: map<string, StaticAttr>)
    ensures result == StaticAttrs(Flat(attrs))
  {
    result := map[];
    var t := 0;
    while t < |attrs|
      invariant 0 <= t <= |attrs| && result == StaticAttrs(Flat(attrs[..t]))
    {
      assert attrs[..t + 1][..t] == attrs[..t];
      result := AddTemplateAttrs(attrs[t], result, Flat(attrs[..t]));
      t := t + 1;
    }
    assert attrs[..t] == attrs;
  }

  /** The loop over the attributes of one template. */
  method AddTemplateAttrs(attrs: seq<Attr>, sofar: map<string, StaticAttr>, ghost before: seq<Attr>)
    returns (result: map<string, StaticAttr>)
    requires sofar == StaticAttrs(before)
    ensures result == StaticAttrs(before + attrs)
  {
    result := sofar;
    assert before + attrs[..0] == before;
    var k := 0;
    while k < |attrs|
      invariant 0 <= k <= |attrs| && result == StaticAttrs(before + attrs[..k])
    {
      var attr := attrs[k];
      OneMoreAttr(before + attrs[..k], attr);
      assert before + attrs[..k + 1] == before + attrs[..k] + [attr];
      if attr.kind == "static" && attr.staticValue != "" {
        result := result[attr.name := StaticAttr(attr.staticValue, attr.specialized)];
      }
      k := k + 1;
    }
    assert attrs[..k] == attrs;
  }

  function InfoOf(record: Record): DeviceInfo { DeviceInfo(record.templates, StaticAttrs(Flat(record.attrs))) }

  // ---------- the cache as code ----------

  /** One request to the device manager and the write that follows it: the response, if there is one, whether
      the cache is ready then, and whether it accepts the write. */
  datatype Attempt = Attempt(response: Option<Record>, ready: bool, writes: bool)

  /** What an attempt gives its caller. */
  function Obtained(a: Attempt): Option<DeviceInfo>
  {
    if a.response.Some? && (a.ready ==> a.writes) then Some(InfoOf(a.response.value)) else None
  }

  /** What the cache holds for the device after an attempt. */
  function Refreshed(a: Attempt, cached: Option<DeviceInfo>): Option<DeviceInfo>
  {
    if a.response.Some? && a.ready && a.writes then Some(InfoOf(a.response.value)) else cached
  }

  /** What a lookup gives: the cached record, or what the device manager answers, to the second attempt if the
      first came from a cache miss and failed. */
  function Found(cached: Option<DeviceInfo>, ready: bool, readable: bool, first: Attempt, second: Attempt)
    : Option<DeviceInfo>
  {
    if !(ready && readable) then Obtained(first)
    else if cached.Some? then cached
    else if Obtained(first).Some? then Obtained(first)
    else Obtained(second)
  }

  /** What the cache holds for the device after a lookup. */
  function CachedAfter(cached: Option<DeviceInfo>, ready: bool, readable: bool, first: Attempt, second: Attempt)
    : Option<DeviceInfo>
  {
    if !(ready && readable) then Refreshed(first, cached)
    else if cached.Some? then cached
    else if Obtained(first).Some? then Refreshed(first, None)
    else Refreshed(second, None)
  }

  /** Whatever a lookup gives, it is a cached record or the answer of the device manager; and a record that it has
      fetched is cached if the cache was ready. */
  lemma LookupGivesARecord(cached: Option<DeviceInfo>, ready: bool, readable: bool, first: Attempt, second: Attempt)
    requires Found(cached, ready, readable, first, second).Some?
    ensures var info := Found(cached, ready, readable, first, second);
            || info == cached
            || (first.response.Some? && info == Some(InfoOf(first.response.value)))
            || (second.response.Some? && info == Some(InfoOf(second.response.value)))
    ensures first.ready && second.ready ==>
              CachedAfter(cached, ready, readable, first, second) == Found(cached, ready, readable, first, second)
  {
  }

  class DeviceCache {
    var client: map<string, DeviceInfo>

    constructor ()
      ensures client == map[]
    {
      client := map[];
    }

    function At(key: string): Option<DeviceInfo>
      reads this
    {
      if key in client then Some(client[key]) else None
    }

    twostate predicate OnlyKey(key: string)
      reads this
    {
      forall k :: k != key ==> At(k) == old(At(k))
    }

    method WriteDeviceInfo(key: string, info: DeviceInfo, succeeds: bool)
      modifies this
      ensures At(key) == (if succeeds then Some(info) else old(At(key))) && OnlyKey(key)
    {
      if succeeds {
        client := client[key := info];
      }
    }

    method AddDevice(key: string, created: Record, succeeds: bool)
      modifies this
      ensures At(key) == (if succeeds then Some(InfoOf(created)) else old(At(key))) && OnlyKey(key)
    {
      var attrs := AddStaticAttrs(created.attrs);
      WriteDeviceInfo(key, DeviceInfo(created.templates, attrs), succeeds);
    }

    method DeleteDevice(key: string, succeeds: bool)
      modifies this
      ensures At(key) == (if succeeds then None else old(At(key))) && OnlyKey(key)
    {
      if succeeds {
        client := client - {key};
      }
    }

    method RequestDeviceInfo(key: string, attempt: Attempt) returns (info: Option<DeviceInfo>)
      modifies this
      ensures info == Obtained(attempt)
      ensures At(key) == Refreshed(attempt, old(At(key))) && OnlyKey(key)
    {
      if attempt.response.None? {
        return None;
      }
      var attrs := AddStaticAttrs(attempt.response.value.attrs);
      var deviceInfo := DeviceInfo(attempt.response.value.templates, attrs);
      if attempt.ready {
        WriteDeviceInfo(key, deviceInfo, attempt.writes);
        return if attempt.writes then Some(deviceInfo) else None;
      }
      return Some(deviceInfo);
    }

    /** `getDeviceInfo`.  A cached record is returned as it is.  Otherwise the device manager is asked, and
        asked again when the first attempt came from a cache miss and failed. */
    method GetDeviceInfo(key: string, ready: bool, readable: bool, first: Attempt, second: Attempt)
      returns (info: Option<DeviceInfo>)
      modifies this
      ensures OnlyKey(key)
      ensures info == Found(old(At(key)), ready, readable, first, second)
      ensures At(key) == CachedAfter(old(At(key)), ready, readable, first, second)
    {
      if ready && readable {
        if key in client {
          return Some(client[key]);
        }
        info := RequestDeviceInfo(key, first);
        if info.None? {
          info := RequestDeviceInfo(key, second);
        }
      } else {
        info := RequestDeviceInfo(key, first);
      }
    }
  }
}
