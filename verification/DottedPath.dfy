/**
 `_get` and `_set` of the data handler base class: reading and writing a message by a dotted path.
 Messages are value trees.
 */
module DottedPath {
  import opened Options

  datatype Json =
    | Object(fields: map<string, Json>)
    | Text(text: string)
    | Number(number: int)
    | Boolean(value: bool)
    | Null

  /** `field.match(/([^.]+)/g)`: the maximal runs of characters other than dots. */
  function Keys(field: string): (keys: seq<string>)
    ensures forall k :: k in keys ==> k != ""
  {
    SplitKeys(field, "")
  }

  function SplitKeys(field: string, current: string): (keys: seq<string>)
    ensures forall k :: k in keys ==> k != ""
    decreases field
  {
    var done := if current == "" then [] else [current];
    if field == "" then done
    else if field[0] == '.' then done + SplitKeys(field[1..], "")
    else SplitKeys(field[1..], current + [field[0]])
  }

  // ---------- what the keys of a path are ----------

  /** A dot separates: what comes before it and what comes after it have their own keys. */
  lemma {:induction false} SplitAtDot(a: string, b: string, current: string)
    ensures SplitKeys(a + "." + b, current) == SplitKeys(a, current) + SplitKeys(b, "")
    decreases |a|
  {
    var field := a + "." + b;
    if a == "" {
      assert field[0] == '.' && field[1..] == b;
    } else {
      assert field[0] == a[0] && field[1..] == a[1..] + "." + b;
      SplitAtDot(a[1..], b, if a[0] == '.' then "" else current + [a[0]]);
      var done := if current == "" then [] else [current];
      if a[0] == '.' {
        assert done + (SplitKeys(a[1..], "") + SplitKeys(b, "")) == done + SplitKeys(a[1..], "") + SplitKeys(b, "");
      }
    }
  }

  lemma {:induction false} NothingToSplit(s: string, current: string)
    requires '.' !in s
    ensures SplitKeys(s, current) == if current + s == "" then [] else [current + s]
    decreases |s|
  {
    if s == "" {
      assert current + s == current;
    } else {
      NothingToSplit(s[1..], current + [s[0]]);
      assert current + [s[0]] + s[1..] == current + s;
    }
  }

  /** A text without a dot is its own key, and dots separate: this decides the keys of every path. */
  lemma KeysAreSeparatedByDots(a: string, b: string)
    ensures Keys(a + "." + b) == Keys(a) + Keys(b)
    ensures '.' !in a && a != "" ==> Keys(a) == [a]
    ensures Keys("") == []
  {
    SplitAtDot(a, b, "");
    if '.' !in a {
      NothingToSplit(a, "");
      assert "" + a == a;
    }
  }

  /** Leading, trailing and doubled dots change nothing. */
  lemma ExtraDotsChangeNothing(a: string, b: string)
    ensures Keys("." + a) == Keys(a) && Keys(a + ".") == Keys(a)
    ensures Keys(a + ".." + b) == Keys(a + "." + b)
  {
    KeysAreSeparatedByDots("", a);
    KeysAreSeparatedByDots(a, "");
    KeysAreSeparatedByDots(a, b);
    KeysAreSeparatedByDots(a, "." + b);
    KeysAreSeparatedByDots("", b);
    assert "" + "." + a == "." + a && a + "." + "" == a + "." && "" + "." + b == "." + b;
    assert a + ".." + b == a + "." + ("." + b);
    assert [] + Keys(a) == Keys(a) && Keys(a) + [] == Keys(a) && [] + Keys(b) == Keys(b);
  }

  /** Keys joined by single dots. */
  function Joined(keys: seq<string>): string
  {
    if keys == [] then "" else if |keys| == 1 then keys[0] else keys[0] + "." + Joined(keys[1..])
  }

  predicate ProperKeys(keys: seq<string>) { forall k :: k in keys ==> k != "" && '.' !in k }

  /** Splitting undoes joining. */
  lemma {:induction false} SplitUndoesJoin(keys: seq<string>)
    requires ProperKeys(keys)
    ensures Keys(Joined(keys)) == keys
    decreases |keys|
  {
    if keys == [] {
    } else if |keys| == 1 {
      assert keys[0] in keys;
      KeysAreSeparatedByDots(keys[0], "");
    } else {
      assert keys[0] in keys && forall k :: k in keys[1..] ==> k in keys;
      SplitUndoesJoin(keys[1..]);
      KeysAreSeparatedByDots(keys[0], Joined(keys[1..]));
    }
  }

  lemma {:induction false} SplitsAreProper(field: string, current: string)
    requires '.' !in current
    ensures ProperKeys(SplitKeys(field, current))
    ensures SplitKeys(field, current) == [] <==> (current == "" && forall i :: 0 <= i < |field| ==> field[i] == '.')
    decreases |field|
  {
    if field != "" {
      assert field == [field[0]] + field[1..];
      var rest := if field[0] == '.' then "" else current + [field[0]];
      SplitsAreProper(field[1..], rest);
      assert forall i :: 0 <= i < |field| ==> field[i] == if i == 0 then field[0] else field[1..][i - 1];
      assert forall i :: 0 <= i < |field[1..]| ==> field[1..][i] == field[i + 1];
    }
  }

  /** No key is empty or has a dot in it, and only a text of dots has none. */
  lemma KeysAreProper(field: string)
    ensures ProperKeys(Keys(field))
    ensures Keys(field) == [] <==> forall i :: 0 <= i < |field| ==> field[i] == '.'
  {
    SplitsAreProper(field, "");
  }

  /** The number that a key stands for: decimal digits without a leading zero. */
  function Position(key: string): Option<nat>
  {
    if key == "" || !('0' <= key[|key| - 1] <= '9') then None
    else
      var digit: nat := (key[|key| - 1] - '0') as int;
      if |key| == 1 then Some(digit)
      else
        match Position(key[..|key| - 1])
        case None => None
        case Some(n) => if n == 0 then None else Some(10 * n + digit)
  }

  /** The decimal digits of a number. */
  function Decimal(n: nat): string
  {
    (if n < 10 then "" else Decimal(n / 10)) + ["0123456789"[n % 10]]
  }

  lemma {:induction false} DecimalIsPosition(n: nat)
    ensures Position(Decimal(n)) == Some(n)
    decreases n
  {
    var s := Decimal(n);
    if n >= 10 {
      DecimalIsPosition(n / 10);
      assert s[..|s| - 1] == Decimal(n / 10);
    }
  }

  lemma DigitAt(c: char)
    requires '0' <= c <= '9'
    ensures ["0123456789"[(c - '0') as int]] == [c]
  {
  }

  lemma PositionOfMore(init: string, last: char)
    requires init != "" && Position(init + [last]).Some?
    ensures '0' <= last <= '9' && Position(init).Some? && Position(init).value > 0
    ensures Position(init + [last]).value == 10 * Position(init).value + (last - '0') as int
  {
    var key := init + [last];
    assert key[..|key| - 1] == init && key[|key| - 1] == last;
  }

  lemma {:induction false} PositionIsCanonical(init: string, last: char)
    requires Position(init + [last]).Some?
    ensures init + [last] == Decimal(Position(init + [last]).value)
    decreases |init|
  {
    if init == "" {
      DigitAt(last);
      assert init + [last] == [last];
    } else {
      PositionOfMore(init, last);
      assert init == init[..|init| - 1] + [init[|init| - 1]];
      PositionIsCanonical(init[..|init| - 1], init[|init| - 1]);
      OneMoreDigit(Position(init).value, (last - '0') as int);
      DigitAt(last);
    }
  }

  lemma OneMoreDigit(n: nat, digit: nat)
    requires n > 0 && digit < 10
    ensures Decimal(10 * n + digit) == Decimal(n) + ["0123456789"[digit]]
  {
    var m := 10 * n + digit;
    assert m / 10 == n && m % 10 == digit;
  }

  /** The keys that stand for a number are its decimal digits, and no others. */
  lemma PositionIsDecimal(key: string, n: nat)
    ensures Position(key) == Some(n) <==> key == Decimal(n)
  {
    if Position(key) == Some(n) {
      assert key == key[..|key| - 1] + [key[|key| - 1]];
      PositionIsCanonical(key[..|key| - 1], key[|key| - 1]);
    }
    DecimalIsPosition(n);
  }

  /** Reading from a text: its length, and its characters by their positions. */
  lemma TextProperties(text: string, key: string)
    ensures Lookup(["length"], Text(text)) == Some(Number(|text|))
    ensures forall i :: 0 <= i < |text| ==> Lookup([Decimal(i)], Text(text)) == Some(Text([text[i]]))
    ensures key != "length" && (forall i :: 0 <= i < |text| ==> key != Decimal(i)) ==> Lookup([key], Text(text)) == None
  {
    forall i | 0 <= i < |text|
      ensures Lookup([Decimal(i)], Text(text)) == Some(Text([text[i]]))
    {
      DecimalIsPosition(i);
      PositionIsDecimal("length", i);
      assert [Decimal(i)][1..] == [];
    }
    if Position(key).Some? {
      PositionIsDecimal(key, Position(key).value);
    }
    assert ["length"][1..] == [] && [key][1..] == [];
  }

  /** `hasOwnProperty` and the property.  A string has a length and its characters; the other plain values have
      nothing, and on null the call throws. */
  function Property(data: Json, key: string): Option<Json>
  {
    match data
    case Object(fields) => if key in fields then Some(fields[key]) else None
    case Text(text) =>
      if key == "length" then Some(Number(|text|))
      else if Position(key).Some? && Position(key).value < |text| then Some(Text([text[Position(key).value]]))
      else None
    case _ => None
  }

  /** The value at a path, if every key is there. */
  function Lookup(keys: seq<string>, data: Json): Option<Json>
  {
    if keys == [] then Some(data)
    else
      match Property(data, keys[0])
      case None => None
      case Some(inner) => Lookup(keys[1..], inner)
  }

  /** The tree with the value at a path replaced, intermediate objects made as needed.  None: an existing
      intermediate is not an object, and the assignment to it, or to a part of a string, throws. */
  function Update(keys: seq<string>, value: Json, target: Json): Option<Json>
    requires keys != []
  {
    if !target.Object? then None
    else if |keys| == 1 then Some(Object(target.fields[keys[0] := value]))
    else
      var child := if keys[0] in target.fields then target.fields[keys[0]] else Object(map[]);
      match Update(keys[1..], value, child)
      case None => None
      case Some(updated) => Some(Object(target.fields[keys[0] := updated]))
  }

  /** `_get`.  None: the property is unknown, or the field has no key in it. */
  method Get(field: string, target: Json) returns (result: Option<Json>)
    ensures result == if Keys(field) == [] then None else Lookup(Keys(field), target)
  {
    var source := Keys(field);
    if source == [] {
      return None;   // match() gave null
    }
    var data := target;
    while source != []
      invariant Lookup(source, data) == Lookup(Keys(field), target)
      decreases |source|
    {
      var at := source[0];
      source := source[1..];
      var inner := Property(data, at);
      if inner.None? {
        return None;
      }
      data := inner.value;
    }
    return Some(data);
  }

  /** What the walk of `_set` leaves behind: the objects it went through, each with the key it took. */
  datatype Crumb = Crumb(parent: map<string, Json>, key: string)

  /** Puts an updated object back under the objects that were walked through. */
  function Rebuilt(walked: seq<Crumb>, inner: Json): Json
    decreases walked
  {
    if walked == [] then inner
    else
      var last := walked[|walked| - 1];
      Rebuilt(walked[..|walked| - 1], Object(last.parent[last.key := inner]))
  }

  function RebuiltOption(walked: seq<Crumb>, inner: Option<Json>): Option<Json>
  {
    if inner.None? then None else Some(Rebuilt(walked, inner.value))
  }

  lemma StepDown(walked: seq<Crumb>, keys: seq<string>, value: Json, at: Json)
    requires at.Object? && |keys| > 1
    ensures RebuiltOption(walked, Update(keys, value, at))
         == RebuiltOption(walked + [Crumb(at.fields, keys[0])],
                          Update(keys[1..], value, if keys[0] in at.fields then at.fields[keys[0]] else Object(map[])))
  {
    var longer := walked + [Crumb(at.fields, keys[0])];
    assert longer[..|longer| - 1] == walked;
  }

  /** `_set`.  None: it throws, and the target is as it was. */
  method Set(field: string, value: Json, target: Json) returns (result: Option<Json>)
    ensures result == if Keys(field) == [] then None else Update(Keys(field), value, target)
  {
    var source := Keys(field);
    if source == [] {
      return None;
    }
    var at := target;
    var walked: seq<Crumb> := [];
    while |source| > 1
      invariant source != []
      invariant RebuiltOption(walked, Update(source, value, at)) == Update(Keys(field), value, target)
      decreases |source|
    {
      var key := source[0];
      if !at.Object? {
        return None;
      }
      StepDown(walked, source, value, at);
      var child := if key in at.fields then at.fields[key] else Object(map[]);
      walked := walked + [Crumb(at.fields, key)];
      at := child;
      source := source[1..];
    }
    if !at.Object? {
      return None;
    }
    return Some(Rebuilt(walked, Object(at.fields[source[0] := value])));
  }

  // ---------- the laws ----------

  /** Every existing value on the way to the last key is an object. */
  predicate Writable(keys: seq<string>, target: Json)
    requires keys != []
  {
    target.Object? && (|keys| > 1 && keys[0] in target.fields ==> Writable(keys[1..], target.fields[keys[0]]))
  }

  /** Neither path is a prefix of the other. */
  predicate Apart(a: seq<string>, b: seq<string>)
  {
    !(a <= b) && !(b <= a)
  }

  lemma {:induction false} EmptyIsWritable(keys: seq<string>)
    requires keys != []
    ensures Writable(keys, Object(map[]))
  {
  }

  /** Exactly when a write succeeds. */
  lemma {:induction false} UpdateSucceedsExactly(keys: seq<string>, value: Json, target: Json)
    requires keys != []
    ensures Update(keys, value, target).Some? <==> Writable(keys, target)
    decreases |keys|
  {
    if target.Object? && |keys| > 1 {
      EmptyIsWritable(keys[1..]);
      UpdateSucceedsExactly(keys[1..], value,
                            if keys[0] in target.fields then target.fields[keys[0]] else Object(map[]));
    }
  }

  lemma {:induction false} GetAfterSet(keys: seq<string>, value: Json, target: Json)
    requires keys != [] && Writable(keys, target)
    ensures Update(keys, value, target).Some?
    ensures Lookup(keys, Update(keys, value, target).value) == Some(value)
    decreases |keys|
  {
    UpdateSucceedsExactly(keys, value, target);
    if |keys| > 1 {
      EmptyIsWritable(keys[1..]);
      GetAfterSet(keys[1..], value, if keys[0] in target.fields then target.fields[keys[0]] else Object(map[]));
    }
  }

  lemma {:induction false} SecondSetWins(keys: seq<string>, first: Json, second: Json, target: Json)
    requires keys != [] && Writable(keys, target)
    ensures Update(keys, first, target).Some?
    ensures Update(keys, second, Update(keys, first, target).value) == Update(keys, second, target)
    decreases |keys|
  {
    UpdateSucceedsExactly(keys, first, target);
    if |keys| == 1 {
      var once := Update(keys, first, target).value;
      assert once.fields[keys[0] := second] == target.fields[keys[0] := second];
    } else {
      var child := if keys[0] in target.fields then target.fields[keys[0]] else Object(map[]);
      EmptyIsWritable(keys[1..]);
      SecondSetWins(keys[1..], first, second, child);
      UpdateSucceedsExactly(keys[1..], second, child);
      var once := Update(keys, first, target).value;
      var inner := Update(keys[1..], second, child).value;
      assert once.fields[keys[0] := inner] == target.fields[keys[0] := inner];
    }
  }

  lemma ApartTails(a: seq<string>, b: seq<string>)
    requires Apart(a, b) && a[0] == b[0]
    ensures |a| > 1 && |b| > 1 && Apart(a[1..], b[1..])
  {
    assert a == [a[0]] + a[1..] && b == [b[0]] + b[1..];
  }

  lemma {:induction false} SetPreservesOthers(a: seq<string>, b: seq<string>, value: Json, target: Json)
    requires Apart(a, b) && Writable(a, target)
    ensures Update(a, value, target).Some?
    ensures Lookup(b, Update(a, value, target).value) == Lookup(b, target)
    decreases |a|
  {
    UpdateSucceedsExactly(a, value, target);
    if a[0] == b[0] {
      ApartTails(a, b);
      var child := if a[0] in target.fields then target.fields[a[0]] else Object(map[]);
      EmptyIsWritable(a[1..]);
      SetPreservesOthers(a[1..], b[1..], value, child);
    }
  }

  lemma {:induction false} SetKeepsWritable(a: seq<string>, b: seq<string>, value: Json, target: Json)
    requires Apart(a, b) && Writable(a, target)
    ensures Update(a, value, target).Some?
    ensures Writable(b, Update(a, value, target).value) <==> Writable(b, target)
    decreases |a|
  {
    UpdateSucceedsExactly(a, value, target);
    if a[0] == b[0] {
      ApartTails(a, b);
      var child := if a[0] in target.fields then target.fields[a[0]] else Object(map[]);
      EmptyIsWritable(a[1..]);
      EmptyIsWritable(b[1..]);
      SetKeepsWritable(a[1..], b[1..], value, child);
    }
  }

  lemma {:induction false} SetsCommute(a: seq<string>, b: seq<string>, x: Json, y: Json, target: Json)
    requires Apart(a, b) && Writable(a, target) && Writable(b, target)
    ensures Update(a, x, target).Some? && Update(b, y, target).Some?
    ensures Update(b, y, Update(a, x, target).value) == Update(a, x, Update(b, y, target).value)
    decreases |a|
  {
    UpdateSucceedsExactly(a, x, target);
    UpdateSucceedsExactly(b, y, target);
    if a[0] == b[0] {
      ApartTails(a, b);
      var child := if a[0] in target.fields then target.fields[a[0]] else Object(map[]);
      EmptyIsWritable(a[1..]);
      EmptyIsWritable(b[1..]);
      SetsCommute(a[1..], b[1..], x, y, child);
      SetKeepsWritable(a[1..], b[1..], x, child);
      UpdateSucceedsExactly(b[1..], y, Update(a[1..], x, child).value);
      SameKeyCommutes(a, b, x, y, target, child);
    } else {
      DifferentKeysCommute(a, b, x, y, target);
    }
  }

  /** A write below a key that has just been written. */
  lemma UpdateBelow(keys: seq<string>, value: Json, fields: map<string, Json>, inner: Json)
    requires |keys| > 1 && Update(keys[1..], value, inner).Some?
    ensures Update(keys, value, Object(fields[keys[0] := inner]))
         == Some(Object(fields[keys[0] := Update(keys[1..], value, inner).value]))
  {
    var updated := Update(keys[1..], value, inner).value;
    assert fields[keys[0] := inner][keys[0] := updated] == fields[keys[0] := updated];
  }

  lemma SameKeyCommutes(a: seq<string>, b: seq<string>, x: Json, y: Json, target: Json, child: Json)
    requires |a| > 1 && |b| > 1 && a[0] == b[0] && target.Object?
    requires child == if a[0] in target.fields then target.fields[a[0]] else Object(map[])
    requires Update(a[1..], x, child).Some? && Update(b[1..], y, child).Some?
    requires Update(b[1..], y, Update(a[1..], x, child).value) == Update(a[1..], x, Update(b[1..], y, child).value)
    requires Update(b[1..], y, Update(a[1..], x, child).value).Some?
    ensures Update(b, y, Update(a, x, target).value) == Update(a, x, Update(b, y, target).value)
  {
    UpdateBelow(b, y, target.fields, Update(a[1..], x, child).value);
    UpdateBelow(a, x, target.fields, Update(b[1..], y, child).value);
  }

  lemma DifferentKeysCommute(a: seq<string>, b: seq<string>, x: Json, y: Json, target: Json)
    requires a != [] && b != [] && a[0] != b[0]
    requires Update(a, x, target).Some? && Update(b, y, target).Some?
    ensures Update(b, y, Update(a, x, target).value) == Update(a, x, Update(b, y, target).value)
  {
    var left, right := Update(a, x, target).value.fields[a[0]], Update(b, y, target).value.fields[b[0]];
    var f := target.fields;
    assert Update(a, x, target) == Some(Object(f[a[0] := left]));
    assert Update(b, y, target) == Some(Object(f[b[0] := right]));
    assert Update(b, y, Object(f[a[0] := left])) == Some(Object(f[a[0] := left][b[0] := right]));
    assert Update(a, x, Object(f[b[0] := right])) == Some(Object(f[b[0] := right][a[0] := left]));
    assert f[a[0] := left][b[0] := right] == f[b[0] := right][a[0] := left];
  }
}
