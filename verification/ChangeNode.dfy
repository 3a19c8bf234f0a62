/**
 The change node: a list of "set" rules applied to the message one after the other.
 */
module ChangeNode {
  import opened Options
  import opened DottedPath

  /** A rule as it is configured: its kind, the path it sets, and the value with the type of the value. */
  datatype Rule = Rule(t: string, p: string, to: string, tot: string)

  /** `['1', 'true'].includes(to.toLowerCase())` for the words that mean true. */
  predicate IsTrueWord(to: string)
  {
    Lower(to) == "1" || Lower(to) == "true"
  }

  function Lower(s: string): string
  {
    if s == "" then "" else [if 'A' <= s[0] <= 'Z' then s[0] - 'A' + 'a' else s[0]] + Lower(s[1..])
  }

  /** The value a rule sets.  None: the type is unknown, or the property to copy is. */
  function RuleValue(rule: Rule, message: Json, number: string -> Json): Option<Json>
  {
    if rule.tot == "str" then Some(Text(rule.to))
    else if rule.tot == "num" then Some(number(rule.to))
    else if rule.tot == "bool" || rule.tot == "boolean" then Some(Boolean(IsTrueWord(rule.to)))
    else if rule.tot == "msg" && Keys(rule.to) != [] then Lookup(Keys(rule.to), message)
    else None
  }

  function Applied(rule: Rule, message: Json, number: string -> Json): Option<Json>
  {
    if rule.t != "set" then Some(message)
    else
      match RuleValue(rule, message, number)
      case None => None
      case Some(value) => if Keys(rule.p) == [] then None else Update(Keys(rule.p), value, message)
  }

  /** All rules in order; the first one that fails rejects the message. */
  function AppliedAll(rules: seq<Rule>, message: Json, number: string -> Json): Option<Json>
    decreases rules
  {
    if rules == [] then Some(message)
    else
      match Applied(rules[0], message, number)
      case None => None
      case Some(changed) => AppliedAll(rules[1..], changed, number)
  }

  /** `handleMessage`.  `number` is JavaScript's Number() on a configured text. */
  method HandleMessage(rules: seq<Rule>, message: Json, number: string -> Json) returns (result: Option<Json>)
    ensures result == AppliedAll(rules, message, number)
  {
    var current := message;
    var i := 0;
    while i < |rules|
      invariant 0 <= i <= |rules|
      invariant AppliedAll(rules[i..], current, number) == AppliedAll(rules, message, number)
    {
      var rule := rules[i];
      assert rules[i..][0] == rule && rules[i..][1..] == rules[i + 1..];
      if rule.t == "set" {
        var changed: Option<Json>;
        if rule.tot == "str" {
          changed := Set(rule.p, Text(rule.to), current);
        } else if rule.tot == "num" {
          changed := Set(rule.p, number(rule.to), current);
        } else if rule.tot == "bool" || rule.tot == "boolean" {
          changed := Set(rule.p, Boolean(IsTrueWord(rule.to)), current);
        } else if rule.tot == "msg" {
          var v2 := Get(rule.to, current);
          if v2.None? {
            return None;
          }
          changed := Set(rule.p, v2.value, current);
        } else {
          return None;
        }
        if changed.None? {
          return None;
        }
        current := changed.value;
      }
      i := i + 1;
    }
    return Some(current);
  }

  // ---------- one rule ----------

  /** The words that mean true, in upper or lower case. */
  predicate MeansTrue(to: string)
  {
    || to == "1"
    || (|to| == 4 && to[0] in {'t', 'T'} && to[1] in {'r', 'R'} && to[2] in {'u', 'U'} && to[3] in {'e', 'E'})
  }

  lemma TrueWords(to: string)
    ensures IsTrueWord(to) <==> MeansTrue(to)
  {
    var low := Lower(to);
    LowerIsByCharacter(to);
    if |low| == 4 {
      assert low == "true" <==> low[0] == 't' && low[1] == 'r' && low[2] == 'u' && low[3] == 'e';
    } else if |low| == 1 {
      assert low == "1" <==> low[0] == '1';
      assert to == "1" <==> to[0] == '1';
    }
  }

  lemma {:induction false} LowerIsByCharacter(s: string)
    ensures |Lower(s)| == |s|
    ensures forall i :: 0 <= i < |s| ==> Lower(s)[i] == if 'A' <= s[i] <= 'Z' then s[i] - 'A' + 'a' else s[i]
  {
    if s != "" {
      LowerIsByCharacter(s[1..]);
    }
  }

  /** What one rule does, type by type: the value is there afterwards, and paths apart are as they were. */
  lemma OneSetRule(p: string, to: string, tot: string, message: Json, number: string -> Json, other: seq<string>)
    requires Keys(p) != [] && Writable(Keys(p), message) && Apart(Keys(p), other)
    requires tot in {"str", "num", "bool", "boolean"}
             || (tot == "msg" && Keys(to) != [] && Lookup(Keys(to), message).Some?)
    ensures var result := AppliedAll([Rule("set", p, to, tot)], message, number);
            && result.Some? && Lookup(other, result.value) == Lookup(other, message)
            && (tot == "str" ==> Lookup(Keys(p), result.value) == Some(Text(to)))
            && (tot == "num" ==> Lookup(Keys(p), result.value) == Some(number(to)))
            && (tot in {"bool", "boolean"} ==> Lookup(Keys(p), result.value) == Some(Boolean(MeansTrue(to))))
            && (tot == "msg" ==> Lookup(Keys(p), result.value) == Lookup(Keys(to), message))
  {
    var rule := Rule("set", p, to, tot);
    var value := RuleValue(rule, message, number).value;
    TrueWords(to);
    GetAfterSet(Keys(p), value, message);
    SetPreservesOthers(Keys(p), other, value, message);
    SingleRule(rule, message, number);
  }

  lemma SingleRule(rule: Rule, message: Json, number: string -> Json)
    ensures AppliedAll([rule], message, number) == Applied(rule, message, number)
  {
    assert [rule][1..] == [];
  }

  /** What a rule does not do: rules of other kinds change nothing, and unknown types, missing properties and paths
      that cannot be written reject the message. */
  lemma RuleFailsExactly(rule: Rule, message: Json, number: string -> Json)
    ensures rule.t != "set" ==> AppliedAll([rule], message, number) == Some(message)
    ensures rule.t == "set" ==>
              (AppliedAll([rule], message, number).None? <==>
                || rule.tot !in {"str", "num", "bool", "boolean", "msg"}
                || (rule.tot == "msg" && (Keys(rule.to) == [] || Lookup(Keys(rule.to), message).None?))
                || Keys(rule.p) == [] || !Writable(Keys(rule.p), message))
  {
    SingleRule(rule, message, number);
    var value := RuleValue(rule, message, number);
    if value.Some? && Keys(rule.p) != [] {
      UpdateSucceedsExactly(Keys(rule.p), value.value, message);
    }
  }

  /** Rules are applied one after the other. */
  lemma {:induction false} RulesInOrder(a: seq<Rule>, b: seq<Rule>, message: Json, number: string -> Json)
    ensures AppliedAll(a + b, message, number)
         == if AppliedAll(a, message, number).None? then None
            else AppliedAll(b, AppliedAll(a, message, number).value, number)
    decreases |a|
  {
    if a == [] {
      assert a + b == b;
    } else {
      assert (a + b)[0] == a[0] && (a + b)[1..] == a[1..] + b;
      if Applied(a[0], message, number).Some? {
        RulesInOrder(a[1..], b, Applied(a[0], message, number).value, number);
      }
    }
  }

  // ---------- literal set rules ----------

  predicate Literal(rule: Rule)
  {
    rule.t == "set" && Keys(rule.p) != []
    && (rule.tot == "str" || rule.tot == "num" || rule.tot == "bool" || rule.tot == "boolean")
  }

  /** Any two rules write the same path or paths neither of which is a prefix of the other. */
  ghost predicate Separate(rules: seq<Rule>)
  {
    forall i, j :: 0 <= i < |rules| && 0 <= j < |rules| ==>
      Keys(rules[i].p) == Keys(rules[j].p) || Apart(Keys(rules[i].p), Keys(rules[j].p))
  }

  /** The value of the last rule for a path. */
  function LastWrite(rules: seq<Rule>, keys: seq<string>, message: Json, number: string -> Json): Option<Json>
  {
    if rules == [] then None
    else
      var later := LastWrite(rules[1..], keys, message, number);
      if later.Some? then later
      else if Keys(rules[0].p) == keys then RuleValue(rules[0], message, number)
      else None
  }

  lemma LiteralValue(rule: Rule, message: Json, other: Json, number: string -> Json)
    requires Literal(rule)
    ensures RuleValue(rule, message, number).Some?
    ensures RuleValue(rule, message, number) == RuleValue(rule, other, number)
  {
  }

  lemma {:induction false} LiteralWrites(rules: seq<Rule>, keys: seq<string>, message: Json, other: Json,
                                         number: string -> Json)
    requires forall r :: r in rules ==> Literal(r)
    ensures LastWrite(rules, keys, message, number) == LastWrite(rules, keys, other, number)
  {
    if rules != [] {
      LiteralWrites(rules[1..], keys, message, other, number);
      LiteralValue(rules[0], message, other, number);
    }
  }

  /** A rule on the same path, or on a path apart, leaves a path writable that was. */
  lemma StaysWritable(rule: Rule, keys: seq<string>, message: Json, number: string -> Json)
    requires Literal(rule) && keys != [] && Writable(Keys(rule.p), message) && Writable(keys, message)
    requires keys == Keys(rule.p) || Apart(Keys(rule.p), keys)
    ensures Applied(rule, message, number).Some? && Writable(keys, Applied(rule, message, number).value)
  {
    LiteralValue(rule, message, message, number);
    var value := RuleValue(rule, message, number).value;
    UpdateSucceedsExactly(Keys(rule.p), value, message);
    if keys == Keys(rule.p) {
      SecondSetWins(keys, value, value, message);
      UpdateSucceedsExactly(keys, value, Applied(rule, message, number).value);
    } else {
      SetKeepsWritable(Keys(rule.p), keys, value, message);
    }
  }

  /** A fold of literal set rules yields the last write per path, and leaves every path apart from all of
      them alone. */
  lemma {:induction false} LastWriteWins(rules: seq<Rule>, keys: seq<string>, message: Json, number: string -> Json)
    requires (forall r :: r in rules ==> Literal(r) && Writable(Keys(r.p), message)) && Separate(rules)
    requires keys != [] && forall r :: r in rules ==> Keys(r.p) == keys || Apart(Keys(r.p), keys)
    ensures AppliedAll(rules, message, number).Some?
    ensures Lookup(keys, AppliedAll(rules, message, number).value) ==
            if LastWrite(rules, keys, message, number).Some? then LastWrite(rules, keys, message, number)
            else Lookup(keys, message)
    decreases rules
  {
    if rules != [] {
      var rule := rules[0];
      LiteralValue(rule, message, message, number);
      UpdateSucceedsExactly(Keys(rule.p), RuleValue(rule, message, number).value, message);
      var changed := Applied(rule, message, number).value;
      forall r | r in rules[1..]
        ensures Writable(Keys(r.p), changed)
      {
        var j :| 0 <= j < |rules| && rules[j] == r;
        StaysWritable(rule, Keys(r.p), message, number);
      }
      LastWriteWins(rules[1..], keys, changed, number);
      LiteralWrites(rules[1..], keys, message, changed, number);
      if Keys(rule.p) == keys {
        GetAfterSet(keys, RuleValue(rule, message, number).value, message);
      } else {
        SetPreservesOthers(Keys(rule.p), keys, RuleValue(rule, message, number).value, message);
      }
    }
  }
}
