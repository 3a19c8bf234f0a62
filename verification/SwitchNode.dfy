/**
 The switch node: a message is compared with a list of rules and goes out at the port of every rule that
 holds; an "else" rule looks at what happened since the previous one.
 */
module SwitchNode {
  import opened Options
  import D = DottedPath
  import Executor
  import Flows

  /** The values that rules compare.  An object is a part of the message, known by where it is; an operand that
      cannot be retrieved is the rejected promise that stands for the error. */
  datatype Value =
    | Undefined
    | Null
    | Boolean(flag: bool)
    | Number(number: int)
    | NotANumber
    | Text(text: string)
    | Part(keys: seq<string>)
    | Rejection

  /** A plain value, as a configuration holds it. */
  type Plain = v: Value | !v.Part? && !v.Rejection? witness Undefined

  /** An operand as it is configured: the value and its type. */
  datatype Operand = Operand(value: Plain, kind: string)

  datatype Compared = Compared(t: string, v: Operand, v2: Operand, ignoreCase: bool)

  datatype Config = Config(property: Plain, propertyType: string, rules: seq<Compared>, checkall: string,
                           previousValue: Plain)

  /** A rule with its two operands as they were retrieved. */
  datatype Rule = Rule(t: string, v1: Value, v2: Value, ignoreCase: bool)

  /** JavaScript's Number(), None for NaN, its relational operators, substring search and regular expressions.  A
      pattern that is not a regular expression makes `matches` None: building it throws. */
  datatype Operators = Operators(
    number: Value -> Option<int>,
    less: (Value, Value) -> bool,
    atMost: (Value, Value) -> bool,
    contains: (Value, Value) -> bool,
    matches: (Value, Value, bool) -> Option<bool>)

  predicate IsElse(rule: Rule) { rule.t == "else" }

  /** `===`. */
  predicate StrictlyEqual(a: Value, b: Value) { a == b && a != NotANumber }

  // ---------- the property and the operands ----------

  function ValueOf(data: D.Json, at: seq<string>): Value
  {
    match data
    case Object(_) => Part(at)
    case Text(text) => Text(text)
    case Number(number) => Number(number)
    case Boolean(flag) => Boolean(flag)
    case Null => Null
  }

  /** The value at a path from a part of the message: undefined if a property is missing.  None: there is null on
      the way, and asking it throws. */
  function Read(keys: seq<string>, data: D.Json, at: seq<string>): Option<Value>
    decreases |keys|
  {
    if keys == [] then Some(ValueOf(data, at))
    else if data.Null? then None
    else
      match D.Property(data, keys[0])
      case None => Some(Undefined)
      case Some(inner) => Read(keys[1..], inner, at + [keys[0]])
  }

  /** It finds what the base class finds, and gives undefined for most of what that one fails on. */
  lemma {:induction false} ReadIsLookup(keys: seq<string>, data: D.Json, at: seq<string>)
    ensures D.Lookup(keys, data).Some? ==> Read(keys, data, at) == Some(ValueOf(D.Lookup(keys, data).value, at + keys))
    ensures D.Lookup(keys, data).None? ==>
              Read(keys, data, at) == if NullOnTheWay(keys, data) then None else Some(Undefined)
    decreases |keys|
  {
    if keys == [] {
      assert at + keys == at;
    } else if D.Property(data, keys[0]).Some? {
      ReadIsLookup(keys[1..], D.Property(data, keys[0]).value, at + [keys[0]]);
      NullFurtherOn(keys, data);
      assert at + [keys[0]] + keys[1..] == at + keys;
    } else {
      assert D.Lookup(keys[..0], data) == Some(data);
      forall i | 0 < i < |keys|
        ensures D.Lookup(keys[..i], data) == None
      {
        assert keys[..i][0] == keys[0];
      }
    }
  }

  /** A part of the path leads to null. */
  ghost predicate NullOnTheWay(keys: seq<string>, data: D.Json)
  {
    exists i :: 0 <= i < |keys| && D.Lookup(keys[..i], data) == Some(D.Null)
  }

  lemma NullFurtherOn(keys: seq<string>, data: D.Json)
    requires keys != [] && D.Property(data, keys[0]).Some?
    ensures NullOnTheWay(keys, data) <==> NullOnTheWay(keys[1..], D.Property(data, keys[0]).value)
  {
    var inner := D.Property(data, keys[0]).value;
    forall i | 0 < i < |keys|
      ensures D.Lookup(keys[..i], data) == D.Lookup(keys[1..][..i - 1], inner)
    {
      assert keys[..i][1..] == keys[1..][..i - 1];
    }
    if NullOnTheWay(keys[1..], inner) {
      var i :| 0 <= i < |keys[1..]| && D.Lookup(keys[1..][..i], inner) == Some(D.Null);
      assert D.Lookup(keys[..i + 1], data) == Some(D.Null);
    }
  }

  /** None: the field is not a text or has no key in it, or reading it throws. */
  function ReadField(field: Plain, message: D.Json): Option<Value>
  {
    if !field.Text? || D.Keys(field.text) == [] then None else Read(D.Keys(field.text), message, [])
  }

  /** `_get` of this node, which unlike that of its base class gives undefined for what is missing. */
  method Get(field: Plain, target: D.Json) returns (result: Option<Value>)
    ensures result == ReadField(field, target)
  {
    if !field.Text? || D.Keys(field.text) == [] {
      return None;
    }
    var source, data := D.Keys(field.text), target;
    var at: seq<string> := [];
    while source != []
      invariant Read(source, data, at) == ReadField(field, target)
      decreases |source|
    {
      if data.Null? {
        return None;
      }
      var inner := D.Property(data, source[0]);
      if inner.None? {
        return Some(Undefined);
      }
      at, data, source := at + [source[0]], inner.value, source[1..];
    }
    return Some(ValueOf(data, at));
  }

  function ToNumber(value: Value, js: Operators): Value
  {
    match js.number(value)
    case None => NotANumber
    case Some(n) => Number(n)
  }

  /** `_getTyped`. */
  function Typed(value: Value, kind: string, js: Operators): Value
  {
    if kind == "num" then ToNumber(value, js) else value
  }

  /** What an operand stands for.  A value of the message that can be read as a number is one. */
  function Retrieved(operand: Operand, config: Config, message: D.Json, js: Operators): Value
  {
    if operand.kind == "prev" then config.previousValue
    else if operand.kind == "jsonata" then Rejection   // the text of an expression has no evaluate()
    else if operand.kind == "msg" then
      match ReadField(operand.value, message)
      case None => Rejection
      case Some(value) => if js.number(value).Some? then ToNumber(value, js) else value
    else if operand.value == Undefined then Undefined
    else Typed(operand.value, operand.kind, js)
  }

  /** Exactly when an operand is the rejected promise: an expression, a path that is not a text or has no key, or
      one with null on its way. */
  lemma OperandIsRejectedExactly(operand: Operand, config: Config, message: D.Json, js: Operators)
    ensures Retrieved(operand, config, message, js) == Rejection <==>
            || operand.kind == "jsonata"
            || (operand.kind == "msg"
                && (!operand.value.Text? || D.Keys(operand.value.text) == []
                    || (D.Lookup(D.Keys(operand.value.text), message).None?
                        && NullOnTheWay(D.Keys(operand.value.text), message))))
  {
    if operand.kind == "msg" && operand.value.Text? {
      ReadIsLookup(D.Keys(operand.value.text), message, []);
    }
  }

  /** `retrieveRuleValue`. */
  method RetrieveRuleValue(operand: Operand, config: Config, message: D.Json, js: Operators) returns (value: Value)
    ensures value == Retrieved(operand, config, message, js)
  {
    value := Undefined;
    if operand.kind == "prev" {
      value := config.previousValue;
    } else if operand.kind == "jsonata" {
      value := Rejection;
    } else if operand.kind == "msg" {
      var found := Get(operand.value, message);
      if found.None? {
        return Rejection;
      }
      var checkedType := if js.number(found.value).Some? then "num" else "str";
      value := Typed(found.value, checkedType, js);
    } else if operand.value != Undefined {
      value := Typed(operand.value, operand.kind, js);
    }
  }

  function RuleFor(rule: Compared, config: Config, message: D.Json, js: Operators): Rule
  {
    Rule(rule.t, Retrieved(rule.v, config, message, js), Retrieved(rule.v2, config, message, js), rule.ignoreCase)
  }

  function RulesFor(config: Config, message: D.Json, js: Operators): (rules: seq<Rule>)
    ensures |rules| == |config.rules|
    ensures forall i :: 0 <= i < |rules| ==> rules[i] == RuleFor(config.rules[i], config, message, js)
  {
    seq(|config.rules|, i requires 0 <= i < |config.rules| => RuleFor(config.rules[i], config, message, js))
  }

  /** The value that the rules test.  None: it cannot be read. */
  function Tested(config: Config, message: D.Json, js: Operators): Option<Value>
  {
    match ReadField(config.property, message)
    case None => None
    case Some(value) => Some(Typed(value, config.propertyType, js))
  }

  // ---------- the rules ----------

  /** `operators[rule.t](test, v1, v2, rule.case)`.  None: there is no such operator, or it throws. */
  function Test(rule: Rule, test: Value, js: Operators): Option<bool>
  {
    if rule.t == "eq" then Some(StrictlyEqual(test, rule.v1))
    else if rule.t == "neq" then Some(!StrictlyEqual(test, rule.v1))
    else if rule.t == "lt" then Some(js.less(test, rule.v1))
    else if rule.t == "lte" then Some(js.atMost(test, rule.v1))
    else if rule.t == "gt" then Some(js.less(rule.v1, test))
    else if rule.t == "gte" then Some(js.atMost(rule.v1, test))
    else if rule.t == "btwn" then Some(js.atMost(rule.v1, test) && js.atMost(test, rule.v2))
    else if rule.t == "cont" then Some(js.contains(test, rule.v1))
    else if rule.t == "regex" then js.matches(test, rule.v1, rule.ignoreCase)
    else if rule.t == "true" then Some(test == Boolean(true))
    else if rule.t == "false" then Some(test == Boolean(false))
    else if rule.t == "null" then Some(test == Undefined || test == Null)
    else if rule.t == "nnull" then Some(test != Undefined && test != Null)
    else if rule.t == "else" then Some(test == Boolean(true))
    else None
  }

  // ---------- the declarative reading ----------

  /** Nothing fired at or after the last else before position i. */
  ghost predicate QuietSinceElse(rules: seq<Rule>, fired: seq<bool>, i: nat)
    requires i <= |rules| && i <= |fired|
  {
    forall j :: 0 <= j < i && fired[j] ==> exists k :: j < k < i && IsElse(rules[k])
  }

  /** Whether the rule at position i should fire, given what the earlier ones did. */
  ghost predicate ShouldFire(rules: seq<Rule>, prop: Value, js: Operators, fired: seq<bool>, i: nat)
    requires i < |rules| && i <= |fired|
  {
    if IsElse(rules[i]) then QuietSinceElse(rules, fired, i) else Test(rules[i], prop, js) == Some(true)
  }

  ghost predicate FiresAsMeant(rules: seq<Rule>, prop: Value, js: Operators, fired: seq<bool>)
  {
    |fired| <= |rules| && forall i :: 0 <= i < |fired| ==> fired[i] == ShouldFire(rules, prop, js, fired, i)
  }

  /** With checkall "false" the rules stop at the first that fires; otherwise all of them are tried. */
  ghost predicate StopsAsMeant(rules: seq<Rule>, checkall: string, fired: seq<bool>)
  {
    if checkall == "false" then
      (forall i :: 0 <= i < |fired| - 1 ==> !fired[i]) && (|fired| < |rules| ==> fired != [] && fired[|fired| - 1])
    else |fired| == |rules|
  }

  /** The outputs say which rules fired, and every output that is not null is the message. */
  ghost predicate Shows<M(!new)>(onward: seq<Option<M>>, message: M, fired: seq<bool>)
  {
    |onward| == |fired| && forall i :: 0 <= i < |fired| ==> onward[i] == if fired[i] then Some(message) else None
  }

  /** A rule that is reached cannot be evaluated.  With checkall "false" a rule is reached when no earlier one
      holds, and then no earlier one is an else. */
  ghost predicate CannotBeEvaluated(rules: seq<Rule>, prop: Value, js: Operators, checkall: string)
  {
    exists i :: 0 <= i < |rules| && StuckAt(rules, prop, js, checkall, i)
  }

  ghost predicate StuckAt(rules: seq<Rule>, prop: Value, js: Operators, checkall: string, i: nat)
    requires i < |rules|
  {
    && !IsElse(rules[i]) && Test(rules[i], prop, js).None?
    && (checkall == "false" ==> forall j :: 0 <= j < i ==> !IsElse(rules[j]) && Test(rules[j], prop, js) == Some(false))
  }

  /** What the else flag of the loop stands for. */
  ghost predicate FlagMeansQuiet(rules: seq<Rule>, fired: seq<bool>, elseflag: bool)
    requires |fired| <= |rules|
  {
    elseflag == QuietSinceElse(rules, fired, |fired|)
  }

  lemma FlagStep(rules: seq<Rule>, fired: seq<bool>, elseflag: bool, fires: bool)
    requires |fired| < |rules| && FlagMeansQuiet(rules, fired, elseflag)
    ensures FlagMeansQuiet(rules, fired + [fires], !fires && (elseflag || IsElse(rules[|fired|])))
  {
    var i := |fired|;
    var more := fired + [fires];
    if fires {
      assert more[i];
      assert !QuietSinceElse(rules, more, i + 1);
    } else if IsElse(rules[i]) {
      forall j | 0 <= j < i + 1 && more[j]
        ensures exists k :: j < k < i + 1 && IsElse(rules[k])
      {
        assert j < i < i + 1 && IsElse(rules[i]);
      }
    } else if elseflag {
      forall j | 0 <= j < i + 1 && more[j]
        ensures exists k :: j < k < i + 1 && IsElse(rules[k])
      {
        assert fired[j];
        var k :| j < k < i && IsElse(rules[k]);
        assert j < k < i + 1;
      }
    } else {
      var j :| 0 <= j < i && fired[j] && !(exists k :: j < k < i && IsElse(rules[k]));
      assert more[j];
      assert forall k :: j < k < i + 1 ==> !IsElse(rules[k]);
    }
  }

  lemma ShouldFireIsLocal(rules: seq<Rule>, prop: Value, js: Operators, fired: seq<bool>, more: seq<bool>, i: nat)
    requires i < |rules| && i <= |fired| <= |more| && more[..|fired|] == fired
    ensures ShouldFire(rules, prop, js, more, i) == ShouldFire(rules, prop, js, fired, i)
  {
    assert forall j :: 0 <= j < i ==> more[j] == more[..|fired|][j];
  }

  lemma FireStep(rules: seq<Rule>, prop: Value, js: Operators, fired: seq<bool>, fires: bool)
    requires |fired| < |rules| && FiresAsMeant(rules, prop, js, fired)
    requires fires == ShouldFire(rules, prop, js, fired, |fired|)
    ensures FiresAsMeant(rules, prop, js, fired + [fires])
  {
    var more := fired + [fires];
    forall i | 0 <= i < |more|
      ensures more[i] == ShouldFire(rules, prop, js, more, i)
    {
      ShouldFireIsLocal(rules, prop, js, fired, more, i);
    }
  }

  /** While nothing has fired, no else can have been passed. */
  lemma NoElseBeforeFirst(rules: seq<Rule>, prop: Value, js: Operators, fired: seq<bool>)
    requires FiresAsMeant(rules, prop, js, fired)
    requires forall i :: 0 <= i < |fired| ==> !fired[i]
    ensures forall i :: 0 <= i < |fired| ==> !IsElse(rules[i]) && Test(rules[i], prop, js) != Some(true)
  {
    forall i | 0 <= i < |fired|
      ensures !IsElse(rules[i]) && Test(rules[i], prop, js) != Some(true)
    {
      assert !ShouldFire(rules, prop, js, fired, i);
      assert QuietSinceElse(rules, fired, i);
    }
  }

  ghost predicate AllEvaluated(rules: seq<Rule>, prop: Value, js: Operators, count: nat)
    requires count <= |rules|
  {
    forall i :: 0 <= i < count && !IsElse(rules[i]) ==> Test(rules[i], prop, js).Some?
  }

  /** A rule that cannot be evaluated has been reached. */
  lemma StuckHere(rules: seq<Rule>, prop: Value, js: Operators, checkall: string, fired: seq<bool>)
    requires FiresAsMeant(rules, prop, js, fired) && |fired| < |rules| && AllEvaluated(rules, prop, js, |fired|)
    requires !IsElse(rules[|fired|]) && Test(rules[|fired|], prop, js).None?
    requires checkall == "false" ==> forall j :: 0 <= j < |fired| ==> !fired[j]
    ensures CannotBeEvaluated(rules, prop, js, checkall)
  {
    if checkall == "false" {
      NoElseBeforeFirst(rules, prop, js, fired);
      forall j | 0 <= j < |fired|
        ensures Test(rules[j], prop, js) == Some(false)
      {
        assert !Test(rules[j], prop, js).value;
      }
    }
    assert StuckAt(rules, prop, js, checkall, |fired|);
  }

  /** One rule: what it does is what it should, and the flag keeps its meaning. */
  lemma RuleStep(rules: seq<Rule>, prop: Value, js: Operators, fired: seq<bool>, flag: bool, holds: bool)
    requires FiresAsMeant(rules, prop, js, fired) && |fired| < |rules| && FlagMeansQuiet(rules, fired, flag)
    requires Test(rules[|fired|], if IsElse(rules[|fired|]) then Boolean(flag) else prop, js) == Some(holds)
    ensures FiresAsMeant(rules, prop, js, fired + [holds])
    ensures FlagMeansQuiet(rules, fired + [holds], !holds && (flag || IsElse(rules[|fired|])))
  {
    assert holds == ShouldFire(rules, prop, js, fired, |fired|);
    FlagStep(rules, fired, flag, holds);
    FireStep(rules, prop, js, fired, holds);
  }

  lemma ShowStep<M(!new)>(onward: seq<Option<M>>, message: M, fired: seq<bool>, holds: bool)
    requires Shows(onward, message, fired)
    ensures Shows(onward + [if holds then Some(message) else None], message, fired + [holds])
  {
  }

  /** The outcome is what the rules mean for the value that they test. */
  ghost predicate AsMeant(rules: seq<Rule>, prop: Value, checkall: string, message: D.Json, js: Operators,
                          result: Option<seq<Option<D.Json>>>, fired: seq<bool>)
  {
    && (result.None? <==> CannotBeEvaluated(rules, prop, js, checkall))
    && (result.Some? ==> Shows(result.value, message, fired) && FiresAsMeant(rules, prop, js, fired)
                         && StopsAsMeant(rules, checkall, fired))
  }

  /** Once a rule has fired under checkall "false", no rule that cannot be evaluated was reached. */
  lemma FirstFiringEndsIt(rules: seq<Rule>, prop: Value, js: Operators, fired: seq<bool>)
    requires FiresAsMeant(rules, prop, js, fired) && fired != [] && fired[|fired| - 1]
    requires forall i :: 0 <= i < |fired| - 1 ==> !fired[i]
    requires AllEvaluated(rules, prop, js, |fired|)
    ensures !CannotBeEvaluated(rules, prop, js, "false")
  {
    var last := |fired| - 1;
    assert ShouldFire(rules, prop, js, fired, last);
    assert IsElse(rules[last]) || Test(rules[last], prop, js) == Some(true);
    forall i | 0 <= i < |rules|
      ensures !StuckAt(rules, prop, js, "false", i)
    {
    }
  }

  /** What holds while the rules are tried. */
  ghost predicate SoFar(rules: seq<Rule>, prop: Value, checkall: string, message: D.Json, js: Operators,
                        onward: seq<Option<D.Json>>, fired: seq<bool>, elseflag: bool)
  {
    && |fired| <= |rules| && Shows(onward, message, fired) && FiresAsMeant(rules, prop, js, fired)
    && FlagMeansQuiet(rules, fired, elseflag) && AllEvaluated(rules, prop, js, |fired|)
    && (checkall == "false" ==> forall j :: 0 <= j < |fired| ==> !fired[j])
  }

  lemma OneMoreRule(rules: seq<Rule>, prop: Value, checkall: string, message: D.Json, js: Operators,
                    onward: seq<Option<D.Json>>, fired: seq<bool>, flag: bool, holds: bool)
    requires SoFar(rules, prop, checkall, message, js, onward, fired, flag) && |fired| < |rules|
    requires Test(rules[|fired|], if IsElse(rules[|fired|]) then Boolean(flag) else prop, js) == Some(holds)
    ensures var onward', fired' := onward + [if holds then Some(message) else None], fired + [holds];
            if holds && checkall == "false" then AsMeant(rules, prop, checkall, message, js, Some(onward'), fired')
            else SoFar(rules, prop, checkall, message, js, onward', fired', !holds && (flag || IsElse(rules[|fired|])))
  {
    RuleStep(rules, prop, js, fired, flag, holds);
    ShowStep(onward, message, fired, holds);
    if holds && checkall == "false" {
      FirstFiringEndsIt(rules, prop, js, fired + [holds]);
    }
  }

  lemma RuleStuck(rules: seq<Rule>, prop: Value, checkall: string, message: D.Json, js: Operators,
                  onward: seq<Option<D.Json>>, fired: seq<bool>, flag: bool)
    requires SoFar(rules, prop, checkall, message, js, onward, fired, flag) && |fired| < |rules|
    requires Test(rules[|fired|], if IsElse(rules[|fired|]) then Boolean(flag) else prop, js).None?
    ensures AsMeant(rules, prop, checkall, message, js, None, fired)
  {
    StuckHere(rules, prop, js, checkall, fired);
  }

  lemma AllRulesTried(rules: seq<Rule>, prop: Value, checkall: string, message: D.Json, js: Operators,
                      onward: seq<Option<D.Json>>, fired: seq<bool>, flag: bool)
    requires SoFar(rules, prop, checkall, message, js, onward, fired, flag) && |fired| == |rules|
    ensures AsMeant(rules, prop, checkall, message, js, Some(onward), fired)
  {
    if checkall == "false" {
      NoElseBeforeFirst(rules, prop, js, fired);
    }
  }

  /** `handleMessage`.  None: the promise is rejected.  `previousValue` is what is left on the configuration. */
  method HandleMessage(config: Config, message: D.Json, js: Operators)
    returns (result: Option<seq<Option<D.Json>>>, previousValue: Value, ghost fired: seq<bool>)
    ensures var prop := Tested(config, message, js);
            if prop.None? then result.None?
            else AsMeant(RulesFor(config, message, js), prop.value, config.checkall, message, js, result, fired)
    ensures previousValue == if result.Some? then Tested(config, message, js).value else config.previousValue
  {
    previousValue, fired := config.previousValue, [];
    var value := Get(config.property, message);
    if value.None? {
      return None, previousValue, fired;
    }
    var prop := Typed(value.value, config.propertyType, js);
    result, fired := TryRules(config, prop, message, js);
    if result.Some? {
      previousValue := prop;
    }
  }

  /** One rule: its operands are retrieved and its operator is applied. */
  method TryRule(rule: Compared, test: Value, config: Config, message: D.Json, js: Operators)
    returns (holds: Option<bool>)
    ensures holds == Test(RuleFor(rule, config, message, js), test, js)
  {
    var v1 := RetrieveRuleValue(rule.v, config, message, js);
    var v2 := RetrieveRuleValue(rule.v2, config, message, js);
    return Test(Rule(rule.t, v1, v2, rule.ignoreCase), test, js);
  }

  /** The loop over the rules. */
  method TryRules(config: Config, prop: Value, message: D.Json, js: Operators)
    returns (result: Option<seq<Option<D.Json>>>, ghost fired: seq<bool>)
    ensures AsMeant(RulesFor(config, message, js), prop, config.checkall, message, js, result, fired)
  {
    ghost var rules := RulesFor(config, message, js);
    var onward: seq<Option<D.Json>> := [];
    fired := [];
    var elseflag := true;
    var i := 0;
    while i < |config.rules|
      invariant 0 <= i == |fired| <= |rules|
      invariant SoFar(rules, prop, config.checkall, message, js, onward, fired, elseflag)
    {
      var rule := config.rules[i];
      var test := prop;
      ghost var flag := elseflag;
      if rule.t == "else" {
        test := Boolean(elseflag);
        elseflag := true;
      }
      var holds := TryRule(rule, test, config, message, js);
      if holds.None? {
        RuleStuck(rules, prop, config.checkall, message, js, onward, fired, flag);
        return None, fired;
      }
      OneMoreRule(rules, prop, config.checkall, message, js, onward, fired, flag, holds.value);
      fired := fired + [holds.value];
      if holds.value {
        onward := onward + [Some(message)];
        elseflag := false;
        if config.checkall == "false" {
          return Some(onward), fired;
        }
      } else {
        onward := onward + [None];
      }
      i := i + 1;
    }
    AllRulesTried(rules, prop, config.checkall, message, js, onward, fired, elseflag);
    return Some(onward), fired;
  }

  // ---------- what the operators mean ----------

  /** JavaScript's operators are the usual ones on numbers. */
  ghost predicate OrdersNumbers(js: Operators)
  {
    && (forall n :: js.number(Number(n)) == Some(n))
    && (forall a, b :: js.less(Number(a), Number(b)) <==> a < b)
    && (forall a, b :: js.atMost(Number(a), Number(b)) <==> a <= b)
  }

  /** A rule that compares numbers fires on the numbers it is for. */
  lemma NumberRules(rules: seq<Rule>, a: int, js: Operators, fired: seq<bool>, i: nat, b: int, c: int)
    requires OrdersNumbers(js) && FiresAsMeant(rules, Number(a), js, fired) && i < |fired|
    requires rules[i].v1 == Number(b) && (rules[i].t == "btwn" ==> rules[i].v2 == Number(c))
    ensures rules[i].t == "eq" ==> (fired[i] <==> a == b)
    ensures rules[i].t == "neq" ==> (fired[i] <==> a != b)
    ensures rules[i].t == "lt" ==> (fired[i] <==> a < b)
    ensures rules[i].t == "lte" ==> (fired[i] <==> a <= b)
    ensures rules[i].t == "gt" ==> (fired[i] <==> a > b)
    ensures rules[i].t == "gte" ==> (fired[i] <==> a >= b)
    ensures rules[i].t == "btwn" ==> (fired[i] <==> b <= a <= c)
  {
    assert fired[i] == ShouldFire(rules, Number(a), js, fired, i);
  }

  /** The rules about other values: equality is identity, but NaN is not equal to itself; the rules without operand
      hold for the values they name; texts are searched in and matched. */
  lemma OtherRules(rules: seq<Rule>, prop: Value, js: Operators, fired: seq<bool>, i: nat)
    requires FiresAsMeant(rules, prop, js, fired) && i < |fired|
    ensures rules[i].t == "eq" ==> (fired[i] <==> prop == rules[i].v1 && prop != NotANumber)
    ensures rules[i].t == "neq" ==> (fired[i] <==> prop != rules[i].v1 || prop == NotANumber)
    ensures rules[i].t == "true" ==> (fired[i] <==> prop == Boolean(true))
    ensures rules[i].t == "false" ==> (fired[i] <==> prop == Boolean(false))
    ensures rules[i].t == "null" ==> (fired[i] <==> prop in {Undefined, Null})
    ensures rules[i].t == "nnull" ==> (fired[i] <==> prop !in {Undefined, Null})
    ensures rules[i].t == "cont" ==> (fired[i] <==> js.contains(prop, rules[i].v1))
    ensures rules[i].t == "regex" ==> (fired[i] <==> js.matches(prop, rules[i].v1, rules[i].ignoreCase) == Some(true))
  {
    assert fired[i] == ShouldFire(rules, prop, js, fired, i);
  }

  /** The types of rules: any other one rejects the message, once it is reached. */
  lemma KnownOperators(rule: Rule, test: Value, js: Operators)
    ensures Test(rule, test, js).None? <==>
      || rule.t !in {"eq", "neq", "lt", "lte", "gt", "gte", "btwn", "cont", "regex", "true", "false", "null", "nnull",
                     "else"}
      || (rule.t == "regex" && js.matches(test, rule.v1, rule.ignoreCase).None?)
  {
  }

  /** The configuration of a node with one rule, which compares a number at a path with numbers. */
  function OneRule(path: string, t: string, b: int, c: int, checkall: string, previous: Plain): Config
  {
    Config(Text(path), "msg", [Compared(t, Operand(Number(b), "num"), Operand(Number(c), "num"), false)], checkall,
           previous)
  }

  /** A single rule that can be evaluated: it is tried, and the one output says whether it fired. */
  lemma SingleRule(rules: seq<Rule>, prop: Value, checkall: string, message: D.Json, js: Operators,
                   result: Option<seq<Option<D.Json>>>, fired: seq<bool>)
    requires |rules| == 1 && !IsElse(rules[0]) && Test(rules[0], prop, js).Some?
    requires AsMeant(rules, prop, checkall, message, js, result, fired)
    ensures |fired| == 1 && FiresAsMeant(rules, prop, js, fired)
    ensures result == Some([if fired[0] then Some(message) else None])
  {
    assert !CannotBeEvaluated(rules, prop, js, checkall) by {
      forall i | 0 <= i < |rules| ensures !StuckAt(rules, prop, js, checkall, i) {}
    }
    assert |fired| == 1;
    assert result.value == [if fired[0] then Some(message) else None];
  }

  /** From the configuration to the output: the message goes out if and only if the comparison holds. */
  lemma OneRuleDecides(path: string, t: string, a: int, b: int, c: int, checkall: string, previous: Plain,
                       message: D.Json, js: Operators, result: Option<seq<Option<D.Json>>>, fired: seq<bool>)
    requires OrdersNumbers(js) && D.Keys(path) != [] && D.Lookup(D.Keys(path), message) == Some(D.Number(a))
    requires var config := OneRule(path, t, b, c, checkall, previous);
             Tested(config, message, js).Some? ==>
               AsMeant(RulesFor(config, message, js), Tested(config, message, js).value, checkall, message, js, result,
                       fired)
    requires t in {"eq", "neq", "lt", "lte", "gt", "gte", "btwn"}
    ensures var holds := (t == "eq" && a == b) || (t == "neq" && a != b) || (t == "lt" && a < b)
                         || (t == "lte" && a <= b) || (t == "gt" && a > b) || (t == "gte" && a >= b)
                         || (t == "btwn" && b <= a <= c);
            result == Some([if holds then Some(message) else None])
  {
    var config := OneRule(path, t, b, c, checkall, previous);
    ReadIsLookup(D.Keys(path), message, []);
    assert Tested(config, message, js) == Some(Number(a));
    var rules := RulesFor(config, message, js);
    assert rules[0] == Rule(t, Number(b), Number(c), false);
    KnownOperators(rules[0], Number(a), js);
    SingleRule(rules, Number(a), checkall, message, js, result, fired);
    NumberRules(rules, a, js, fired, 0, b, c);
  }

  /** A text at the path of the property is tested as it is, or as a number if the type of the property says so. */
  lemma PropertyIsTested(config: Config, message: D.Json, js: Operators, text: string)
    requires config.property.Text? && D.Keys(config.property.text) != []
    requires D.Lookup(D.Keys(config.property.text), message) == Some(D.Text(text))
    ensures config.propertyType != "num" ==> Tested(config, message, js) == Some(Text(text))
    ensures config.propertyType == "num" ==>
              Tested(config, message, js)
              == Some(if js.number(Text(text)).Some? then Number(js.number(Text(text)).value) else NotANumber)
  {
    ReadIsLookup(D.Keys(config.property.text), message, []);
  }

  /** The values of a message are compared as they are, an object as that part of the message. */
  lemma ValuesAreKept(config: Config, message: D.Json, js: Operators)
    requires config.property.Text? && config.propertyType != "num" && D.Keys(config.property.text) != []
    requires D.Lookup(D.Keys(config.property.text), message).Some?
    ensures Tested(config, message, js)
         == match D.Lookup(D.Keys(config.property.text), message).value
            case Number(n) => Some(Number(n))
            case Text(text) => Some(Text(text))
            case Boolean(flag) => Some(Boolean(flag))
            case Null => Some(Null)
            case Object(_) => Some(Part(D.Keys(config.property.text)))
  {
    ReadIsLookup(D.Keys(config.property.text), message, []);
    assert [] + D.Keys(config.property.text) == D.Keys(config.property.text);
  }

  /** How many rules are tried: all of them, unless checkall is "false" and one fires before the last. */
  lemma RulesTried(rules: seq<Rule>, prop: Value, js: Operators, checkall: string, fired: seq<bool>)
    requires FiresAsMeant(rules, prop, js, fired) && StopsAsMeant(rules, checkall, fired)
    ensures checkall != "false" ==> |fired| == |rules|
    ensures |fired| < |rules| ==> checkall == "false" && |fired| > 0 && fired[|fired| - 1]
    ensures checkall == "false" ==> forall i :: 0 <= i < |fired| - 1 ==> !fired[i]
  {
  }

  /** What an operand stands for, kind by kind. */
  lemma OperandStandsFor(operand: Operand, config: Config, message: D.Json, js: Operators)
    ensures operand.kind == "prev" ==> Retrieved(operand, config, message, js) == config.previousValue
    ensures operand.kind == "str" ==> Retrieved(operand, config, message, js) == operand.value
    ensures operand.kind == "num" && operand.value != Undefined ==>
              Retrieved(operand, config, message, js)
              == if js.number(operand.value).Some? then Number(js.number(operand.value).value) else NotANumber
    ensures operand.kind == "msg" && operand.value.Text? && D.Keys(operand.value.text) != [] ==>
              match D.Lookup(D.Keys(operand.value.text), message)
              case Some(Text(text)) =>
                Retrieved(operand, config, message, js)
                == if js.number(Text(text)).Some? then Number(js.number(Text(text)).value) else Text(text)
              case Some(Boolean(flag)) =>
                js.number(Boolean(flag)).None? ==> Retrieved(operand, config, message, js) == Boolean(flag)
              case Some(Number(n)) =>
                js.number(Number(n)) == Some(n) ==> Retrieved(operand, config, message, js) == Number(n)
              case _ => true
  {
    if operand.kind == "msg" && operand.value.Text? {
      ReadIsLookup(D.Keys(operand.value.text), message, []);
    }
  }

  // ---------- consequences ----------

  /** The declarative reading leaves no choice: two outcomes that meet it agree as far as both go. */
  lemma {:induction false} ReadingIsUnique(rules: seq<Rule>, prop: Value, js: Operators,
                                           a: seq<bool>, b: seq<bool>, count: nat)
    requires FiresAsMeant(rules, prop, js, a) && FiresAsMeant(rules, prop, js, b)
    requires count <= |a| && count <= |b|
    ensures a[..count] == b[..count]
  {
    if count > 0 {
      ReadingIsUnique(rules, prop, js, a, b, count - 1);
      var i := count - 1;
      ShouldFireIsLocal(rules, prop, js, a[..i], a, i);
      ShouldFireIsLocal(rules, prop, js, b[..i], b, i);
      assert a[..count] == a[..i] + [a[i]] && b[..count] == b[..i] + [b[i]];
    }
  }

  /** An else right after another else fires exactly when that one does not, whatever the other rules did. */
  lemma AdjacentElsesAlternate(rules: seq<Rule>, prop: Value, js: Operators, fired: seq<bool>, i: nat)
    requires FiresAsMeant(rules, prop, js, fired) && i + 1 < |fired| && IsElse(rules[i]) && IsElse(rules[i + 1])
    ensures fired[i + 1] <==> !fired[i]
  {
    assert fired[i + 1] == QuietSinceElse(rules, fired, i + 1);
    if fired[i] {
      assert !QuietSinceElse(rules, fired, i + 1);
    } else {
      forall j | 0 <= j < i + 1 && fired[j]
        ensures exists k :: j < k < i + 1 && IsElse(rules[k])
      {
        assert j < i < i + 1 && IsElse(rules[i]);
      }
    }
  }

  /** With one else, at the end, the node routes every message somewhere: the else fires exactly when no
      other rule holds. */
  lemma FinalElseCatchesTheRest(rules: seq<Rule>, prop: Value, js: Operators, fired: seq<bool>)
    requires FiresAsMeant(rules, prop, js, fired) && |fired| == |rules| > 0 && IsElse(rules[|rules| - 1])
    requires forall i :: 0 <= i < |rules| - 1 ==> !IsElse(rules[i])
    ensures fired[|rules| - 1] <==>
            forall i :: 0 <= i < |rules| - 1 ==> Test(rules[i], prop, js) != Some(true)
  {
    var last := |rules| - 1;
    assert fired[last] == QuietSinceElse(rules, fired, last);
    assert forall i :: 0 <= i < last ==> fired[i] == (Test(rules[i], prop, js) == Some(true));
    assert forall i :: 0 <= i < last && fired[i] ==> !QuietSinceElse(rules, fired, last);
  }

  /** With checkall "false" at most one output is not null, and it is the last. */
  lemma OnePortAtMost<M(!new)>(rules: seq<Rule>, message: M, onward: seq<Option<M>>, fired: seq<bool>, i: nat)
    requires Shows(onward, message, fired) && StopsAsMeant(rules, "false", fired)
    requires i < |onward| && onward[i].Some?
    ensures i == |onward| - 1 && forall j :: 0 <= j < |onward| && j != i ==> onward[j].None?
  {
    assert fired[i];
  }

  /** So a hop through such a node sends tasks on one port at most, the one of the last rule tried. */
  lemma SwitchSendsOnOnePort(rules: seq<Rule>, message: D.Json, onward: seq<Option<D.Json>>,
                             fired: seq<bool>, task: Flows.Task, wires: seq<seq<string>>)
    requires Shows(onward, message, fired) && StopsAsMeant(rules, "false", fired)
    ensures Executor.Fanned(task, onward, wires, 0)
         == if 0 < |onward| <= |wires| then Executor.FromOutput(task, onward, wires, |onward| - 1) else []
  {
    if onward == [] {
      Executor.OneMessageOnePort(task, onward, wires, 0, |wires|);
    } else {
      forall i | 0 <= i < |onward| && i != |onward| - 1
        ensures onward[i].None?
      {
        assert !fired[i];
      }
      Executor.OneMessageOnePort(task, onward, wires, 0, |onward| - 1);
    }
  }
}
