/**
 Which queue a device's events and tasks go to: `parseInt(deviceID, 16) % queueNumber || 0`.
 */
module Routing {
  import opened Options

  predicate IsSpace(c: char) { c == ' ' || c == '\t' || c == '\n' || c == '\r' }

  function Digit(c: char): (r: Option<nat>)
    ensures r.Some? ==> r.value < 16
  {
    if '0' <= c <= '9' then Some((c - '0') as int)
    else if 'a' <= c <= 'f' then Some((c - 'a') as int + 10)
    else if 'A' <= c <= 'F' then Some((c - 'A') as int + 10)
    else None
  }

  predicate AllHex(s: string) { forall i :: 0 <= i < |s| ==> Digit(s[i]).Some? }

  /** The number a text of hexadecimal digits stands for. */
  function HexValue(s: string): nat
    requires AllHex(s)
  {
    if s == "" then 0 else 16 * HexValue(s[..|s| - 1]) + Digit(s[|s| - 1]).value
  }

  /** The longest prefix that is hexadecimal. */
  function HexPrefix(s: string): (r: string)
    ensures r <= s && AllHex(r)
    ensures |r| < |s| ==> Digit(s[|r|]).None?
  {
    if s == "" || Digit(s[0]).None? then "" else [s[0]] + HexPrefix(s[1..])
  }

  function Trimmed(s: string): string
  {
    if s != "" && IsSpace(s[0]) then Trimmed(s[1..]) else s
  }

  /** The digits in front, without the mark 0x. */
  function LeadingDigits(unsigned: string): (r: string)
    ensures AllHex(r)
  {
    HexPrefix(if |unsigned| >= 2 && (unsigned[..2] == "0x" || unsigned[..2] == "0X") then unsigned[2..] else unsigned)
  }

  /** The number after the white space. */
  function ParseText(text: string): Option<int>
  {
    var signed := text != "" && (text[0] == '-' || text[0] == '+');
    var digits := LeadingDigits(if signed then text[1..] else text);
    var value: int := HexValue(digits);
    if digits == "" then None
    else if signed && text[0] == '-' then Some(0 - value)
    else Some(value)
  }

  /** `parseInt(s, 16)`: white space, a sign, 0x, then digits as far as they go.  None is NaN. */
  function ParseHex(s: string): Option<int> { ParseText(Trimmed(s)) }

  /** JavaScript's %, whose result has the sign of the dividend. */
  function Remainder(a: int, n: nat): int
    requires n > 0
  {
    if a >= 0 then a % n else -((-a) % n)
  }

  function CalculateQueue(deviceId: string, queueNumber: nat): int
    requires queueNumber > 0
  {
    match ParseHex(deviceId)
    case None => 0
    case Some(v) => Remainder(v, queueNumber)
  }

  // ---------- what the number is ----------

  /** The hexadecimal digits of a number. */
  function Hex(n: nat): (s: string)
    ensures s != ""
  {
    (if n < 16 then "" else Hex(n / 16)) + ["0123456789abcdef"[n % 16]]
  }

  lemma DigitsByValue(d: nat)
    requires d < 16
    ensures Digit("0123456789abcdef"[d]) == Some(d) && Digit("0123456789ABCDEF"[d]) == Some(d)
  {
  }

  /** Digits are what hexadecimal numbers are written with, in lower or upper case, and nothing else. */
  lemma DigitsExactly(c: char, d: nat)
    ensures Digit(c) == Some(d) <==> d < 16 && (c == "0123456789abcdef"[d] || c == "0123456789ABCDEF"[d])
  {
    if d < 16 {
      DigitsByValue(d);
    }
  }

  lemma HexValueOfMore(s: string, c: char)
    requires AllHex(s) && Digit(c).Some?
    ensures AllHex(s + [c]) && HexValue(s + [c]) == 16 * HexValue(s) + Digit(c).value
  {
    assert (s + [c])[..|s|] == s;
  }

  lemma LastHexDigit(n: nat)
    ensures Hex(n) == (if n < 16 then "" else Hex(n / 16)) + ["0123456789abcdef"[n % 16]]
    ensures n == 16 * (n / 16) + n % 16
  {
  }

  /** The number that the digits of a number stand for is that number. */
  lemma {:induction false} HexRoundTrip(n: nat)
    ensures AllHex(Hex(n)) && HexValue(Hex(n)) == n
    decreases n
  {
    var q, d := n / 16, n % 16;
    LastHexDigit(n);
    DigitsByValue(d);
    var front := if n < 16 then "" else Hex(q);
    if n >= 16 {
      HexRoundTrip(q);
    }
    assert AllHex(front) && HexValue(front) == q;
    HexValueOfMore(front, "0123456789abcdef"[d]);
  }

  /** Zeros in front change nothing. */
  lemma {:induction false} LeadingZero(s: string)
    requires AllHex(s)
    ensures AllHex("0" + s) && HexValue("0" + s) == HexValue(s)
    decreases |s|
  {
    var longer := "0" + s;
    if s == "" {
      assert longer[..0] == "" && HexValue("") == 0;
    } else {
      LeadingZero(s[..|s| - 1]);
      assert longer[..|longer| - 1] == "0" + s[..|s| - 1];
    }
  }

  predicate IsSign(sign: string) { sign == "" || sign == "+" || sign == "-" }

  predicate IsHexMark(mark: string) { mark == "" || mark == "0x" || mark == "0X" }

  lemma {:induction false} TrimmedSpaces(spaces: string, text: string)
    requires forall i :: 0 <= i < |spaces| ==> spaces[i] in {' ', '\t', '\n', '\r'}
    requires text == "" || text[0] !in {' ', '\t', '\n', '\r'}
    ensures Trimmed(spaces + text) == text
    decreases |spaces|
  {
    if spaces == "" {
      assert spaces + text == text;
    } else {
      assert (spaces + text)[1..] == spaces[1..] + text;
      TrimmedSpaces(spaces[1..], text);
    }
  }

  lemma {:induction false} HexPrefixEnds(digits: string, rest: string)
    requires AllHex(digits) && (rest == "" || Digit(rest[0]).None?)
    ensures HexPrefix(digits + rest) == digits
    decreases |digits|
  {
    if digits == "" {
      assert digits + rest == rest;
    } else {
      assert (digits + rest)[1..] == digits[1..] + rest;
      HexPrefixEnds(digits[1..], rest);
    }
  }

  /** Digits without a mark are not themselves taken for one. */
  lemma DigitsAfterMark(mark: string, digits: string, rest: string)
    requires IsHexMark(mark) && digits != "" && AllHex(digits) && (rest == "" || Digit(rest[0]).None?)
    requires mark == "" && digits == "0" && rest != "" ==> rest[0] !in {'x', 'X'}
    ensures LeadingDigits(mark + (digits + rest)) == digits
  {
    var all := digits + rest;
    HexPrefixEnds(digits, rest);
    if mark == "" {
      assert mark + all == all;
      if |all| >= 2 {
        assert all[..2][0] == all[0] && all[..2][1] == all[1];
        if |digits| >= 2 {
          assert Digit(all[1]).Some?;
        } else if digits[0] == '0' {
          assert digits == "0";
        }
        assert all[..2] != "0x" && all[..2] != "0X";
      }
    } else {
      assert (mark + all)[..2] == mark && (mark + all)[2..] == all;
    }
  }

  /** The parts of a text that stands for a number: white space, a sign, a mark, digits, and something that is no
      digit. */
  lemma ParsedNumber(spaces: string, sign: string, mark: string, digits: string, rest: string)
    requires forall i :: 0 <= i < |spaces| ==> spaces[i] in {' ', '\t', '\n', '\r'}
    requires IsSign(sign) && IsHexMark(mark) && digits != "" && AllHex(digits)
    requires rest == "" || Digit(rest[0]).None?
    requires mark == "" && digits == "0" && rest != "" ==> rest[0] !in {'x', 'X'}
    ensures ParseHex(spaces + (sign + (mark + (digits + rest))))
         == Some(if sign == "-" then 0 - HexValue(digits) else HexValue(digits))
  {
    var unsigned := mark + (digits + rest);
    DigitsAfterMark(mark, digits, rest);
    NothingBefore(mark, digits, rest);
    SignedText(sign, unsigned);
    TrimmedSpaces(spaces, sign + unsigned);
  }

  lemma NothingBefore(mark: string, digits: string, rest: string)
    requires IsHexMark(mark) && digits != "" && AllHex(digits)
    ensures var unsigned := mark + (digits + rest);
            unsigned != "" && unsigned[0] !in {' ', '\t', '\n', '\r', '-', '+'}
  {
    var unsigned := mark + (digits + rest);
    assert Digit(digits[0]).Some?;
    assert unsigned[0] == if mark == "" then digits[0] else '0';
  }

  lemma SignedText(sign: string, unsigned: string)
    requires IsSign(sign) && unsigned != "" && unsigned[0] !in {' ', '\t', '\n', '\r', '-', '+'}
    requires LeadingDigits(unsigned) != ""
    ensures (sign + unsigned)[0] !in {' ', '\t', '\n', '\r'}
    ensures var value := HexValue(LeadingDigits(unsigned));
            ParseText(sign + unsigned) == Some(if sign == "-" then 0 - value else value)
  {
    if sign == "" {
      assert sign + unsigned == unsigned;
    } else {
      assert (sign + unsigned)[1..] == unsigned && (sign + unsigned)[0] == sign[0];
    }
  }

  /** JavaScript's remainder: smaller than the divisor, with the sign of the dividend, and what is left of it. */
  lemma RemainderIsLeft(a: int, n: nat)
    requires n > 0
    ensures var r := Remainder(a, n);
            -(n as int) < r < n && (a >= 0 ==> r >= 0) && (a <= 0 ==> r <= 0) && exists q: int :: a == q * n + r
  {
    if a >= 0 {
      assert a == (a / n) * n + a % n;
    } else {
      var q := (-a) / n;
      assert -a == q * n + (-a) % n;
      assert (-q) * n == -(q * n);
      assert a == (-q) * n + Remainder(a, n);
    }
  }

  /** A text that stands for a number goes to the queue of its remainder, any other one to queue 0. */
  lemma QueueOfText(deviceId: string, queueNumber: nat)
    requires queueNumber > 0
    ensures ParseHex(deviceId).None? ==> CalculateQueue(deviceId, queueNumber) == 0
    ensures ParseHex(deviceId).Some? ==>
              CalculateQueue(deviceId, queueNumber) == Remainder(ParseHex(deviceId).value, queueNumber)
  {
  }

  /** The identifier made of the hexadecimal digits of n goes to queue n modulo the number of queues. */
  lemma NumberedDevice(n: nat, queueNumber: nat)
    requires queueNumber > 0
    ensures CalculateQueue(Hex(n), queueNumber) == n % queueNumber
  {
    HexRoundTrip(n);
    HexIdsAreSpreadByValue(Hex(n), queueNumber);
  }

  lemma HexPrefixOfHex(s: string)
    requires AllHex(s)
    ensures HexPrefix(s) == s
  {
    if s != "" {
      HexPrefixOfHex(s[1..]);
    }
  }

  /** An identifier of hexadecimal digits, as the comment on the function asks for, is spread by its value. */
  lemma HexIdsAreSpreadByValue(deviceId: string, queueNumber: nat)
    requires queueNumber > 0 && deviceId != "" && AllHex(deviceId)
    ensures CalculateQueue(deviceId, queueNumber) == HexValue(deviceId) % queueNumber
    ensures 0 <= CalculateQueue(deviceId, queueNumber) < queueNumber
  {
    HexPrefixOfHex(deviceId);
    HexIsPlain(deviceId);
  }

  /** Hexadecimal digits have no white space, sign or 0x in front. */
  lemma HexIsPlain(s: string)
    requires s != "" && AllHex(s)
    ensures Trimmed(s) == s && s[0] != '-' && s[0] != '+'
    ensures |s| >= 2 ==> s[..2] != "0x" && s[..2] != "0X"
  {
    assert Digit(s[0]).Some?;
    if |s| >= 2 {
      assert Digit(s[1]).Some?;
      assert s[..2][1] == s[1];
    }
  }

  /** Exactly when the number is the index of a queue: it fails for the negative numbers that the number of
      queues does not divide. */
  lemma QueueExistsExactly(deviceId: string, queueNumber: nat)
    requires queueNumber > 0
    ensures 0 <= CalculateQueue(deviceId, queueNumber) < queueNumber
       <==> ParseHex(deviceId).None? || ParseHex(deviceId).value >= 0 || ParseHex(deviceId).value % queueNumber == 0
  {
    if ParseHex(deviceId).Some? && ParseHex(deviceId).value < 0 {
      NegatedRemainder(-ParseHex(deviceId).value, queueNumber);
    }
  }

  lemma NegatedRemainder(v: int, n: int)
    requires n > 0
    ensures (-v) % n == 0 <==> v % n == 0
  {
    var q, r := v / n, v % n;
    assert v == q * n + r;
    var p, s := (-v) / n, (-v) % n;
    assert -v == p * n + s;
    assert (p + q) * n == -(r + s);
    if r == 0 || s == 0 {
      assert 0 <= r + s < n;
      SmallMultiple(p + q, n);
    }
  }

  lemma SmallMultiple(k: int, n: int)
    requires n > 0
    ensures k == 0 || k * n >= n || k * n <= -n
  {
    if k >= 1 {
      assert k * n >= 1 * n;
    } else if k <= -1 {
      assert k * n <= (-1) * n;
    }
  }

  lemma NegativeIdHasNoQueue()
    ensures CalculateQueue("-3", 10) == -3
  {
    assert HexPrefix("3") == "3";
    assert HexValue("") == 0 && "3"[..0] == "";
    assert HexValue("3") == 3;
    assert "-3"[1..] == "3";
    assert ParseHex("-3") == Some(-3);
  }
}
