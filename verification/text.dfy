/** String primitives of the JavaScript runtime that the application relies on:
    digit filtering (`replace(/\D/g, '')`), prefix and suffix tests, `includes`,
    `trim`, `toLowerCase`, `split` and decimal rendering of numbers. */
module Text {
  import opened Js

  predicate IsDigit(c: char)
  {
    '0' <= c <= '9'
  }

  predicate AllDigits(s: string)
  {
    forall i :: 0 <= i < |s| ==> IsDigit(s[i])
  }

  /** `s.replace(/\D/g, '')`: the digits of `s`, in order. */
  function DigitsOnly(s: string): (r: string)
    ensures AllDigits(r)
    ensures |r| <= |s|
  {
    if s == [] then []
    else (if IsDigit(s[0]) then [s[0]] else []) + DigitsOnly(s[1..])
  }

  lemma {:induction false} DigitsOnlyAppend(a: string, b: string)
    ensures DigitsOnly(a + b) == DigitsOnly(a) + DigitsOnly(b)
  {
    if a == [] {
      assert a + b == b;
    } else {
      var head := if IsDigit(a[0]) then [a[0]] else [];
      assert DigitsOnly(a + b) == head + DigitsOnly(a[1..] + b) by {
        assert (a + b)[0] == a[0];
        assert (a + b)[1..] == a[1..] + b;
      }
      DigitsOnlyAppend(a[1..], b);
    }
  }

  /** Filtering digits out of a string of digits gives the string back. */
  lemma {:induction false} DigitsOnlyOfDigits(s: string)
    requires AllDigits(s)
    ensures DigitsOnly(s) == s
  {
    if s != [] {
      DigitsOnlyOfDigits(s[1..]);
    }
  }

  /** Filtering digits out of a string without any digit gives the empty string. */
  lemma {:induction false} DigitsOnlyOfNonDigits(s: string)
    requires forall i :: 0 <= i < |s| ==> !IsDigit(s[i])
    ensures DigitsOnly(s) == ""
  {
    if s != [] {
      DigitsOnlyOfNonDigits(s[1..]);
    }
  }

  predicate StartsWith(s: string, prefix: string)
  {
    |prefix| <= |s| && s[..|prefix|] == prefix
  }

  predicate EndsWith(s: string, suffix: string)
  {
    |suffix| <= |s| && s[|s| - |suffix|..] == suffix
  }

  /** `s.includes(t)`. */
  predicate Contains(s: string, t: string)
    decreases |s|
  {
    StartsWith(s, t) || (|s| > 0 && Contains(s[1..], t))
  }

  lemma {:induction false} ContainsAppend(a: string, b: string, t: string)
    requires Contains(b, t)
    ensures Contains(a + b, t)
    decreases |a|
  {
    if a == [] {
      assert a + b == b;
    } else {
      assert (a + b)[1..] == a[1..] + b;
      ContainsAppend(a[1..], b, t);
    }
  }

  lemma StartsWithContains(s: string, t: string)
    requires StartsWith(s, t)
    ensures Contains(s, t)
  {
  }

  function LowerChar(c: char): char
  {
    if 'A' <= c <= 'Z' then (c as int + 32) as char else c
  }

  /** `s.toLowerCase()`, on the ASCII letters. */
  function Lower(s: string): (r: string)
    ensures |r| == |s|
    ensures forall i :: 0 <= i < |s| ==> r[i] == LowerChar(s[i])
  {
    if s == [] then [] else [LowerChar(s[0])] + Lower(s[1..])
  }

  /** A string without upper-case letters is its own lowercase form. */
  lemma LowerOfLowercase(s: string)
    requires forall i :: 0 <= i < |s| ==> !('A' <= s[i] <= 'Z')
    ensures Lower(s) == s
  {
    assert forall i :: 0 <= i < |s| ==> Lower(s)[i] == s[i];
  }

  /** Lowercasing works character by character, so it distributes over `+`. */
  lemma LowerAppend(a: string, b: string)
    ensures Lower(a + b) == Lower(a) + Lower(b)
  {
    var l, r := Lower(a + b), Lower(a) + Lower(b);
    forall i | 0 <= i < |a + b|
      ensures l[i] == r[i]
    {
      if i < |a| {
        assert (a + b)[i] == a[i];
      } else {
        assert (a + b)[i] == b[i - |a|];
      }
    }
  }

  /** The characters `String.prototype.trim` removes: ECMAScript WhiteSpace
      (tab, vertical tab, form feed, space, no-break space, byte order mark and
      the Unicode space separators) and LineTerminator. */
  predicate IsSpace(c: char)
  {
    || c == '\t' || c == '\U{B}' || c == '\U{C}' || c == ' '
    || c == '\U{A0}' || c == '\U{FEFF}' || c == '\U{1680}'
    || ('\U{2000}' <= c <= '\U{200A}') || c == '\U{202F}' || c == '\U{205F}'
    || c == '\U{3000}'
    || c == '\n' || c == '\r' || c == '\U{2028}' || c == '\U{2029}'
  }

  function TrimEnd(s: string): (r: string)
    ensures |r| <= |s| && r == s[..|r|]
    ensures r == [] || !IsSpace(r[|r| - 1])
    ensures forall i :: |r| <= i < |s| ==> IsSpace(s[i])
  {
    if s != [] && IsSpace(s[|s| - 1]) then TrimEnd(s[..|s| - 1]) else s
  }

  /** The number of white-space characters `s` starts with. */
  function LeadingSpaces(s: string): (n: nat)
    ensures n <= |s|
    ensures forall k :: 0 <= k < n ==> IsSpace(s[k])
    ensures n < |s| ==> !IsSpace(s[n])
  {
    if s != [] && IsSpace(s[0]) then
      var n := 1 + LeadingSpaces(s[1..]);
      assert forall k :: 1 <= k < n ==> s[k] == s[1..][k - 1];
      n
    else 0
  }

  /** `s.trim()`: the slice of `s` left once its leading and trailing white
      space is cut off. */
  function Trim(s: string): (r: string)
    ensures r == [] || (!IsSpace(r[0]) && !IsSpace(r[|r| - 1]))
    ensures LeadingSpaces(s) + |r| <= |s| && r == s[LeadingSpaces(s)..LeadingSpaces(s) + |r|]
    ensures forall k :: LeadingSpaces(s) + |r| <= k < |s| ==> IsSpace(s[k])
  {
    var i := LeadingSpaces(s);
    var r := TrimEnd(s[i..]);
    assert forall k :: i + |r| <= k < |s| ==> s[k] == s[i..][k - i];
    r
  }

  lemma TrimEndOfTrimmed(s: string)
    requires s == [] || !IsSpace(s[|s| - 1])
    ensures TrimEnd(s) == s
  {
  }

  lemma LeadingSpacesOfTrimmed(s: string)
    requires s == [] || !IsSpace(s[0])
    ensures s[LeadingSpaces(s)..] == s
  {
  }

  /** Trimming is idempotent. */
  lemma TrimIdempotent(s: string)
    ensures Trim(Trim(s)) == Trim(s)
  {
    var t := Trim(s);
    LeadingSpacesOfTrimmed(t);
    TrimEndOfTrimmed(t);
    assert Trim(t) == TrimEnd(t[LeadingSpaces(t)..]);
  }

  /** The position of the first `c` in `s`, or `|s|` when there is none. */
  function IndexOf(s: string, c: char): (i: nat)
    ensures i <= |s|
    ensures forall j :: 0 <= j < i ==> s[j] != c
    ensures i < |s| ==> s[i] == c
  {
    if s == [] then 0 else if s[0] == c then 0 else 1 + IndexOf(s[1..], c)
  }

  /** `s.split(sep)` for a one-character separator. */
  function Split(s: string, sep: char): (parts: seq<string>)
    ensures |parts| >= 1
    decreases |s|
  {
    var i := IndexOf(s, sep);
    if i == |s| then [s] else [s[..i]] + Split(s[i + 1..], sep)
  }

  /** `parts.join(sep)` for a one-character separator. */
  function Join(parts: seq<string>, sep: char): string
  {
    if |parts| == 0 then ""
    else if |parts| == 1 then parts[0]
    else parts[0] + [sep] + Join(parts[1..], sep)
  }

  /** Splitting and joining on the same separator gives the string back. */
  lemma {:induction false} SplitJoin(s: string, sep: char)
    ensures Join(Split(s, sep), sep) == s
    decreases |s|
  {
    var i := IndexOf(s, sep);
    if i != |s| {
      var rest := s[i + 1..];
      var parts := [s[..i]] + Split(rest, sep);
      assert Split(s, sep) == parts;
      assert Join(parts, sep) == s[..i] + [sep] + rest by {
        SplitJoin(rest, sep);
        assert parts[1..] == Split(rest, sep);
      }
      assert s == s[..i] + [sep] + rest;
    }
  }

  /** No part of `s.split(sep)` holds the separator. */
  lemma {:induction false} SplitPartsFree(s: string, sep: char)
    ensures forall k :: 0 <= k < |Split(s, sep)| ==> sep !in Split(s, sep)[k]
    decreases |s|
  {
    var i := IndexOf(s, sep);
    if i != |s| {
      var rest := s[i + 1..];
      SplitPartsFree(rest, sep);
      var parts := Split(s, sep);
      assert parts == [s[..i]] + Split(rest, sep);
      forall k | 0 <= k < |parts|
        ensures sep !in parts[k]
      {
        if k > 0 {
          assert parts[k] == Split(rest, sep)[k - 1];
        }
      }
    }
  }

  /** The first part of `s.split(sep)` is the text before the first separator. */
  lemma SplitFirst(s: string, sep: char)
    ensures Split(s, sep)[0] == s[..IndexOf(s, sep)]
  {
  }

  /** A string without the separator splits into itself alone. */
  lemma SplitNoSeparator(s: string, sep: char)
    requires sep !in s
    ensures Split(s, sep) == [s]
  {
    assert IndexOf(s, sep) == |s|;
  }

  function DigitChar(d: nat): char
    requires d < 10
  {
    (48 + d) as char
  }

  /** Decimal rendering of a natural number, without leading zeros. */
  function NatToString(n: nat): (r: string)
    ensures |r| >= 1 && AllDigits(r)
  {
    if n < 10 then [DigitChar(n)] else NatToString(n / 10) + [DigitChar(n % 10)]
  }

  /** `String(n)` for an integer. */
  function IntToString(n: int): string
  {
    if n < 0 then "-" + NatToString(-n) else NatToString(n)
  }

  predicate IsHexDigit(c: char)
  {
    ('0' <= c <= '9') || ('a' <= c <= 'f') || ('A' <= c <= 'F')
  }

  function HexDigitValue(c: char): (v: nat)
    requires IsHexDigit(c)
    ensures v < 16
  {
    if '0' <= c <= '9' then c as int - 48
    else if 'a' <= c <= 'f' then c as int - 87
    else c as int - 55
  }

  predicate AllHex(s: string)
  {
    forall i :: 0 <= i < |s| ==> IsHexDigit(s[i])
  }

  /** `parseInt(s, 16)` for a string made only of hexadecimal digits. */
  function HexValue(s: string): (v: nat)
    requires AllHex(s)
    decreases |s|
  {
    if s == [] then 0 else HexValue(s[..|s| - 1]) * 16 + HexDigitValue(s[|s| - 1])
  }

  /** The length of the leading run of hexadecimal digits of `s`. */
  function HexRun(s: string): (k: nat)
    ensures k <= |s| && AllHex(s[..k])
    ensures k < |s| ==> !IsHexDigit(s[k])
  {
    if s != [] && IsHexDigit(s[0]) then
      var k := 1 + HexRun(s[1..]);
      assert s[..k] == [s[0]] + s[1..][..k - 1];
      k
    else 0
  }

  /** `parseInt(s, 16)` on a string without leading white space: an optional
      sign, an optional `0x` or `0X`, then the longest run of hexadecimal
      digits; `None` stands for `NaN`, the result when that run is empty. */
  function ParseIntHex(s: string): (r: Option<int>)
    ensures AllHex(s) && s != [] ==> r == Some(HexValue(s))
  {
    var negative := s != [] && s[0] == '-';
    var unsigned := if s != [] && (s[0] == '-' || s[0] == '+') then s[1..] else s;
    var body := if StartsWith(unsigned, "0x") || StartsWith(unsigned, "0X") then unsigned[2..] else unsigned;
    var k := HexRun(body);
    if k == 0 then None
    else if negative then Some(0 - HexValue(body[..k]))
    else
      assert AllHex(s) && s != [] ==> body == s && k == |s| && body[..k] == s by {
        if AllHex(s) && s != [] {
          assert !StartsWith(s, "0x") && !StartsWith(s, "0X") by {
            if |s| >= 2 { assert s[1] == s[..2][1]; }
          }
        }
      }
      Some(HexValue(body[..k]))
  }

  /** A string that starts with neither a sign nor a hexadecimal digit parses to `NaN`. */
  lemma ParseIntHexNaN(s: string)
    requires s != [] && !IsHexDigit(s[0]) && s[0] != '-' && s[0] != '+'
    ensures ParseIntHex(s) == None
  {
    assert !StartsWith(s, "0x") && !StartsWith(s, "0X") by {
      if |s| >= 2 { assert s[..2][0] == s[0]; }
    }
  }

  /** `parts.join(sep)` for any separator. */
  function JoinWith(parts: seq<string>, sep: string): (r: string)
    ensures |parts| == 1 ==> r == parts[0]
    ensures |parts| > 0 ==> StartsWith(r, parts[0])
    ensures |parts| > 0 && parts[0] != "" ==> r != ""
  {
    if |parts| == 0 then ""
    else if |parts| == 1 then parts[0]
    else
      var r := parts[0] + sep + JoinWith(parts[1..], sep);
      assert r[..|parts[0]|] == parts[0];
      r
  }

  /** `String(v)`, as a template literal renders an interpolated value;
      integers only (floating-point rendering is not part of this model). */
  function ToText(v: JsValue): string
    decreases v
  {
    match v
    case Undefined => "undefined"
    case Null => "null"
    case Bool(b) => if b then "true" else "false"
    case Num(n) => IntToString(n)
    case Str(s) => s
    case Obj(_) => "[object Object]"
    case Arr(items) =>
      JoinWith(seq(|items|, i requires 0 <= i < |items| =>
        if items[i].Undefined? || items[i].Null? then "" else ToText(items[i])), ",")
  }

  /** What a failed API call throws: an `Error` carrying a message, or the
      `TypeError` of reading `error` off a body that parsed to `null`. */
  datatype Thrown = ErrorWith(message: string) | NullBodyTypeError

  /** `throw new Error(err.error || fallback)`, where `err` is the parsed error
      body and an unparseable body reads as `{}`: what the API calls throw on a
      failed status. A body of `null` makes the property read itself throw. */
  function ErrorMessage(body: Option<JsValue>, fallback: string): (thrown: Thrown)
    ensures thrown.NullBodyTypeError? <==> body == Some(Null) || body == Some(Undefined)
    ensures body.None? ==> thrown == ErrorWith(fallback)
    ensures body.Some? && body.value != Null && body.value != Undefined && !Truthy(Field(body.value, "error")) ==>
      thrown == ErrorWith(fallback)
    ensures body.Some? && Field(body.value, "error").Str? && Field(body.value, "error").s != "" ==>
      thrown == ErrorWith(Field(body.value, "error").s)
  {
    var err := body.GetOr(Obj(map[]));
    if err == Null || err == Undefined then NullBodyTypeError
    else ErrorWith(ToText(Or(Field(err, "error"), Str(fallback))))
  }

  /** A server that reports a non-empty `error` text has it shown as is, a
      body without one shows the caller's fallback, and a `null` body fails
      before any message is chosen. */
  lemma ErrorMessageRoundTrip(m: string, fallback: string, rest: map<string, JsValue>)
    requires m != ""
    ensures ErrorMessage(Some(Obj(rest["error" := Str(m)])), fallback) == ErrorWith(m)
    ensures "error" !in rest ==> ErrorMessage(Some(Obj(rest)), fallback) == ErrorWith(fallback)
    ensures ErrorMessage(Some(Null), fallback) == NullBodyTypeError
  {
  }
}
