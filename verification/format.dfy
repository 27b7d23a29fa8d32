/** Phone number display: `formatPhone` renders stored numbers as
    `(AAA)-PPP-LLLL`, and `formatUSPhone` formats a number progressively as it
    is typed, as `(AAA) PPP-LLLL`. */
module Format {
  import opened Js
  import opened Text

  /** What `formatPhone` shows for a missing number: the three characters
      U+00E2 U+20AC U+201D, that is an em dash whose UTF-8 bytes were read as
      Windows-1252 text. */
  const PhonePlaceholder: string := "\U{E2}\U{20AC}\U{201D}"

  /** Ten digits laid out as `(AAA)-PPP-LLLL`. */
  function Dashed(d: string): (r: string)
    requires |d| == 10
    ensures |r| == 14
  {
    "(" + d[..3] + ")-" + d[3..6] + "-" + d[6..]
  }

  /** The national digits `formatPhone` lays out, when it lays any out: all ten
      digits, or the last ten of eleven digits that start with the country code 1. */
  function NationalDigits(digits: string): Option<string>
  {
    if |digits| == 10 then Some(digits)
    else if |digits| == 11 && digits[0] == '1' then Some(digits[1..])
    else None
  }

  /** `formatPhone`. */
  function FormatPhone(value: Option<string>): (r: string)
    ensures !Present(value) ==> r == PhonePlaceholder
    ensures Present(value) && NationalDigits(DigitsOnly(value.value)).None? ==> r == value.value
    ensures Present(value) && NationalDigits(DigitsOnly(value.value)).Some? ==>
      && |r| == 14
      && r[0] == '(' && r[4] == ')' && r[5] == '-' && r[9] == '-'
      && DigitsOnly(r) == NationalDigits(DigitsOnly(value.value)).value
  {
    if !Present(value) then PhonePlaceholder
    else
      var digits := DigitsOnly(value.value);
      match NationalDigits(digits)
      case Some(d) => DashedDigits(d); Dashed(d)
      case None => value.value
  }

  /** Punctuation followed by digits filters down to the digits. */
  lemma PunctuatedDigits(p: string, x: string)
    requires forall i :: 0 <= i < |p| ==> !IsDigit(p[i])
    requires AllDigits(x)
    ensures DigitsOnly(p + x) == x
  {
    DigitsOnlyOfNonDigits(p);
    DigitsOnlyOfDigits(x);
    DigitsOnlyAppend(p, x);
  }

  /** The punctuation of `(AAA)-PPP-LLLL` holds no digit, so the digits of the
      laid-out number are the ten digits laid out. */
  lemma DashedDigits(d: string)
    requires |d| == 10 && AllDigits(d)
    ensures DigitsOnly(Dashed(d)) == d
  {
    var x, y, z := "(" + d[..3], ")-" + d[3..6], "-" + d[6..];
    assert Dashed(d) == x + y + z;
    PunctuatedDigits("(", d[..3]);
    PunctuatedDigits(")-", d[3..6]);
    PunctuatedDigits("-", d[6..]);
    DigitsOnlyAppend(x, y);
    DigitsOnlyAppend(x + y, z);
    assert d == d[..3] + d[3..6] + d[6..];
  }

  /** Formatting an already formatted number changes nothing. */
  lemma FormatPhoneIdempotent(value: Option<string>)
    ensures FormatPhone(Some(FormatPhone(value))) == FormatPhone(value)
  {
    var r := FormatPhone(value);
    if !Present(value) {
      DigitsOnlyOfNonDigits(PhonePlaceholder);
      assert NationalDigits(DigitsOnly(r)).None?;
    } else {
      match NationalDigits(DigitsOnly(value.value))
      case Some(d) =>
        assert DigitsOnly(r) == d && |d| == 10;
        assert NationalDigits(DigitsOnly(r)) == Some(d);
      case None =>
        assert r == value.value;
    }
  }

  /** The digits `formatUSPhone` keeps: at most the first ten. */
  function Retained(s: string): (d: string)
    ensures AllDigits(d) && |d| <= 10
  {
    var digits := DigitsOnly(s);
    if |digits| <= 10 then digits else digits[..10]
  }

  /** `formatUSPhone`. */
  function FormatUSPhone(input: Option<string>): (r: string)
    ensures !Present(input) ==> r == ""
    ensures Present(input) && |Retained(input.value)| < 4 ==> r == Retained(input.value)
    ensures Present(input) && 4 <= |Retained(input.value)| < 7 ==>
      |r| == |Retained(input.value)| + 3 && r[0] == '(' && r[4] == ')' && r[5] == ' '
    ensures Present(input) && 7 <= |Retained(input.value)| ==>
      |r| == |Retained(input.value)| + 4 && r[0] == '(' && r[4] == ')' && r[5] == ' ' && r[9] == '-'
    ensures Present(input) ==> DigitsOnly(r) == Retained(input.value)
  {
    if !Present(input) then ""
    else
      var d := Retained(input.value);
      RetainedLayoutDigits(d);
      Layout(d)
  }

  /** The progressive layout of up to ten digits. */
  function Layout(d: string): string
    requires |d| <= 10
  {
    if |d| < 4 then d
    else if |d| < 7 then "(" + d[..3] + ") " + d[3..]
    else "(" + d[..3] + ") " + d[3..6] + "-" + d[6..]
  }

  /** The digits of the laid-out number are the digits laid out. */
  lemma RetainedLayoutDigits(d: string)
    requires |d| <= 10 && AllDigits(d)
    ensures DigitsOnly(Layout(d)) == d
  {
    if |d| < 4 {
      DigitsOnlyOfDigits(d);
    } else if |d| < 7 {
      AreaLayoutDigits(d);
    } else {
      FullLayoutDigits(d);
    }
  }

  /** `(ddd) d…` keeps its digits. */
  lemma AreaLayoutDigits(d: string)
    requires 4 <= |d| < 7 && AllDigits(d)
    ensures DigitsOnly(Layout(d)) == d
  {
    var x, y := "(" + d[..3], ") " + d[3..];
    assert Layout(d) == x + y;
    PunctuatedDigits("(", d[..3]);
    PunctuatedDigits(") ", d[3..]);
    DigitsOnlyAppend(x, y);
    assert d == d[..3] + d[3..];
  }

  /** `(ddd) ddd-d…` keeps its digits. */
  lemma FullLayoutDigits(d: string)
    requires 7 <= |d| <= 10 && AllDigits(d)
    ensures DigitsOnly(Layout(d)) == d
  {
    var x, y, z := "(" + d[..3], ") " + d[3..6], "-" + d[6..];
    assert Layout(d) == x + y + z;
    PunctuatedDigits("(", d[..3]);
    PunctuatedDigits(") ", d[3..6]);
    PunctuatedDigits("-", d[6..]);
    DigitsOnlyAppend(x, y);
    DigitsOnlyAppend(x + y, z);
    assert d == d[..3] + d[3..6] + d[6..];
  }

  /** Formatting an already formatted number changes nothing. */
  lemma FormatUSPhoneIdempotent(input: Option<string>)
    ensures FormatUSPhone(Some(FormatUSPhone(input))) == FormatUSPhone(input)
  {
    if Present(input) {
      var d := Retained(input.value);
      var r := FormatUSPhone(input);
      if r != "" {
        assert Retained(r) == d;
      }
    }
  }
}
