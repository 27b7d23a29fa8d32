/** Website theming: the default theme tokens, the shallow per-section merge
    of a tenant's partial theme over them, the `#rgb`/`#rrggbb` to `"r g b"`
    conversion, and the rule for the two gradient CSS variables. */
module WebsiteTheme {
  import opened Js
  import opened Text

  /** One section of theme tokens: token name to value. */
  type Section = map<string, JsValue>

  /** The six sections of a theme. */
  datatype Theme = Theme(
    colors: Section,
    typography: Section,
    radii: Section,
    shadows: Section,
    spacing: Section,
    gradients: Section)

  const SectionNames: set<string> := {"colors", "typography", "radii", "shadows", "spacing", "gradients"}

  const DefaultColors: Section := map[
    "primary" := Str("#0ea5e9"),
    "secondary" := Str("#22c55e"),
    "background" := Str("#f8fafc"),
    "surface" := Str("#ffffff"),
    "surfaceMuted" := Str("#f1f5f9"),
    "textPrimary" := Str("#0f172a"),
    "textMuted" := Str("#475569"),
    "accent" := Str("#f59e0b"),
    "border" := Str("#e2e8f0")]

  const DefaultTypography: Section := map[
    "fontFamily" := Str("\"Inter\", system-ui, -apple-system, \"Segoe UI\", sans-serif"),
    "baseSize" := Num(16),
    "headingWeight" := Num(700),
    "bodyWeight" := Num(500)]

  const DefaultRadii: Section := map["sm" := Num(8), "md" := Num(12), "lg" := Num(16), "xl" := Num(22), "full" := Num(9999)]

  const DefaultShadows: Section := map[
    "card" := Str("0 12px 30px rgba(15, 23, 42, 0.12)"),
    "overlay" := Str("0 24px 68px rgba(15, 23, 42, 0.25)")]

  const DefaultSpacing: Section := map["sectionDesktop" := Num(80), "sectionTablet" := Num(64), "sectionMobile" := Num(40)]

  const DefaultGradients: Section := map[
    "hero" := Str("linear-gradient(135deg, rgba(12, 18, 32, 0.85), rgba(12, 18, 32, 0.35))"),
    "card" := Str("linear-gradient(180deg, rgba(15, 23, 42, 0.04), rgba(15, 23, 42, 0))")]

  /** The default theme tokens. */
  const DefaultTheme: Theme :=
    Theme(DefaultColors, DefaultTypography, DefaultRadii, DefaultShadows, DefaultSpacing, DefaultGradients)

  /** `typeof v === 'object'`. */
  predicate TypeofObject(v: JsValue)
  {
    v.Null? || v.Arr? || v.Obj?
  }

  /** `isObject`: truthy, of type object, and not an array. */
  predicate IsObject(v: JsValue)
  {
    Truthy(v) && TypeofObject(v) && !v.Arr?
  }

  /** Exactly the plain objects pass `isObject`. */
  lemma IsObjectIsPlainObject(v: JsValue)
    ensures IsObject(v) <==> v.Obj?
  {
  }

  /** `isObject(src) ? { ...base, ...src } : base` for one section. */
  function MergeSection(base: Section, incoming: JsValue): (r: Section)
    ensures !IsObject(incoming) ==> r == base
    ensures IsObject(incoming) ==> r.Keys == base.Keys + incoming.fields.Keys
    ensures IsObject(incoming) ==> forall k :: k in incoming.fields ==> r[k] == incoming.fields[k]
    ensures forall k :: k in base && !(IsObject(incoming) && k in incoming.fields) ==> r[k] == base[k]
  {
    if IsObject(incoming) then base + incoming.fields else base
  }

  /** Token by token: `r` has the tokens of `base` and of the incoming object,
      each incoming token's value wins, and the rest keep the base's value. */
  predicate Overrides(base: Section, incoming: JsValue, r: Section)
  {
    var fields := if incoming.Obj? then incoming.fields else map[];
    && r.Keys == base.Keys + fields.Keys
    && forall k :: k in r ==> r[k] == (if k in fields then fields[k] else base[k])
  }

  /** A one-section merge is a token-by-token override. */
  lemma MergeSectionOverrides(base: Section, incoming: JsValue)
    ensures Overrides(base, incoming, MergeSection(base, incoming))
  {
  }

  /** Every section of `r` is its base section overridden by the same-named
      section of `src`. */
  predicate SectionsOverride(base: Theme, src: JsValue, r: Theme)
  {
    && Overrides(base.colors, Field(src, "colors"), r.colors)
    && Overrides(base.typography, Field(src, "typography"), r.typography)
    && Overrides(base.radii, Field(src, "radii"), r.radii)
    && Overrides(base.shadows, Field(src, "shadows"), r.shadows)
    && Overrides(base.spacing, Field(src, "spacing"), r.spacing)
    && Overrides(base.gradients, Field(src, "gradients"), r.gradients)
  }

  /** The sections of `base` each merged with the same-named section of `src`. */
  function MergeOver(base: Theme, src: JsValue): (r: Theme)
    ensures SectionsOverride(base, src, r)
    ensures !src.Obj? ==> r == base
  {
    MergeSectionOverrides(base.colors, Field(src, "colors"));
    MergeSectionOverrides(base.typography, Field(src, "typography"));
    MergeSectionOverrides(base.radii, Field(src, "radii"));
    MergeSectionOverrides(base.shadows, Field(src, "shadows"));
    MergeSectionOverrides(base.spacing, Field(src, "spacing"));
    MergeSectionOverrides(base.gradients, Field(src, "gradients"));
    Theme(
      MergeSection(base.colors, Field(src, "colors")),
      MergeSection(base.typography, Field(src, "typography")),
      MergeSection(base.radii, Field(src, "radii")),
      MergeSection(base.shadows, Field(src, "shadows")),
      MergeSection(base.spacing, Field(src, "spacing")),
      MergeSection(base.gradients, Field(src, "gradients")))
  }

  /** `isObject(incoming)` decides whether the sections are merged at all. */
  function MergeWith(base: Theme, incoming: JsValue): (r: Theme)
    ensures !IsObject(incoming) ==> r == base
  {
    if IsObject(incoming) then MergeOver(base, incoming) else base
  }

  /** `mergeTheme`: the default theme, each section shallowly overridden by the
      same-named section of the incoming object. */
  function MergeTheme(incoming: JsValue): (r: Theme)
    ensures !incoming.Obj? ==> r == DefaultTheme
    ensures incoming.Obj? ==> SectionsOverride(DefaultTheme, incoming, r)
  {
    MergeWith(DefaultTheme, incoming)
  }

  /** An object without sections leaves every section as it was. */
  lemma MergeOverEmpty(base: Theme)
    ensures MergeOver(base, Obj(map[])) == base
  {
  }

  /** A theme as the plain object `mergeTheme` returns. */
  function ThemeObject(t: Theme): JsValue
  {
    Obj(map[
      "colors" := Obj(t.colors),
      "typography" := Obj(t.typography),
      "radii" := Obj(t.radii),
      "shadows" := Obj(t.shadows),
      "spacing" := Obj(t.spacing),
      "gradients" := Obj(t.gradients)])
  }

  /** Top-level keys other than the six sections are dropped. */
  lemma MergeOverIgnoresOtherKeys(base: Theme, fields: map<string, JsValue>)
    ensures MergeOver(base, Obj(fields)) == MergeOver(base, Obj(map k | k in fields && k in SectionNames :: fields[k]))
  {
  }

  /** Only the six sections of an object take part in a merge. */
  lemma MergeWithIgnoresOtherKeys(base: Theme, fields: map<string, JsValue>)
    ensures MergeWith(base, Obj(fields)) == MergeWith(base, Obj(map k | k in fields && k in SectionNames :: fields[k]))
  {
    MergeOverIgnoresOtherKeys(base, fields);
  }

  /** `mergeTheme` keeps only the six sections of its input: the merge of an
      object equals the merge of its six sections alone. */
  lemma MergeThemeIgnoresOtherKeys(fields: map<string, JsValue>)
    ensures MergeTheme(Obj(fields)) == MergeTheme(Obj(map k | k in fields && k in SectionNames :: fields[k]))
  {
    MergeWithIgnoresOtherKeys(DefaultTheme, fields);
  }

  /** Merging a merged section again over the same base changes nothing. */
  lemma MergeSectionIdempotent(base: Section, incoming: JsValue)
    ensures MergeSection(base, Obj(MergeSection(base, incoming))) == MergeSection(base, incoming)
  {
    var m := MergeSection(base, incoming);
    assert base + m == m;
  }

  /** Reading a section back out of a theme object. */
  lemma ThemeObjectFields(t: Theme)
    ensures Field(ThemeObject(t), "colors") == Obj(t.colors)
    ensures Field(ThemeObject(t), "typography") == Obj(t.typography)
    ensures Field(ThemeObject(t), "radii") == Obj(t.radii)
    ensures Field(ThemeObject(t), "shadows") == Obj(t.shadows)
    ensures Field(ThemeObject(t), "spacing") == Obj(t.spacing)
    ensures Field(ThemeObject(t), "gradients") == Obj(t.gradients)
  {
  }

  /** Merging over a base twice is merging once. */
  lemma MergeOverIdempotent(base: Theme, src: JsValue)
    ensures MergeOver(base, ThemeObject(MergeOver(base, src))) == MergeOver(base, src)
  {
    var t := MergeOver(base, src);
    ThemeObjectFields(t);
    MergeSectionIdempotent(base.colors, Field(src, "colors"));
    MergeSectionIdempotent(base.typography, Field(src, "typography"));
    MergeSectionIdempotent(base.radii, Field(src, "radii"));
    MergeSectionIdempotent(base.shadows, Field(src, "shadows"));
    MergeSectionIdempotent(base.spacing, Field(src, "spacing"));
    MergeSectionIdempotent(base.gradients, Field(src, "gradients"));
  }

  /** Merging a merged theme again over the same base changes nothing. */
  lemma MergeWithIdempotent(base: Theme, incoming: JsValue)
    ensures MergeWith(base, ThemeObject(MergeWith(base, incoming))) == MergeWith(base, incoming)
  {
    if IsObject(incoming) {
      MergeOverIdempotent(base, incoming);
    } else {
      MergeOverIdempotent(base, Obj(map[]));
      MergeOverEmpty(base);
    }
  }

  /** Merging a merged theme again changes nothing. */
  lemma MergeThemeIdempotent(incoming: JsValue)
    ensures MergeTheme(ThemeObject(MergeTheme(incoming))) == MergeTheme(incoming)
  {
    MergeWithIdempotent(DefaultTheme, incoming);
  }

  /** `s.replace('#', '')`: removes the first `#`, wherever it is. */
  function RemoveFirstHash(s: string): (r: string)
    ensures '#' !in s ==> r == s
    ensures '#' in s ==> |r| == |s| - 1
    ensures '#' in s ==> exists i :: 0 <= i < |s| && s[i] == '#' && '#' !in s[..i] && r == s[..i] + s[i + 1..]
  {
    var i := IndexOf(s, '#');
    if i == |s| then s
    else
      assert '#' !in s[..i];
      s[..i] + s[i + 1..]
  }

  /** The digits `hexToRgb` works on. */
  function NormalizedHex(hex: string): string
  {
    Trim(RemoveFirstHash(hex))
  }

  /** Each character written twice: `abc` becomes `aabbcc`. */
  function Doubled(s: string): (r: string)
    ensures |r| == 2 * |s|
    ensures forall i :: 0 <= i < |s| ==> r[2 * i] == s[i] && r[2 * i + 1] == s[i]
  {
    if s == [] then [] else [s[0], s[0]] + Doubled(s[1..])
  }

  /** The value of two hexadecimal digits, `parseInt(a + b, 16)`. */
  function PairValue(a: char, b: char): (v: nat)
    requires IsHexDigit(a) && IsHexDigit(b)
    ensures v < 256
  {
    HexDigitValue(a) * 16 + HexDigitValue(b)
  }

  function RgbString(r: nat, g: nat, b: nat): string
  {
    NatToString(r) + " " + NatToString(g) + " " + NatToString(b)
  }

  /** The channel values of a colour as `hexToRgb` extracts them from the
      parsed integer: `(int >> 16) & 255`, `(int >> 8) & 255` and `int & 255`.
      On a 32-bit integer the arithmetic shift is floor division and `& 255`
      is the non-negative remainder, which are Dafny's `/` and `%`; a `NaN`
      converts to 0 first. */
  function Channels(value: Option<int>): (nat, nat, nat)
  {
    var v := value.GetOr(0);
    ((v / 65536) % 256, (v / 256) % 256, v % 256)
  }

  /** `normalized.split('').map((c) => c + c).join('')` for three characters,
      `normalized` otherwise. */
  function FullHex(n: string): string
  {
    if |n| == 3 then Doubled(n) else n
  }

  /** `hexToRgb(hex, fallback)`. */
  function HexToRgb(hex: string, fallback: string): (r: string)
    ensures |NormalizedHex(hex)| != 3 && |NormalizedHex(hex)| != 6 ==> r == fallback
    ensures |NormalizedHex(hex)| == 3 || |NormalizedHex(hex)| == 6 ==> r == DigitsRgb(NormalizedHex(hex))
  {
    var n := NormalizedHex(hex);
    if n == "" || (|n| != 6 && |n| != 3) then fallback else DigitsRgb(n)
  }

  /** The `"r g b"` text of three or six normalised digits. */
  function DigitsRgb(n: string): (r: string)
    requires |n| == 3 || |n| == 6
    ensures |n| == 6 && AllHex(n) ==> r == RgbString(PairValue(n[0], n[1]), PairValue(n[2], n[3]), PairValue(n[4], n[5]))
    ensures |n| == 3 && AllHex(n) ==> r == RgbString(PairValue(n[0], n[0]), PairValue(n[1], n[1]), PairValue(n[2], n[2]))
  {
    var c := Channels(ParseIntHex(FullHex(n)));
    if AllHex(n) then HexToRgbDigits(n); RgbString(c.0, c.1, c.2)
    else RgbString(c.0, c.1, c.2)
  }

  /** On hexadecimal digits the parse reads the whole doubled or six-digit string. */
  lemma HexToRgbDigits(n: string)
    requires (|n| == 3 || |n| == 6) && AllHex(n)
    ensures |n| == 6 ==>
      Channels(ParseIntHex(FullHex(n))) == (PairValue(n[0], n[1]), PairValue(n[2], n[3]), PairValue(n[4], n[5]))
    ensures |n| == 3 ==>
      Channels(ParseIntHex(FullHex(n))) == (PairValue(n[0], n[0]), PairValue(n[1], n[1]), PairValue(n[2], n[2]))
  {
    if |n| == 3 {
      ShortChannels(n);
    } else {
      SixDigitChannels(n);
    }
  }

  /** A colour of the right length whose digits do not parse is not replaced
      by the fallback: `NaN` turns into the channels `0 0 0`. */
  lemma UnparsedIsBlack(n: string, fallback: string)
    requires |n| == 6 && !IsHexDigit(n[0]) && n[0] != '-' && n[0] != '+'
    requires !IsSpace(n[0]) && !IsSpace(n[5])
    ensures HexToRgb("#" + n, fallback) == "0 0 0"
  {
    assert NormalizedHex("#" + n) == n by {
      assert RemoveFirstHash("#" + n) == n by {
        assert ("#" + n)[1..] == n;
      }
      LeadingSpacesOfTrimmed(n);
      TrimEndOfTrimmed(n);
    }
    UnparsedDigitsAreBlack(n);
  }

  lemma UnparsedDigitsAreBlack(n: string)
    requires |n| == 6 && !IsHexDigit(n[0]) && n[0] != '-' && n[0] != '+'
    ensures DigitsRgb(n) == "0 0 0"
  {
    ParseIntHexNaN(n);
    assert Channels(None) == (0, 0, 0);
    assert NatToString(0) == "0";
  }

  /** Three hexadecimal digits decode like their doubled six-digit form. */
  lemma ShortChannels(n: string)
    requires |n| == 3 && AllHex(n)
    ensures AllHex(Doubled(n))
    ensures Channels(ParseIntHex(Doubled(n))) == (PairValue(n[0], n[0]), PairValue(n[1], n[1]), PairValue(n[2], n[2]))
  {
    var d := Doubled(n);
    assert d[0] == n[0] && d[1] == n[0] && d[2] == n[1] && d[3] == n[1] && d[4] == n[2] && d[5] == n[2];
    SixDigitChannels(d);
  }

  /** Six hexadecimal digits decode, channel by channel, to their three pairs. */
  lemma SixDigitChannels(s: string)
    requires |s| == 6 && AllHex(s)
    ensures Channels(ParseIntHex(s)) == (PairValue(s[0], s[1]), PairValue(s[2], s[3]), PairValue(s[4], s[5]))
  {
    SixDigitValue(s);
    PackedChannels(PairValue(s[0], s[1]), PairValue(s[2], s[3]), PairValue(s[4], s[5]));
  }

  /** The value of six hexadecimal digits from their three pairs. */
  lemma SixDigitValue(s: string)
    requires |s| == 6 && AllHex(s)
    ensures HexValue(s) == PairValue(s[0], s[1]) * 65536 + PairValue(s[2], s[3]) * 256 + PairValue(s[4], s[5])
  {
    var p1, p2, p3 := PairValue(s[0], s[1]), PairValue(s[2], s[3]), PairValue(s[4], s[5]);
    assert HexValue(s[..2]) == p1 by {
      HexValuePair(s, 0);
      assert s[..0] == [];
    }
    assert HexValue(s[..4]) == p1 * 256 + p2 by { HexValuePair(s, 2); }
    assert HexValue(s[..6]) == (p1 * 256 + p2) * 256 + p3 by { HexValuePair(s, 4); }
    assert s[..6] == s;
  }

  /** Appending a pair of digits multiplies the value so far by 256 and adds
      the pair's value. */
  lemma HexValuePair(s: string, k: nat)
    requires k + 2 <= |s| && AllHex(s)
    ensures AllHex(s[..k]) && AllHex(s[..k + 2])
    ensures HexValue(s[..k + 2]) == HexValue(s[..k]) * 256 + PairValue(s[k], s[k + 1])
  {
    HexValueSnoc(s, k);
    HexValueSnoc(s, k + 1);
  }

  /** The three channels of a packed colour come back out unchanged. */
  lemma PackedChannels(p1: nat, p2: nat, p3: nat)
    requires p1 < 256 && p2 < 256 && p3 < 256
    ensures Channels(Some(p1 * 65536 + p2 * 256 + p3)) == (p1, p2, p3)
  {
    DivMod(p1, p2 * 256 + p3, 65536);
    DivMod(p1 * 256 + p2, p3, 256);
    DivMod(p1, p2, 256);
  }

  /** Reading one more digit multiplies by sixteen and adds the digit. */
  lemma HexValueSnoc(s: string, k: nat)
    requires k < |s| && AllHex(s)
    ensures AllHex(s[..k]) && AllHex(s[..k + 1])
    ensures HexValue(s[..k + 1]) == HexValue(s[..k]) * 16 + HexDigitValue(s[k])
  {
    assert s[..k + 1][..k] == s[..k];
  }

  /** Quotient and remainder by a power-of-two divisor of a number written as
      `q * d + r`. */
  lemma DivMod(q: nat, r: nat, d: nat)
    requires d == 256 || d == 65536
    requires r < d
    ensures (q * d + r) / d == q && (q * d + r) % d == r
  {
  }

  /** A three-digit colour means the same as its doubled six-digit form:
      `#abc` and `#aabbcc` give the same channels. */
  lemma ShortHexIsDoubled(hex: string, fallback: string)
    requires |NormalizedHex(hex)| == 3 && AllHex(NormalizedHex(hex))
    ensures AllHex(NormalizedHex("#" + Doubled(NormalizedHex(hex))))
    ensures HexToRgb(hex, fallback) == HexToRgb("#" + Doubled(NormalizedHex(hex)), fallback)
  {
    var n := NormalizedHex(hex);
    var d := Doubled(n);
    ShortChannels(n);
    DoubledNormalized(n);
    SixDigitChannels(d);
  }

  /** Doubled hexadecimal digits behind a hash normalise to themselves. */
  lemma DoubledNormalized(n: string)
    requires |n| == 3 && AllHex(n)
    ensures NormalizedHex("#" + Doubled(n)) == Doubled(n)
  {
    var d := Doubled(n);
    assert RemoveFirstHash("#" + d) == d by {
      assert ("#" + d)[1..] == d;
    }
    assert AllHex(d) by {
      ShortChannels(n);
    }
    HexTrimmed(d);
  }

  /** A string of hexadecimal digits has no space to trim. */
  lemma HexTrimmed(s: string)
    requires AllHex(s)
    ensures Trim(s) == s
  {
    if s != [] {
      HexNotSpace(s[0]);
      HexNotSpace(s[|s| - 1]);
    }
    LeadingSpacesOfTrimmed(s);
    TrimEndOfTrimmed(s);
  }

  lemma HexNotSpace(c: char)
    requires IsHexDigit(c)
    ensures !IsSpace(c)
  {
  }

  /** The CSS variable written for one gradient value: none for an undefined
      value, the value itself when truthy, and `none` for any other falsy value. */
  function GradientEntry(name: string, v: JsValue): (m: map<string, JsValue>)
    ensures m.Keys <= {name}
    ensures name in m <==> v != Undefined
    ensures name in m ==> Truthy(m[name])
    ensures name in m && Truthy(v) ==> m[name] == v
    ensures name in m && !Truthy(v) ==> m[name] == Str("none")
  {
    if v != Undefined then map[name := Or(v, Str("none"))] else map[]
  }

  /** The CSS variables written for the two gradients. */
  function GradientVariables(theme: Theme): (vars: map<string, JsValue>)
    ensures vars.Keys <= {"--sf-hero-gradient", "--sf-card-gradient"}
    ensures "--sf-hero-gradient" in vars <==> Field(Obj(theme.gradients), "hero") != Undefined
    ensures "--sf-card-gradient" in vars <==> Field(Obj(theme.gradients), "card") != Undefined
    ensures forall k :: k in vars ==> Truthy(vars[k])
    ensures "--sf-hero-gradient" in vars ==>
      vars["--sf-hero-gradient"] == Or(Field(Obj(theme.gradients), "hero"), Str("none"))
    ensures "--sf-card-gradient" in vars ==>
      vars["--sf-card-gradient"] == Or(Field(Obj(theme.gradients), "card"), Str("none"))
  {
    GradientEntry("--sf-hero-gradient", Field(Obj(theme.gradients), "hero"))
    + GradientEntry("--sf-card-gradient", Field(Obj(theme.gradients), "card"))
  }

  /** A theme whose two gradients are truthy writes exactly those two values. */
  lemma TruthyGradientsWritten(t: Theme)
    requires "hero" in t.gradients && Truthy(t.gradients["hero"])
    requires "card" in t.gradients && Truthy(t.gradients["card"])
    ensures GradientVariables(t) == map[
      "--sf-hero-gradient" := t.gradients["hero"],
      "--sf-card-gradient" := t.gradients["card"]]
  {
  }

  /** A theme whose gradients are not overridden writes both default gradients. */
  lemma DefaultGradientsWritten(incoming: JsValue)
    requires !IsObject(Field(incoming, "gradients"))
    ensures GradientVariables(MergeTheme(incoming)) == map[
      "--sf-hero-gradient" := DefaultGradients["hero"],
      "--sf-card-gradient" := DefaultGradients["card"]]
  {
    var t := MergeTheme(incoming);
    assert t.gradients == DefaultGradients by {
      if IsObject(incoming) {
        assert t == MergeOver(DefaultTheme, incoming);
      }
    }
    DefaultGradientsTruthy();
    TruthyGradientsWritten(t);
  }

  /** Both default gradients are set and truthy. */
  lemma DefaultGradientsTruthy()
    ensures "hero" in DefaultGradients && Truthy(DefaultGradients["hero"])
    ensures "card" in DefaultGradients && Truthy(DefaultGradients["card"])
  {
  }
}
