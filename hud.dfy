/** `formatBallCarrierLabel` of src/utils/hud.ts: the HUD's ball-carrier caption. */
module Hud {
  import opened Common

  const PREFIX: string := "Ball Carrier: "
  const UNKNOWN: string := "Unknown"
  const UNKNOWN_LABEL: string := PREFIX + UNKNOWN

  /** The characters `String.prototype.trim` removes: ECMAScript WhiteSpace and
      LineTerminator code points. */
  predicate IsTrimmable(c: char)
  {
    var n := c as int;
    if n < 0x80 then n == 0x20 || 0x09 <= n <= 0x0D else IsWideTrimmable(n)
  }

  /** The trimmable code points outside ASCII. */
  predicate IsWideTrimmable(n: int)
  {
    || n == 0xA0 || n == 0x1680 || (0x2000 <= n <= 0x200A) || n == 0x2028 || n == 0x2029
    || n == 0x202F || n == 0x205F || n == 0x3000 || n == 0xFEFF
  }

  predicate AllTrimmable(s: string)
  {
    forall i :: 0 <= i < |s| ==> IsTrimmable(s[i])
  }

  /** s without its leading trimmable characters: a suffix of s. */
  function TrimStart(s: string): (r: string)
    ensures |r| <= |s| && r == s[|s| - |r|..]
    ensures AllTrimmable(s[..|s| - |r|])
    ensures r == [] || !IsTrimmable(r[0])
  {
    if s == [] || !IsTrimmable(s[0]) then s
    else
      var r := TrimStart(s[1..]);
      assert s[..|s| - |r|] == [s[0]] + s[1..][..|s[1..]| - |r|];
      r
  }

  /** s without its trailing trimmable characters: a prefix of s. */
  function TrimEnd(s: string): (r: string)
    ensures |r| <= |s| && r == s[..|r|]
    ensures AllTrimmable(s[|r|..])
    ensures r == [] || !IsTrimmable(r[|r| - 1])
  {
    if s == [] || !IsTrimmable(s[|s| - 1]) then s
    else
      var r := TrimEnd(s[..|s| - 1]);
      assert s[|r|..] == s[..|s| - 1][|r|..] + [s[|s| - 1]];
      r
  }

  /** `String.prototype.trim`: no trimmable character is left at either end. */
  function Trim(s: string): (r: string)
    ensures |r| <= |s|
    ensures r == [] || (!IsTrimmable(r[0]) && !IsTrimmable(r[|r| - 1]))
  {
    var t := TrimStart(s);
    var r := TrimEnd(t);
    assert r != [] ==> r[0] == t[0];
    r
  }

  /** The trimmed string is s with only trimmable characters cut from either end. */
  lemma TrimCutsOnlyTrimmable(s: string)
    ensures exists i, j :: && 0 <= i <= j <= |s| && Trim(s) == s[i..j]
                           && AllTrimmable(s[..i]) && AllTrimmable(s[j..])
  {
    var t := TrimStart(s);
    var i := |s| - |t|;
    var r := TrimEnd(t);
    var j := i + |r|;
    assert Trim(s) == s[i..j] by { assert s[i..j] == t[..|r|]; }
    assert AllTrimmable(s[j..]) by { assert s[j..] == t[|r|..]; }
    assert 0 <= i <= j <= |s| && Trim(s) == s[i..j] && AllTrimmable(s[..i]) && AllTrimmable(s[j..]);
  }

  /** Trimming leaves nothing exactly when every character is trimmable. */
  lemma TrimEmptyIffBlank(s: string)
    ensures Trim(s) == [] <==> AllTrimmable(s)
  {
    var t := TrimStart(s);
    if t != [] {
      assert !IsTrimmable(t[0]);
      assert t[0] == s[|s| - |t|];
    }
  }

  /** Trimming twice is trimming once. */
  lemma TrimIdempotent(s: string)
    ensures Trim(Trim(s)) == Trim(s)
  {
    NothingToTrim(Trim(s));
  }

  lemma NothingToTrim(r: string)
    requires r == [] || (!IsTrimmable(r[0]) && !IsTrimmable(r[|r| - 1]))
    ensures TrimStart(r) == r && TrimEnd(r) == r
  {
  }

  /** `formatBallCarrierLabel(playerName)`. */
  function FormatBallCarrierLabel(playerName: Option<string>): (caption: string)
    ensures |PREFIX| <= |caption| && caption[..|PREFIX|] == PREFIX
    ensures playerName.None? ==> caption == UNKNOWN_LABEL
  {
    var trimmed := if playerName.Some? then Trim(playerName.value) else "";
    var shown := if trimmed == "" then UNKNOWN else trimmed;
    assert (PREFIX + shown)[..|PREFIX|] == PREFIX;
    PREFIX + shown
  }

  /** A name is shown trimmed, unless it is blank, when the carrier is unknown. */
  lemma FormatNamedCarrier(name: string)
    ensures !AllTrimmable(name) ==> FormatBallCarrierLabel(Some(name)) == PREFIX + Trim(name)
    ensures AllTrimmable(name) ==> FormatBallCarrierLabel(Some(name)) == UNKNOWN_LABEL
  {
    TrimEmptyIffBlank(name);
  }

  /** Formatting an already trimmed name gives the label of the untrimmed one. */
  lemma FormatIgnoresSurroundingWhitespace(name: string)
    ensures FormatBallCarrierLabel(Some(Trim(name))) == FormatBallCarrierLabel(Some(name))
  {
    TrimIdempotent(name);
  }

  /** The cases of src/utils/hud.test.ts:6-8: a missing or blank name. */
  lemma FormatUnknownExamples()
    ensures FormatBallCarrierLabel(None) == "Ball Carrier: Unknown"
    ensures FormatBallCarrierLabel(Some("   ")) == "Ball Carrier: Unknown"
  {
    assert AllTrimmable("   ");
  }

  /** A name with no trimmable character at either end is shown as it is. */
  lemma FormatTrimmedName(name: string)
    requires name != [] && !IsTrimmable(name[0]) && !IsTrimmable(name[|name| - 1])
    ensures FormatBallCarrierLabel(Some(name)) == PREFIX + name
  {
    NothingToTrim(name);
  }

  /** The case of src/utils/hud.test.ts:12: a name without surrounding whitespace. */
  lemma FormatPlainNameExample()
    ensures FormatBallCarrierLabel(Some("Alex Morgan")) == "Ball Carrier: Alex Morgan"
  {
    var name := "Alex Morgan";
    assert !IsTrimmable(name[0]) && !IsTrimmable(name[|name| - 1]);
    FormatTrimmedName(name);
    ExampleCaptions();
  }

  lemma TrimStartStep(s: string)
    requires s != [] && IsTrimmable(s[0])
    ensures TrimStart(s) == TrimStart(s[1..])
  {
  }

  lemma TrimEndStep(s: string)
    requires s != [] && IsTrimmable(s[|s| - 1])
    ensures TrimEnd(s) == TrimEnd(s[..|s| - 1])
  {
  }

  lemma TrimStartPadded()
    ensures TrimStart("  Sam Kerr  ") == "Sam Kerr  "
  {
    var s0 := "  Sam Kerr  ";
    TrimStartStep(s0);
    var s1 := s0[1..];
    TrimStartStep(s1);
    var s2 := s1[1..];
    assert s2 == "Sam Kerr  ";
    assert !IsTrimmable(s2[0]);
  }

  lemma TrimEndPadded()
    ensures TrimEnd("Sam Kerr  ") == "Sam Kerr"
  {
    var s0 := "Sam Kerr  ";
    TrimEndStep(s0);
    var s1 := s0[..|s0| - 1];
    TrimEndStep(s1);
    var s2 := s1[..|s1| - 1];
    assert s2 == "Sam Kerr";
    assert !IsTrimmable(s2[|s2| - 1]);
  }

  /** The case of src/utils/hud.test.ts:16: surrounding whitespace is dropped. */
  lemma FormatPaddedNameExample()
    ensures FormatBallCarrierLabel(Some("  Sam Kerr  ")) == "Ball Carrier: Sam Kerr"
  {
    var name := "  Sam Kerr  ";
    assert Trim(name) == "Sam Kerr" by {
      TrimStartPadded();
      TrimEndPadded();
    }
    ExampleCaptions();
  }

  /** The captions of the two named examples, spelled out. */
  lemma ExampleCaptions()
    ensures PREFIX + "Alex Morgan" == "Ball Carrier: Alex Morgan"
    ensures PREFIX + "Sam Kerr" == "Ball Carrier: Sam Kerr"
  {
  }
}
