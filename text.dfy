/**
 * The pieces of Python's `str` behaviour the services rely on: `in` between
 * strings (substring containment), `count` of one character, `lower`/`upper`,
 * `isupper`/`isdigit`, whitespace `split()`, `split(sep)`, `rstrip(chars)`,
 * `' '.join` and `int(...)` on a string.  Case mapping and digit tests are the
 * ASCII part of Python's Unicode rules.
 */
module Text {
  import opened Base

  /** The characters Python's `str.isspace()` accepts, which `str.split()` splits on. */
  predicate IsSpace(c: char) {
    || c == ' ' || ('\t' <= c <= '\r') || ('\U{1C}' <= c <= '\U{1F}')
    || c == '\U{85}' || c == '\U{A0}' || c == '\U{1680}'
    || ('\U{2000}' <= c <= '\U{200A}') || c == '\U{2028}' || c == '\U{2029}'
    || c == '\U{202F}' || c == '\U{205F}' || c == '\U{3000}'
  }

  predicate IsUpper(c: char) { 'A' <= c <= 'Z' }
  predicate IsLowerLetter(c: char) { 'a' <= c <= 'z' }
  predicate IsDigit(c: char) { '0' <= c <= '9' }

  function LowerChar(c: char): char {
    if IsUpper(c) then (c as int - 'A' as int + 'a' as int) as char else c
  }

  function UpperChar(c: char): char {
    if IsLowerLetter(c) then (c as int - 'a' as int + 'A' as int) as char else c
  }

  /** `s.lower()`: same length, every letter mapped to lower case. */
  function Lower(s: string): (r: string)
    ensures |r| == |s|
    ensures forall i | 0 <= i < |s| :: r[i] == LowerChar(s[i])
  {
    seq(|s|, i requires 0 <= i < |s| => LowerChar(s[i]))
  }

  /** `s.upper()`. */
  function Upper(s: string): (r: string)
    ensures |r| == |s|
    ensures forall i | 0 <= i < |s| :: r[i] == UpperChar(s[i])
  {
    seq(|s|, i requires 0 <= i < |s| => UpperChar(s[i]))
  }

  /** `any(c.isupper() for c in s)`. */
  predicate HasUpper(s: string) { exists i | 0 <= i < |s| :: IsUpper(s[i]) }

  /** `any(c.isdigit() for c in s)`. */
  predicate HasDigit(s: string) { exists i | 0 <= i < |s| :: IsDigit(s[i]) }

  /** `s.count(c)` for a one-character `c`. */
  function Count(s: string, c: char): nat
  {
    if s == [] then 0 else (if s[0] == c then 1 else 0) + Count(s[1..], c)
  }

  /** The count is the multiplicity of `c` in the string. */
  lemma {:induction false} CountIsMultiplicity(s: string, c: char)
    ensures Count(s, c) == multiset(s)[c]
  {
    if s != [] {
      CountIsMultiplicity(s[1..], c);
      assert s == [s[0]] + s[1..];
      assert multiset(s) == multiset{s[0]} + multiset(s[1..]);
    }
  }

  predicate IsPrefix(p: string, s: string) { |p| <= |s| && s[..|p|] == p }

  /** `s.endswith(suffix)`. */
  predicate EndsWith(s: string, suffix: string) { |suffix| <= |s| && s[|s| - |suffix|..] == suffix }

  /** Python's `pat in text` on two strings. */
  function Contains(text: string, pat: string): bool
    decreases |text|
  {
    if |pat| > |text| then false
    else if IsPrefix(pat, text) then true
    else Contains(text[1..], pat)
  }

  /** `pat` occurs in `text` starting at index `i`. */
  predicate OccursAt(text: string, pat: string, i: int)
  {
    0 <= i && i + |pat| <= |text| && text[i..i + |pat|] == pat
  }

  /** Substring containment means `pat` occurs at some position of `text`. */
  lemma {:induction false} ContainsIff(text: string, pat: string)
    ensures Contains(text, pat) <==> exists i :: OccursAt(text, pat, i)
    decreases |text|
  {
    if |pat| > |text| {
    } else if IsPrefix(pat, text) {
      assert OccursAt(text, pat, 0);
    } else {
      ContainsIff(text[1..], pat);
      if Contains(text, pat) {
        var j :| OccursAt(text[1..], pat, j);
        assert text[j + 1..j + 1 + |pat|] == text[1..][j..j + |pat|];
        assert OccursAt(text, pat, j + 1);
      }
      if exists i :: OccursAt(text, pat, i) {
        var i :| OccursAt(text, pat, i);
        assert i != 0;
        assert text[1..][i - 1..i - 1 + |pat|] == text[i..i + |pat|];
        assert OccursAt(text[1..], pat, i - 1);
      }
    }
  }

  /** A string containing a character `c` contains `[c]`. */
  lemma ContainsChar(text: string, i: int)
    requires 0 <= i < |text|
    ensures Contains(text, [text[i]])
  {
    assert OccursAt(text, [text[i]], i);
    ContainsIff(text, [text[i]]);
  }

  /** The leading run of whitespace removed. */
  function DropSpaces(s: string): (t: string)
    ensures |t| <= |s| && t == s[|s| - |t|..]
    ensures t == [] || !IsSpace(t[0])
    ensures forall i | 0 <= i < |s| - |t| :: IsSpace(s[i])
  {
    if s != [] && IsSpace(s[0]) then DropSpaces(s[1..]) else s
  }

  /** The leading run of non-whitespace characters. */
  function WordPrefix(s: string): (w: string)
    ensures |w| <= |s| && w == s[..|w|]
    ensures forall i | 0 <= i < |w| :: !IsSpace(w[i])
    ensures s != [] && !IsSpace(s[0]) ==> w != []
  {
    if s == [] || IsSpace(s[0]) then [] else [s[0]] + WordPrefix(s[1..])
  }

  predicate AllSpaces(s: string) { forall i | 0 <= i < |s| :: IsSpace(s[i]) }

  /** A word of `split()`: non-empty and free of whitespace. */
  predicate IsWord(w: string) { w != [] && forall i | 0 <= i < |w| :: !IsSpace(w[i]) }

  /** `s.split()` with no argument: the maximal runs of non-whitespace, in order. */
  function Split(s: string): (ws: seq<string>)
    decreases |s|
  {
    var t := DropSpaces(s);
    if t == [] then []
    else
      var w := WordPrefix(t);
      [w] + Split(t[|w|..])
  }

  /** No word of `s.split()` is empty or holds whitespace. */
  lemma {:induction false} SplitWords(s: string)
    ensures forall k | 0 <= k < |Split(s)| :: IsWord(Split(s)[k])
    decreases |s|
  {
    var t := DropSpaces(s);
    if t != [] {
      var w := WordPrefix(t);
      var rest := Split(t[|w|..]);
      assert IsWord(w);
      SplitWords(t[|w|..]);
      assert Split(s) == [w] + rest;
      forall k | 0 <= k < |Split(s)|
        ensures IsWord(Split(s)[k])
      {
        if k > 0 {
          assert Split(s)[k] == rest[k - 1];
        }
      }
    }
  }

  /** `s.split()` is empty exactly when `s` is all whitespace. */
  lemma SplitEmptyIff(s: string)
    ensures Split(s) == [] <==> AllSpaces(s)
  {
    var t := DropSpaces(s);
    if t != [] {
      assert !IsSpace(s[|s| - |t|]);
    }
  }

  /** `s.split(sep)` with a one-character separator, keeping empty pieces. */
  function SplitOn(s: string, sep: char): (parts: seq<string>)
    ensures |parts| >= 1
  {
    if s == [] then [[]]
    else
      var rest := SplitOn(s[1..], sep);
      if s[0] == sep then [[]] + rest else [[s[0]] + rest[0]] + rest[1..]
  }

  /** `len(s.split(sep))` is one more than the number of separators. */
  lemma {:induction false} SplitOnLength(s: string, sep: char)
    ensures |SplitOn(s, sep)| == Count(s, sep) + 1
  {
    if s != [] {
      SplitOnLength(s[1..], sep);
    }
  }

  /** `s.rstrip(chars)` for a one-character `chars`. */
  function RStrip(s: string, c: char): (r: string)
    ensures IsPrefix(r, s)
    ensures r == [] || r[|r| - 1] != c
    ensures forall i | |r| <= i < |s| :: s[i] == c
  {
    if s != [] && s[|s| - 1] == c then RStrip(s[..|s| - 1], c) else s
  }

  /** `any(w in text for w in words)`. */
  function AnyContains(text: string, words: seq<string>): (b: bool)
    ensures b <==> exists i | 0 <= i < |words| :: Contains(text, words[i])
  {
    if words == [] then false else Contains(text, words[0]) || AnyContains(text, words[1..])
  }

  /** `[s.lower() for s in ss]`. */
  function LowerAll(ss: seq<string>): (r: seq<string>)
    ensures |r| == |ss| && forall i | 0 <= i < |ss| :: r[i] == Lower(ss[i])
  {
    if ss == [] then [] else [Lower(ss[0])] + LowerAll(ss[1..])
  }

  /** `sep.join(parts)`. */
  function Join(sep: string, parts: seq<string>): string
  {
    if parts == [] then []
    else if |parts| == 1 then parts[0]
    else parts[0] + sep + Join(sep, parts[1..])
  }

  /** Python's `str.strip()` without arguments. */
  function Strip(s: string): (r: string)
    ensures |r| <= |s|
  {
    var t := DropSpaces(s);
    RStripSpaces(t)
  }

  function RStripSpaces(s: string): (r: string)
    ensures IsPrefix(r, s)
  {
    if s != [] && IsSpace(s[|s| - 1]) then RStripSpaces(s[..|s| - 1]) else s
  }

  predicate AllDigits(s: string) { forall i | 0 <= i < |s| :: IsDigit(s[i]) }

  /**
   * A decimal numeral as `int()` reads it: ASCII digits, where a single `_`
   * may stand between two digits (PEP 515).
   */
  predicate Numeral(s: string)
  {
    s != [] && IsDigit(s[0])
    && forall i | 0 <= i < |s| :: IsDigit(s[i]) || (s[i] == '_' && i + 1 < |s| && IsDigit(s[i + 1]))
  }

  /** The value of the digits of a string, most significant first; separators are skipped. */
  function DigitsValue(s: string): nat
  {
    if s == [] then 0
    else if IsDigit(s[|s| - 1]) then DigitsValue(s[..|s| - 1]) * 10 + (s[|s| - 1] as int - '0' as int)
    else DigitsValue(s[..|s| - 1])
  }

  /**
   * Python's `int(s)` on a string: surrounding whitespace, an optional sign and
   * a decimal numeral.  Anything else (a decimal point, a unit, a doubled or
   * trailing underscore, an empty string) raises `ValueError`, which is `None`
   * here.  Only ASCII digits are read.
   */
  function ParseInt(s: string): Option<int>
  {
    var t := Strip(s);
    if t != [] && (t[0] == '+' || t[0] == '-') then
      var d := t[1..];
      if Numeral(d) then Some(if t[0] == '-' then -(DigitsValue(d) as int) else DigitsValue(d))
      else None
    else if Numeral(t) then Some(DigitsValue(t))
    else None
  }

  /** Underscore separators are accepted and ignored. */
  lemma ParseIntUnderscores()
    ensures ParseInt("1_024") == Some(1024)
  {
    var s := "1_024";
    StripNoop(s);
    assert Numeral(s) by {
      forall i | 0 <= i < |s| ensures IsDigit(s[i]) || (s[i] == '_' && i + 1 < |s| && IsDigit(s[i + 1])) {
        assert s[1] == '_' && s[2] == '0';
      }
    }
    var p1, p2, p3, p4 := s[..1], s[..2], s[..3], s[..4];
    assert p1[..0] == [] && DigitsValue(p1) == 1;
    assert p2[..1] == p1 && DigitsValue(p2) == 1;
    assert p3[..2] == p2 && DigitsValue(p3) == 10;
    assert p4[..3] == p3 && DigitsValue(p4) == 102;
    assert s[..4] == p4 && DigitsValue(s) == 1024;
  }

  /** A doubled, trailing or leading underscore makes `int()` fail. */
  lemma ParseIntRejectsBadUnderscores()
    ensures ParseInt("1__024") == None && ParseInt("1024_") == None && ParseInt("_1024") == None
  {
    var a, b, c := "1__024", "1024_", "_1024";
    StripNoop(a);
    StripNoop(b);
    StripNoop(c);
    assert a[1] == '_' && a[2] == '_' && !Numeral(a);
    assert b[4] == '_' && !Numeral(b);
    assert c[0] == '_' && !Numeral(c);
  }

  /** `str(n)` for a natural number. */
  function NatToString(n: nat): (s: string)
    ensures s != [] && AllDigits(s) && Numeral(s) && s[0] != '+' && s[0] != '-'
    ensures !IsSpace(s[0]) && !IsSpace(s[|s| - 1])
    decreases n
  {
    var d := ((n % 10) + '0' as int) as char;
    if n < 10 then [d] else NatToString(n / 10) + [d]
  }

  lemma {:induction false} DigitsOfNatToString(n: nat)
    ensures DigitsValue(NatToString(n)) == n
    decreases n
  {
    var s := NatToString(n);
    if n >= 10 {
      DigitsOfNatToString(n / 10);
      assert s[..|s| - 1] == NatToString(n / 10);
    }
  }

  lemma StripNoop(s: string)
    requires s != [] && !IsSpace(s[0]) && !IsSpace(s[|s| - 1])
    ensures Strip(s) == s
  {
  }

  /** `int(str(n)) == n`. */
  lemma ParseIntOfNatToString(n: nat)
    ensures ParseInt(NatToString(n)) == Some(n)
  {
    StripNoop(NatToString(n));
    DigitsOfNatToString(n);
  }

  /** A string with a decimal point is never an integer literal. */
  lemma {:induction false} ParseIntRejectsPoint(s: string, i: int)
    requires 0 <= i < |s| && s[i] == '.'
    ensures ParseInt(s) == None
  {
    StripKeepsNonSpace(s, i);
  }

  /** Stripping whitespace keeps every non-whitespace character. */
  lemma StripKeepsNonSpace(s: string, i: int)
    requires 0 <= i < |s| && !IsSpace(s[i])
    ensures exists j | 0 <= j < |Strip(s)| :: Strip(s)[j] == s[i]
  {
    var t := DropSpaces(s);
    var k := i - (|s| - |t|);
    assert 0 <= k < |t| && t[k] == s[i];
    RStripSpacesKeeps(t, k);
    assert Strip(s) == RStripSpaces(t);
    assert Strip(s)[k] == s[i];
  }

  lemma {:induction false} RStripSpacesKeeps(t: string, k: int)
    requires 0 <= k < |t| && !IsSpace(t[k])
    ensures k < |RStripSpaces(t)| && RStripSpaces(t)[k] == t[k]
    decreases |t|
  {
    if t != [] && IsSpace(t[|t| - 1]) {
      RStripSpacesKeeps(t[..|t| - 1], k);
    }
  }
}
