/**
 * The string operations the rules use: the digit filter behind
 * `re.sub(r"[^0-9]", "", s)`, the order-id pattern `^[0-9]{6}$`, the name
 * normalisation `re.sub(r"[,.\s]", "", s).lower()` and Python's substring test.
 */
module Text {
  import opened Wrappers

  predicate IsDigit(c: char) { '0' <= c <= '9' }

  predicate AllDigits(s: string) { forall i :: 0 <= i < |s| ==> IsDigit(s[i]) }

  /** `s` with every character that is not an ASCII digit removed. */
  function DigitsOnly(s: string): (r: string)
    ensures AllDigits(r)
    ensures |r| <= |s|
  {
    if s == [] then []
    else if IsDigit(s[0]) then [s[0]] + DigitsOnly(s[1..])
    else DigitsOnly(s[1..])
  }

  /** The filter changes nothing exactly when the string is digits already. */
  lemma {:induction false} DigitsOnlyFixedPoint(s: string)
    ensures DigitsOnly(s) == s <==> AllDigits(s)
  {
    if s != [] && AllDigits(s) {
      assert AllDigits(s[1..]) by { assert forall i :: 0 <= i < |s| - 1 ==> s[1..][i] == s[i + 1]; }
      DigitsOnlyFixedPoint(s[1..]);
      assert [s[0]] + s[1..] == s;
    }
  }

  /** Normalising a normalised invoice id changes nothing. */
  lemma DigitsOnlyIdempotent(s: string)
    ensures DigitsOnly(DigitsOnly(s)) == DigitsOnly(s)
  {
    DigitsOnlyFixedPoint(DigitsOnly(s));
  }

  /** The filter keeps every occurrence of every digit and nothing else. */
  lemma {:induction false} DigitsOnlyKeepsEveryDigit(s: string)
    ensures forall c :: multiset(DigitsOnly(s))[c] == if IsDigit(c) then multiset(s)[c] else 0
  {
    if s != [] {
      DigitsOnlyKeepsEveryDigit(s[1..]);
      assert s == [s[0]] + s[1..];
      assert multiset(s) == multiset{s[0]} + multiset(s[1..]);
      if IsDigit(s[0]) {
        assert multiset(DigitsOnly(s)) == multiset{s[0]} + multiset(DigitsOnly(s[1..]));
      }
    }
  }

  /** The kept digits appear in their original order. */
  lemma {:induction false} DigitsOnlyKeepsOrder(s: string)
    ensures IsSubsequence(DigitsOnly(s), s)
  {
    if s != [] {
      DigitsOnlyKeepsOrder(s[1..]);
      var r := DigitsOnly(s);
      if IsDigit(s[0]) {
        assert r[0] == s[0] && r[1..] == DigitsOnly(s[1..]);
      } else {
        assert r == [] || IsSubsequence(r, s[1..]);
      }
    }
  }

  /**
   * `re.match(r"^[0-9]{6}$", s)`: six ASCII digits from the start, then the end
   * of the string or a single final newline (Python's `$` also matches just
   * before a trailing "\n").
   */
  function IsSixDigitId(s: string): (accepted: bool)
    ensures accepted <==> exists d :: |d| == 6 && AllDigits(d) && (s == d || s == d + "\n")
  {
    var accepted := (|s| == 6 || (|s| == 7 && s[6] == '\n')) && AllDigits(s[..6]);
    assert accepted ==> s == s[..6] || s == s[..6] + "\n";
    accepted
  }

  /** Python's `\s` on `str`: the characters for which `str.isspace()` holds. */
  predicate IsSpace(c: char)
    ensures IsSpace(c) ==> !IsDigit(c) && !('A' <= c <= 'Z') && !('a' <= c <= 'z') && c != ',' && c != '.'
  {
    var n := c as int;
    (0x09 <= n <= 0x0D) || (0x1C <= n <= 0x20) || n == 0x85 || n == 0xA0 || n == 0x1680 ||
    (0x2000 <= n <= 0x200A) || n == 0x2028 || n == 0x2029 || n == 0x202F || n == 0x205F || n == 0x3000
  }

  /** The characters `[,.\s]` that name normalisation removes. */
  predicate IsSeparator(c: char) { c == ',' || c == '.' || IsSpace(c) }

  predicate IsUpper(c: char) { 'A' <= c <= 'Z' }

  /** Lower-casing of one character (ASCII letters only). */
  function Lower(c: char): (d: char)
    ensures !IsUpper(d)
    ensures IsSeparator(d) <==> IsSeparator(c)
  {
    if IsUpper(c) then (c as int + 32) as char else c
  }

  /** `re.sub(r"[,.\s]", "", s)`. */
  function StripSeparators(s: string): (r: string)
    ensures |r| <= |s|
    ensures forall i :: 0 <= i < |r| ==> !IsSeparator(r[i])
  {
    if s == [] then []
    else if IsSeparator(s[0]) then StripSeparators(s[1..])
    else [s[0]] + StripSeparators(s[1..])
  }

  /** `s.lower()`. */
  function LowerAll(s: string): (r: string)
    ensures |r| == |s|
    ensures forall i :: 0 <= i < |r| ==> r[i] == Lower(s[i])
  {
    if s == [] then [] else [Lower(s[0])] + LowerAll(s[1..])
  }

  /** normalize_name: drop commas, periods and whitespace, then lower-case. */
  function NormalizeName(name: string): (r: string)
    ensures forall i :: 0 <= i < |r| ==> !IsSeparator(r[i]) && !IsUpper(r[i])
    ensures |r| <= |name|
  {
    LowerAll(StripSeparators(name))
  }

  lemma {:induction false} StripSeparatorsKeepsClean(s: string)
    requires forall i :: 0 <= i < |s| ==> !IsSeparator(s[i])
    ensures StripSeparators(s) == s
  {
    if s != [] {
      StripSeparatorsKeepsClean(s[1..]);
      assert [s[0]] + s[1..] == s;
    }
  }

  lemma {:induction false} LowerAllKeepsLower(s: string)
    requires forall i :: 0 <= i < |s| ==> !IsUpper(s[i])
    ensures LowerAll(s) == s
  {
    if s != [] {
      LowerAllKeepsLower(s[1..]);
      assert [s[0]] + s[1..] == s;
    }
  }

  /** Normalising a normalised name changes nothing. */
  lemma NormalizeNameIdempotent(name: string)
    ensures NormalizeName(NormalizeName(name)) == NormalizeName(name)
  {
    var r := NormalizeName(name);
    StripSeparatorsKeepsClean(r);
    LowerAllKeepsLower(r);
  }

  /** Normalisation works character by character: a separator vanishes, anything else is lower-cased. */
  lemma NormalizeNameCons(c: char, s: string)
    ensures NormalizeName([c] + s) == (if IsSeparator(c) then [] else [Lower(c)]) + NormalizeName(s)
  {
    assert ([c] + s)[1..] == s;
  }

  /** A name that is already lower-case and free of separators normalises to itself. */
  lemma NormalizeNameOfNormal(s: string)
    requires forall i :: 0 <= i < |s| ==> !IsSeparator(s[i]) && !IsUpper(s[i])
    ensures NormalizeName(s) == s
  {
    StripSeparatorsKeepsClean(s);
    LowerAllKeepsLower(s);
  }

  /** A capitalised word without separators normalises to its lower-case form. */
  lemma NormalizeNameCapitalised(s: string)
    requires |s| > 0 && !IsSeparator(s[0])
    requires forall i :: 1 <= i < |s| ==> !IsSeparator(s[i]) && !IsUpper(s[i])
    ensures NormalizeName(s) == [Lower(s[0])] + s[1..]
  {
    NormalizeNameOfNormal(s[1..]);
    NormalizeNameCons(s[0], s[1..]);
    assert [s[0]] + s[1..] == s;
  }

  /** Normalisation distributes over concatenation. */
  lemma {:induction false} NormalizeNameAppend(a: string, b: string)
    ensures NormalizeName(a + b) == NormalizeName(a) + NormalizeName(b)
  {
    if a != [] {
      NormalizeNameAppend(a[1..], b);
      assert a + b == [a[0]] + (a[1..] + b);
      NormalizeNameCons(a[0], a[1..] + b);
      NormalizeNameCons(a[0], a[1..]);
      assert a == [a[0]] + a[1..];
    } else {
      assert a + b == b;
    }
  }

  /** A comma, period or whitespace character anywhere in a name makes no difference. */
  lemma NormalizeNameIgnoresSeparator(a: string, c: char, b: string)
    requires IsSeparator(c)
    ensures NormalizeName(a + [c] + b) == NormalizeName(a + b)
  {
    assert NormalizeName([c]) == [] by {
      assert [c][1..] == [];
    }
    calc {
      NormalizeName(a + [c] + b);
      { NormalizeNameAppend(a + [c], b); }
      NormalizeName(a + [c]) + NormalizeName(b);
      { NormalizeNameAppend(a, [c]); }
      NormalizeName(a) + [] + NormalizeName(b);
      { assert NormalizeName(a) + [] == NormalizeName(a); }
      NormalizeName(a) + NormalizeName(b);
      { NormalizeNameAppend(a, b); }
      NormalizeName(a + b);
    }
  }

  /** Replacing any character by its lower-case form makes no difference. */
  lemma NormalizeNameIgnoresCase(a: string, c: char, b: string)
    ensures NormalizeName(a + [c] + b) == NormalizeName(a + [Lower(c)] + b)
  {
    assert NormalizeName([c]) == NormalizeName([Lower(c)]) by {
      assert [c][1..] == [] && [Lower(c)][1..] == [];
    }
    calc {
      NormalizeName(a + [c] + b);
      { NormalizeNameAppend(a + [c], b); }
      NormalizeName(a + [c]) + NormalizeName(b);
      { NormalizeNameAppend(a, [c]); }
      NormalizeName(a) + NormalizeName([c]) + NormalizeName(b);
      { NormalizeNameAppend(a, [Lower(c)]); }
      NormalizeName(a + [Lower(c)]) + NormalizeName(b);
      { NormalizeNameAppend(a + [Lower(c)], b); }
      NormalizeName(a + [Lower(c)] + b);
    }
  }

  /** "Ro.boyo" and "roboyo" normalise alike. */
  lemma NormalizeNameExample()
    ensures NormalizeName("Ro.boyo") == NormalizeName("roboyo")
  {
    NormalizeNameIgnoresSeparator("Ro", '.', "boyo");
    assert "Ro" + ['.'] + "boyo" == "Ro.boyo" && "Ro" + "boyo" == "Roboyo";
    NormalizeNameIgnoresCase([], 'R', "oboyo");
    assert [] + ['R'] + "oboyo" == "Roboyo" && [] + [Lower('R')] + "oboyo" == "roboyo";
  }

  /** `needle` occurs in `haystack` starting at index `i`. */
  ghost predicate OccursAt(haystack: string, needle: string, i: int) {
    0 <= i && i + |needle| <= |haystack| && haystack[i..i + |needle|] == needle
  }

  /** Python's `needle in haystack` for strings. */
  function Contains(haystack: string, needle: string): (b: bool)
    ensures b ==> |needle| <= |haystack|
    decreases |haystack|
  {
    if |haystack| < |needle| then false
    else if haystack[..|needle|] == needle then true
    else Contains(haystack[1..], needle)
  }

  /** The substring test holds exactly when the needle occurs at some position. */
  lemma {:induction false} ContainsIffOccurs(haystack: string, needle: string)
    ensures Contains(haystack, needle) <==> exists i :: OccursAt(haystack, needle, i)
    decreases |haystack|
  {
    if |haystack| < |needle| {
    } else if haystack[..|needle|] == needle {
      assert OccursAt(haystack, needle, 0);
    } else {
      ContainsIffOccurs(haystack[1..], needle);
      if exists i :: OccursAt(haystack, needle, i) {
        var i :| OccursAt(haystack, needle, i);
        assert i != 0;
        assert haystack[1..][i - 1..i - 1 + |needle|] == haystack[i..i + |needle|];
        assert OccursAt(haystack[1..], needle, i - 1);
      }
      if exists i :: OccursAt(haystack[1..], needle, i) {
        var i :| OccursAt(haystack[1..], needle, i);
        assert haystack[1..][i..i + |needle|] == haystack[i + 1..i + 1 + |needle|];
        assert OccursAt(haystack, needle, i + 1);
      }
    }
  }

  /** Every character of a contained string occurs in the containing one. */
  lemma {:induction false} ContainsNeedsEveryChar(haystack: string, needle: string, i: nat)
    requires Contains(haystack, needle) && i < |needle|
    ensures needle[i] in haystack
    decreases |haystack|
  {
    if haystack[..|needle|] == needle {
      assert haystack[i] == needle[i];
    } else {
      ContainsNeedsEveryChar(haystack[1..], needle, i);
    }
  }

  /** The empty string is in every string; nothing non-empty is in the empty string. */
  lemma ContainsEdgeCases(s: string)
    ensures Contains(s, "")
    ensures s != "" ==> !Contains("", s)
  {
  }
}
