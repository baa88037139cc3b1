/**
 * The vendor "database" (a fixed three-entry catalogue) and the
 * substring matching of a normalised vendor name against it.
 */
module Vendors {
  import opened Wrappers
  import opened Text

  /** A JSON scalar as the rules emit it: catalogue ids are numbers, the "---" placeholder and datapoint values are strings. */
  datatype Value = Num(n: int) | Str(s: string)

  /** One entry of an enum's option list, `{"value": value, "label": caption}`. */
  datatype Choice = Choice(value: Value, caption: string)

  /** A catalogue entry: the vendor's display name and its id. */
  datatype Supplier = Supplier(name: string, id: int)

  /** The catalogue, in the order the matches are reported. */
  const Catalogue: seq<Supplier> := [Supplier("Roboyo", 1), Supplier("Rossum", 2), Supplier("Volvo", 3)]

  /** The sole option offered when nothing matches. */
  const Placeholder: Choice := Choice(Str("---"), "---")

  /** A non-empty normalised input matches a supplier whose normalised name contains it. */
  predicate Matches(nameNorm: string, supplier: Supplier)
  {
    nameNorm != "" && Contains(NormalizeName(supplier.name), nameNorm)
  }

  /** The list comprehension over the catalogue: the matching suppliers, in catalogue order. */
  function Matched(nameNorm: string, catalogue: seq<Supplier>): (r: seq<Supplier>)
    ensures nameNorm == "" ==> r == []
    ensures |r| <= |catalogue|
  {
    if catalogue == [] then []
    else (if Matches(nameNorm, catalogue[0]) then [catalogue[0]] else []) + Matched(nameNorm, catalogue[1..])
  }

  /** Exactly the matching catalogue entries are kept. */
  lemma {:induction false} MatchedSpec(nameNorm: string, catalogue: seq<Supplier>)
    ensures forall s :: s in Matched(nameNorm, catalogue) <==> s in catalogue && Matches(nameNorm, s)
  {
    if catalogue != [] {
      MatchedSpec(nameNorm, catalogue[1..]);
      assert catalogue == [catalogue[0]] + catalogue[1..];
    }
  }

  /** Matches are reported in catalogue order. */
  lemma {:induction false} MatchedKeepsCatalogueOrder(nameNorm: string, catalogue: seq<Supplier>)
    ensures IsSubsequence(Matched(nameNorm, catalogue), catalogue)
  {
    if catalogue != [] {
      MatchedKeepsCatalogueOrder(nameNorm, catalogue[1..]);
      var r := Matched(nameNorm, catalogue);
      if Matches(nameNorm, catalogue[0]) {
        assert r[0] == catalogue[0] && r[1..] == Matched(nameNorm, catalogue[1..]);
      } else {
        assert r == Matched(nameNorm, catalogue[1..]);
        assert r == [] || IsSubsequence(r, catalogue[1..]);
      }
    }
  }

  /** The option list shown in the vendor picker: one per match, or the placeholder alone. */
  function VendorOptions(nameNorm: string): (options: seq<Choice>)
    ensures options != []
  {
    var matched := Matched(nameNorm, Catalogue);
    if matched != [] then seq(|matched|, i requires 0 <= i < |matched| => Choice(Num(matched[i].id), matched[i].name))
    else [Placeholder]
  }

  /** The placeholder is offered exactly when nothing in the catalogue matches. */
  lemma VendorOptionsPlaceholder(nameNorm: string)
    ensures VendorOptions(nameNorm) == [Placeholder] <==> Matched(nameNorm, Catalogue) == []
  {
    var matched := Matched(nameNorm, Catalogue);
    if matched != [] {
      assert VendorOptions(nameNorm)[0].value.Num?;
    }
  }

  /**
   * When something matches, the options are the matches one for one, in the
   * order of the match list (which is catalogue order, by
   * MatchedKeepsCatalogueOrder), as `{value: id, label: name}`.
   */
  lemma VendorOptionsInOrder(nameNorm: string)
    ensures var matched := Matched(nameNorm, Catalogue);
      var options := VendorOptions(nameNorm);
      matched != [] ==>
        |options| == |matched| &&
        forall i :: 0 <= i < |options| ==> options[i] == Choice(Num(matched[i].id), matched[i].name)
  {
  }

  /**
   * The options are exactly the matching catalogue entries as `{value: id,
   * label: name}`, or the placeholder alone when none matches; a real match
   * puts an id first.
   */
  lemma VendorOptionsSpec(nameNorm: string)
    ensures var options := VendorOptions(nameNorm);
      (options == [Placeholder] <==> forall s :: s in Catalogue ==> !Matches(nameNorm, s)) &&
      (options != [Placeholder] ==>
        (forall s :: s in Catalogue && Matches(nameNorm, s) ==> Choice(Num(s.id), s.name) in options) &&
        (forall c :: c in options ==> exists s :: s in Catalogue && Matches(nameNorm, s) && c == Choice(Num(s.id), s.name)) &&
        options[0].value.Num?)
  {
    var matched := Matched(nameNorm, Catalogue);
    var options := VendorOptions(nameNorm);
    MatchedSpec(nameNorm, Catalogue);
    if matched != [] {
      assert options[0].value.Num?;
      forall s | s in Catalogue && Matches(nameNorm, s) ensures Choice(Num(s.id), s.name) in options {
        var i :| 0 <= i < |matched| && matched[i] == s;
        assert options[i] == Choice(Num(s.id), s.name);
      }
      forall c | c in options ensures exists s :: s in Catalogue && Matches(nameNorm, s) && c == Choice(Num(s.id), s.name) {
        var i :| 0 <= i < |options| && options[i] == c;
        assert matched[i] in matched;
      }
      assert options != [Placeholder] by { assert options[0].value.Num?; }
    } else {
      assert forall s :: s in Catalogue ==> !Matches(nameNorm, s);
    }
  }

  lemma RoboyoNormalised() ensures NormalizeName(Catalogue[0].name) == "roboyo" {
    NormalizeNameCapitalised(Catalogue[0].name);
  }

  lemma RossumNormalised() ensures NormalizeName(Catalogue[1].name) == "rossum" {
    NormalizeNameCapitalised(Catalogue[1].name);
  }

  lemma VolvoNormalised() ensures NormalizeName(Catalogue[2].name) == "volvo" {
    NormalizeNameCapitalised(Catalogue[2].name);
  }

  /** Unfolds the comprehension over a three-entry catalogue. */
  lemma MatchedOverThree(nameNorm: string, catalogue: seq<Supplier>)
    requires |catalogue| == 3
    ensures Matched(nameNorm, catalogue) ==
      (if Matches(nameNorm, catalogue[0]) then [catalogue[0]] else []) +
      (if Matches(nameNorm, catalogue[1]) then [catalogue[1]] else []) +
      (if Matches(nameNorm, catalogue[2]) then [catalogue[2]] else [])
  {
    var rest := catalogue[1..];
    var last := rest[1..];
    assert last[1..] == [];
    assert rest[0] == catalogue[1] && last[0] == catalogue[2];
    assert Matched(nameNorm, last[1..]) == [];
    assert Matched(nameNorm, last) == (if Matches(nameNorm, catalogue[2]) then [catalogue[2]] else []) + [];
    assert Matched(nameNorm, rest) == (if Matches(nameNorm, catalogue[1]) then [catalogue[1]] else []) + Matched(nameNorm, last);
  }

  /**
   * The preselected option is the first catalogue entry, in catalogue order,
   * whose normalised name contains the input; the placeholder when none does.
   */
  lemma PreselectedIsFirstMatch(nameNorm: string)
    ensures VendorOptions(nameNorm)[0] ==
      if Matches(nameNorm, Catalogue[0]) then Choice(Num(Catalogue[0].id), Catalogue[0].name)
      else if Matches(nameNorm, Catalogue[1]) then Choice(Num(Catalogue[1].id), Catalogue[1].name)
      else if Matches(nameNorm, Catalogue[2]) then Choice(Num(Catalogue[2].id), Catalogue[2].name)
      else Placeholder
  {
    MatchedOverThree(nameNorm, Catalogue);
  }

  /** The full name of the first vendor selects that entry alone (test_success: "Roboyo" gives id 1). */
  lemma MatchedRoboyo(nameNorm: string)
    requires nameNorm == NormalizeName(Catalogue[0].name)
    ensures Matched(nameNorm, Catalogue) == [Supplier("Roboyo", 1)]
  {
    RoboyoNormalised();
    RossumNormalised();
    VolvoNormalised();
    MatchedOverThree(nameNorm, Catalogue);
    assert !Contains("rossum", nameNorm) by { assert "rossum"[..6] != nameNorm by { assert "rossum"[2] != nameNorm[2]; } }
  }

  /** ... and so offers Roboyo alone, with its id as the value. */
  lemma RoboyoOptions(nameNorm: string)
    requires nameNorm == NormalizeName(Catalogue[0].name)
    ensures Matched(nameNorm, Catalogue) != []
    ensures VendorOptions(nameNorm) == [Choice(Num(1), "Roboyo")]
  {
    MatchedRoboyo(nameNorm);
  }

  /**
   * A name holding a character that occurs in no normalised catalogue name
   * matches nothing (test_vendor_not_found: the 'n' of "sony").
   */
  lemma UnknownCharacterMatchesNothing(nameNorm: string, k: nat)
    requires k < |nameNorm|
    requires nameNorm[k] !in "roboyo" && nameNorm[k] !in "rossum" && nameNorm[k] !in "volvo"
    ensures Matched(nameNorm, Catalogue) == []
  {
    RoboyoNormalised();
    RossumNormalised();
    VolvoNormalised();
    MatchedOverThree(nameNorm, Catalogue);
    if Contains(NormalizeName(Catalogue[0].name), nameNorm) {
      ContainsNeedsEveryChar(NormalizeName(Catalogue[0].name), nameNorm, k);
    }
    if Contains(NormalizeName(Catalogue[1].name), nameNorm) {
      ContainsNeedsEveryChar(NormalizeName(Catalogue[1].name), nameNorm, k);
    }
    if Contains(NormalizeName(Catalogue[2].name), nameNorm) {
      ContainsNeedsEveryChar(NormalizeName(Catalogue[2].name), nameNorm, k);
    }
  }
}
