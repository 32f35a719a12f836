/** `parseEnumArray` (packages/api/src/models/index.ts): a comma-separated
    option string becomes the list of its pieces, trimmed and upper-cased,
    that are valid values of an enum. */
module EnumParse {
  import opened Common
  import opened Text

  /** One comma-separated piece as the parser compares it. */
  function Normalize(piece: string): string {
    Upper(Trim(piece))
  }

  function NormalizeAll(pieces: seq<string>): (r: seq<string>)
    ensures |r| == |pieces|
    ensures forall k :: 0 <= k < |r| ==> r[k] == Normalize(pieces[k])
  {
    if pieces == [] then [] else [Normalize(pieces[0])] + NormalizeAll(pieces[1..])
  }

  /** `xs.filter(x => valid.includes(x))`: keeps exactly the valid elements,
      each as often as it occurs, in their order. */
  function KeepValid(xs: seq<string>, valid: seq<string>): (r: seq<string>)
    ensures forall k :: 0 <= k < |r| ==> r[k] in valid && r[k] in xs
    ensures forall v :: multiset(r)[v] == if v in valid then multiset(xs)[v] else 0
    ensures |r| <= |xs|
    decreases |xs|
  {
    if xs == [] then []
    else
      var rest := KeepValid(xs[1..], valid);
      assert xs == [xs[0]] + xs[1..];
      if xs[0] in valid then [xs[0]] + rest else rest
  }

  /** Filtering distributes over concatenation: the output keeps input order. */
  lemma {:induction false} KeepValidAppend(xs: seq<string>, ys: seq<string>, valid: seq<string>)
    ensures KeepValid(xs + ys, valid) == KeepValid(xs, valid) + KeepValid(ys, valid)
    decreases |xs|
  {
    if xs == [] {
      assert xs + ys == ys;
    } else {
      assert (xs + ys)[1..] == xs[1..] + ys;
      KeepValidAppend(xs[1..], ys, valid);
    }
  }

  /** `parseEnumArray(input, validValues)`; `None` is `undefined`. */
  function ParseEnumArray(input: Option<string>, valid: seq<string>): (r: seq<string>)
    ensures input.None? || input == Some("") ==> r == []
    ensures forall k :: 0 <= k < |r| ==> r[k] in valid
    ensures input.Some? ==> |r| <= Count(input.value, ',') + 1
  {
    if input.None? || input.value == "" then []
    else
      SplitLength(input.value, ',');
      KeepValid(NormalizeAll(Split(input.value, ',')), valid)
  }

  lemma SplitAppendNoSep(a: string, b: string)
    requires ',' !in a
    ensures Split(a + "," + b, ',') == [a] + Split(b, ',')
  {
    var s := a + "," + b;
    assert s[..|a|] == a && s[|a|] == ',' && s[|a| + 1..] == b;
    SplitAt(s, ',', |a|);
  }

  /** Every parsed value is one of the input's pieces, trimmed and upper-cased. */
  lemma ParsePieces(input: string, valid: seq<string>)
    requires input != ""
    ensures forall k :: 0 <= k < |ParseEnumArray(Some(input), valid)| ==>
      ParseEnumArray(Some(input), valid)[k] in NormalizeAll(Split(input, ','))
  {
  }

  lemma {:induction false} SplitAppend(a: string, b: string)
    ensures Split(a + "," + b, ',') == Split(a, ',') + Split(b, ',')
    decreases |a|
  {
    if ',' !in a {
      SplitAppendNoSep(a, b);
    } else {
      var j := IndexOf(a, ',');
      var head, a' := a[..j], a[j + 1..];
      var s := a + "," + b;
      var rest := Split(a' + "," + b, ',');
      assert Split(s, ',') == [head] + rest by {
        assert s[..j] == head && s[j] == ',' && s[j + 1..] == a' + "," + b;
        SplitAt(s, ',', j);
      }
      assert Split(a, ',') == [head] + Split(a', ',') by {
        SplitAt(a, ',', j);
      }
      SplitAppend(a', b);
    }
  }

  lemma {:induction false} NormalizeAllAppend(xs: seq<string>, ys: seq<string>)
    ensures NormalizeAll(xs + ys) == NormalizeAll(xs) + NormalizeAll(ys)
    decreases |xs|
  {
    if xs == [] {
      assert xs + ys == ys;
    } else {
      assert (xs + ys)[1..] == xs[1..] + ys;
      NormalizeAllAppend(xs[1..], ys);
    }
  }

  /** Pieces keep their order: parsing `a,b` is parsing `a` then `b`. */
  lemma ParseConcat(a: string, b: string, valid: seq<string>)
    requires a != "" && b != ""
    ensures ParseEnumArray(Some(a + "," + b), valid)
         == ParseEnumArray(Some(a), valid) + ParseEnumArray(Some(b), valid)
  {
    SplitAppend(a, b);
    var pa, pb := Split(a, ','), Split(b, ',');
    NormalizeAllAppend(pa, pb);
    KeepValidAppend(NormalizeAll(pa), NormalizeAll(pb), valid);
  }

  /** The single empty piece of `""` is dropped unless `""` is valid. */
  lemma EmptyPieceDropped(valid: seq<string>)
    requires "" !in valid
    ensures KeepValid(NormalizeAll(Split("", ',')), valid) == []
  {
    assert Split("", ',') == [""];
    assert NormalizeAll([""]) == [Normalize("")] + NormalizeAll([]);
  }

  /** Two inputs whose pieces differ only in letter case or surrounding white
      space parse alike, provided the empty string is no valid value. */
  lemma ParseIgnoresCaseAndSpaces(a: string, b: string, valid: seq<string>)
    requires "" !in valid
    requires |Split(a, ',')| == |Split(b, ',')|
    requires forall k :: 0 <= k < |Split(a, ',')| ==>
      Normalize(Split(a, ',')[k]) == Normalize(Split(b, ',')[k])
    ensures ParseEnumArray(Some(a), valid) == ParseEnumArray(Some(b), valid)
  {
    NormalizeAllPointwise(Split(a, ','), Split(b, ','));
    ParseDependsOnNormalizedPieces(a, b, valid);
  }

  /** The parse is a function of the normalised pieces. */
  lemma ParseDependsOnNormalizedPieces(a: string, b: string, valid: seq<string>)
    requires "" !in valid
    requires NormalizeAll(Split(a, ',')) == NormalizeAll(Split(b, ','))
    ensures ParseEnumArray(Some(a), valid) == ParseEnumArray(Some(b), valid)
  {
    ParseAsPieces(a, valid);
    ParseAsPieces(b, valid);
  }

  /** Even the empty input parses as its one (empty) piece, once `""` is no
      valid value. */
  lemma ParseAsPieces(x: string, valid: seq<string>)
    requires "" !in valid
    ensures ParseEnumArray(Some(x), valid) == KeepValid(NormalizeAll(Split(x, ',')), valid)
  {
    if x == "" {
      EmptyPieceDropped(valid);
    }
  }

  lemma NormalizeAllPointwise(xs: seq<string>, ys: seq<string>)
    requires |xs| == |ys|
    requires forall k :: 0 <= k < |xs| ==> Normalize(xs[k]) == Normalize(ys[k])
    ensures NormalizeAll(xs) == NormalizeAll(ys)
  {
    var nx, ny := NormalizeAll(xs), NormalizeAll(ys);
    assert forall k :: 0 <= k < |nx| ==> nx[k] == ny[k];
  }

  /** A value that the parser maps to itself. */
  predicate Canonical(v: string) {
    v != "" && ',' !in v && IsUpper(v) && !IsSpace(v[0]) && !IsSpace(v[|v| - 1])
  }

  lemma CanonicalNormal(v: string)
    requires Canonical(v)
    ensures Normalize(v) == v
  {
    TrimNoOuterSpace(v);
    assert Upper(v) == v;
  }

  /** Joining a parse result with "," and parsing again gives the same list,
      when every valid value is upper-case, comma-free and unpadded. */
  lemma ReparseJoined(input: Option<string>, valid: seq<string>)
    requires forall k :: 0 <= k < |valid| ==> Canonical(valid[k])
    ensures var r := ParseEnumArray(input, valid);
            ParseEnumArray(Some(Join(r, ",")), valid) == r
  {
    var r := ParseEnumArray(input, valid);
    if r != [] {
      AllCanonical(r, valid);
      ReparseCanonical(r, valid);
    }
  }

  lemma AllCanonical(r: seq<string>, valid: seq<string>)
    requires forall k :: 0 <= k < |valid| ==> Canonical(valid[k])
    requires forall k :: 0 <= k < |r| ==> r[k] in valid
    ensures forall k :: 0 <= k < |r| ==> Canonical(r[k])
  {
    forall k | 0 <= k < |r| ensures Canonical(r[k]) {
      var i :| 0 <= i < |valid| && valid[i] == r[k];
    }
  }

  lemma ReparseCanonical(r: seq<string>, valid: seq<string>)
    requires r != []
    requires forall k :: 0 <= k < |r| ==> Canonical(r[k]) && r[k] in valid
    ensures ParseEnumArray(Some(Join(r, ",")), valid) == r
  {
    JoinCanonical(r);
    NormalizeCanonical(r);
    KeepAllValid(r, valid);
  }

  lemma JoinCanonical(r: seq<string>)
    requires r != []
    requires forall k :: 0 <= k < |r| ==> Canonical(r[k])
    ensures Join(r, ",") != "" && Split(Join(r, ","), ',') == r
  {
    if |r| > 1 { assert Join(r, ",") == r[0] + "," + Join(r[1..], ","); }
    SplitJoin(r, ',');
  }

  lemma NormalizeCanonical(r: seq<string>)
    requires forall k :: 0 <= k < |r| ==> Canonical(r[k])
    ensures NormalizeAll(r) == r
  {
    forall k | 0 <= k < |r| ensures Normalize(r[k]) == r[k] {
      CanonicalNormal(r[k]);
    }
  }

  lemma {:induction false} KeepAllValid(xs: seq<string>, valid: seq<string>)
    requires forall k :: 0 <= k < |xs| ==> xs[k] in valid
    ensures KeepValid(xs, valid) == xs
    decreases |xs|
  {
    if xs != [] {
      KeepAllValid(xs[1..], valid);
    }
  }
}
