/**
 * Header validation of an uploaded spreadsheet: which of the columns the
 * upload form demands are present in the sheet's header row.
 */
module Columns {
  import opened Wrappers

  /** The columns the BAES upload form demands, in the order the form lists them. */
  const RequiredColumns: seq<string> := [
    "RUTc", "DV", "SEDE", "VIGENCIA", "NOMBRES",
    "Estado-mar", "Pago-mar", "Estado-abr", "Pago-abr",
    "Estado-may", "Pago-may", "Estado-jun", "Pago-jun",
    "Estado-jul", "Pago-jul", "Estado-ago", "Pago-ago",
    "Estado-sep", "Pago-sep", "Estado-oct", "Pago-oct",
    "Estado-nov", "Pago-nov", "Estado-dic", "Pago-dic"]

  /**
   * The required names that do not occur in the header, walking the
   * required list front to back.
   */
  function Missing(header: seq<string>, required: seq<string>): (missing: seq<string>)
    ensures |missing| <= |required|
    ensures forall c :: c in missing <==> c in required && c !in header
  {
    if required == [] then []
    else if required[0] in header then Missing(header, required[1..])
    else [required[0]] + Missing(header, required[1..])
  }

  /**
   * The pair the script's validator returns: `(true, None)` when nothing is
   * missing, `(false, Some(missing))` otherwise.
   */
  function ValidateColumns(header: seq<string>, required: seq<string>): (r: (bool, Option<seq<string>>))
    ensures r.0 <==> forall c :: c in required ==> c in header
    ensures r.0 <==> r.1 == None
    ensures r.1.Some? ==> r.1.value == Missing(header, required) && r.1.value != []
  {
    var missing := Missing(header, required);
    if missing != [] then
      assert missing[0] in missing;
      (false, Some(missing))
    else (true, None)
  }

  /** `a` is `b` with some of its elements dropped, the rest kept in order. */
  ghost predicate IsSubsequence(a: seq<string>, b: seq<string>)
    decreases |b|
  {
    a == [] || (b != [] && ((a[0] == b[0] && IsSubsequence(a[1..], b[1..])) || IsSubsequence(a, b[1..])))
  }

  /** The missing names keep the order of the required list. */
  lemma {:induction false} MissingKeepsOrder(header: seq<string>, required: seq<string>)
    ensures IsSubsequence(Missing(header, required), required)
  {
    if required != [] {
      MissingKeepsOrder(header, required[1..]);
    }
  }

  /**
   * Each name is missing exactly as many times as the required list names
   * it, or not at all when the header has it.
   */
  lemma {:induction false} MissingMultiplicity(header: seq<string>, required: seq<string>, c: string)
    ensures multiset(Missing(header, required))[c] == if c in header then 0 else multiset(required)[c]
  {
    if required != [] {
      MissingMultiplicity(header, required[1..], c);
      assert required == [required[0]] + required[1..];
      assert multiset(required) == multiset{required[0]} + multiset(required[1..]);
    }
  }

  /** Checking a list in two pieces gives the two pieces' missing names, in order. */
  lemma {:induction false} MissingOfConcat(header: seq<string>, a: seq<string>, b: seq<string>)
    ensures Missing(header, a + b) == Missing(header, a) + Missing(header, b)
  {
    if a == [] {
      assert a + b == b;
    } else {
      assert (a + b)[0] == a[0];
      assert (a + b)[1..] == a[1..] + b;
      MissingOfConcat(header, a[1..], b);
    }
  }

  /** Only which names the header holds matters, not their order or repetition. */
  lemma {:induction false} MissingDependsOnlyOnColumnSet(h1: seq<string>, h2: seq<string>, required: seq<string>)
    requires forall c :: c in h1 <==> c in h2
    ensures Missing(h1, required) == Missing(h2, required)
  {
    if required != [] {
      MissingDependsOnlyOnColumnSet(h1, h2, required[1..]);
    }
  }

  /** A sheet with no header at all misses every required column. */
  lemma {:induction false} EmptyHeaderMissesAll(required: seq<string>)
    ensures Missing([], required) == required
  {
    if required != [] {
      EmptyHeaderMissesAll(required[1..]);
    }
  }

  /** A header that passes validation has the SEDE column the file is named after. */
  lemma ValidHeaderHasSede(header: seq<string>)
    requires ValidateColumns(header, RequiredColumns).0
    ensures "SEDE" in header
  {
    assert RequiredColumns[2] == "SEDE";
  }

  /** A header with all of `required` lacks none of it. */
  lemma NothingMissing(header: seq<string>, required: seq<string>)
    requires forall c :: c in required ==> c in header
    ensures Missing(header, required) == []
  {
  }

  /**
   * A header that has every required column but one, named once in the
   * required list, is missing that one column and nothing else, whatever
   * other columns it carries.
   */
  lemma {:induction false} OnlyOneMissing(header: seq<string>, before: seq<string>, x: string, after: seq<string>)
    requires x !in before && x !in after && x !in header
    requires forall c :: c in before || c in after ==> c in header
    ensures Missing(header, before + [x] + after) == [x]
  {
    MissingOfConcat(header, before + [x], after);
    MissingOfConcat(header, before, [x]);
    NothingMissing(header, before);
    NothingMissing(header, after);
  }

  /** A sequence is what lies before index `i`, the element at `i`, and what lies after. */
  lemma SplitAround(s: seq<string>, i: nat)
    requires i < |s|
    ensures s == s[..i] + [s[i]] + s[i + 1..]
  {
  }

  /** VIGENCIA is named once in the required list, fourth. */
  lemma VigenciaOnlyAtThree()
    ensures RequiredColumns[3] == "VIGENCIA"
    ensures forall i :: 0 <= i < |RequiredColumns| && i != 3 ==> RequiredColumns[i] != "VIGENCIA"
  {
  }

  /**
   * A header holding every required column except VIGENCIA, with or without
   * columns of its own, is rejected for exactly that column.
   */
  lemma VigenciaAloneMissing(header: seq<string>)
    requires forall c :: c in RequiredColumns ==> (c in header <==> c != "VIGENCIA")
    ensures ValidateColumns(header, RequiredColumns) == (false, Some(["VIGENCIA"]))
  {
    var before, after := RequiredColumns[..3], RequiredColumns[4..];
    SplitAround(RequiredColumns, 3);
    VigenciaOnlyAtThree();
    assert forall i :: 0 <= i < |after| ==> after[i] == RequiredColumns[i + 4];
    OnlyOneMissing(header, before, "VIGENCIA", after);
  }
}
