/**
 * The sidebar filter of the dashboard: a row is kept when its season,
 * weather, weekday and hour are each among the values chosen for that
 * column (`isin` on each column, combined with `&`).
 */
module RowFilter {
  import opened Wrappers
  import opened Records

  /**
   * The four multiselect choices. The label columns may hold missing
   * values, and `isin` treats a missing value in the choices as matching a
   * missing label, so the label choices are sets of optional labels.
   */
  datatype Selection = Selection(
    seasons: set<Option<string>>,
    weathers: set<Option<string>>,
    days: set<Option<string>>,
    hours: set<int>)

  /** The row mask: all four memberships at once. */
  predicate Keep(r: Record, sel: Selection)
  {
    && r.season in sel.seasons
    && r.weathersit in sel.weathers
    && r.weekday in sel.days
    && r.hr in sel.hours
  }

  /** Boolean indexing with the mask: the kept rows, in their original order. */
  function Filtered(rows: seq<Record>, sel: Selection): (out: seq<Record>)
    ensures |out| <= |rows|
    ensures forall x :: x in out <==> x in rows && Keep(x, sel)
  {
    if rows == [] then []
    else (if Keep(rows[0], sel) then [rows[0]] else []) + Filtered(rows[1..], sel)
  }

  /** Every choice of `small` is also a choice of `large`. */
  predicate Within(small: Selection, large: Selection)
  {
    && small.seasons <= large.seasons
    && small.weathers <= large.weathers
    && small.days <= large.days
    && small.hours <= large.hours
  }

  /** The default of each multiselect: every value that occurs in its column. */
  function DefaultSelection(rows: seq<Record>): (sel: Selection)
    ensures forall i :: 0 <= i < |rows| ==> Keep(rows[i], sel)
  {
    Selection(
      set r | r in rows :: r.season,
      set r | r in rows :: r.weathersit,
      set r | r in rows :: r.weekday,
      set r | r in rows :: r.hr)
  }

  /**
   * `idx` lists, in strictly increasing order, positions of `whole` whose
   * rows are, one by one, the rows of `part`.
   */
  ghost predicate Embedding(idx: seq<int>, part: seq<Record>, whole: seq<Record>)
  {
    && |idx| == |part|
    && (forall k :: 0 <= k < |idx| ==> 0 <= idx[k] < |whole| && part[k] == whole[idx[k]])
    && (forall j, k :: 0 <= j < k < |idx| ==> idx[j] < idx[k])
  }

  ghost predicate IsSubsequence(part: seq<Record>, whole: seq<Record>)
  {
    exists idx :: Embedding(idx, part, whole)
  }

  /** Adds one to every position. */
  function Shift(idx: seq<int>): (r: seq<int>)
    ensures |r| == |idx|
    ensures forall k :: 0 <= k < |idx| ==> r[k] == idx[k] + 1
  {
    seq(|idx|, k requires 0 <= k < |idx| => idx[k] + 1)
  }

  /** An embedding into the tail of `whole`, shifted, is one into `whole`. */
  lemma ShiftEmbedding(idx: seq<int>, part: seq<Record>, whole: seq<Record>)
    requires whole != []
    requires Embedding(idx, part, whole[1..])
    ensures Embedding(Shift(idx), part, whole)
    ensures Embedding([0] + Shift(idx), [whole[0]] + part, whole)
  {
    var s := Shift(idx);
    assert forall k :: 0 <= k < |s| ==> s[k] >= 1;
    var t := [0] + s;
    assert forall k :: 1 <= k < |t| ==> t[k] == s[k - 1];
  }

  /** The positions of the rows the mask keeps. */
  function KeptPositions(rows: seq<Record>, sel: Selection): (idx: seq<int>)
    ensures Embedding(idx, Filtered(rows, sel), rows)
  {
    if rows == [] then []
    else
      var rest := KeptPositions(rows[1..], sel);
      ShiftEmbedding(rest, Filtered(rows[1..], sel), rows);
      if Keep(rows[0], sel) then [0] + Shift(rest) else Shift(rest)
  }

  /** The filtered rows are a subsequence of the input, in the same order. */
  lemma FilteredIsSubsequence(rows: seq<Record>, sel: Selection)
    ensures IsSubsequence(Filtered(rows, sel), rows)
  {
    var idx := KeptPositions(rows, sel);
    assert Embedding(idx, Filtered(rows, sel), rows);
  }

  /** A kept row appears as often as in the input, a dropped one not at all. */
  lemma {:induction false} FilteredMultiplicity(rows: seq<Record>, sel: Selection, x: Record)
    ensures multiset(Filtered(rows, sel))[x] == if Keep(x, sel) then multiset(rows)[x] else 0
  {
    if rows != [] {
      FilteredMultiplicity(rows[1..], sel, x);
      assert rows == [rows[0]] + rows[1..];
    }
  }

  /** An empty choice in any one of the four multiselects leaves no row. */
  lemma {:induction false} EmptyChoiceKeepsNothing(rows: seq<Record>, sel: Selection)
    requires sel.seasons == {} || sel.weathers == {} || sel.days == {} || sel.hours == {}
    ensures Filtered(rows, sel) == []
  {
    if rows != [] {
      EmptyChoiceKeepsNothing(rows[1..], sel);
    }
  }

  /** Filtering with a larger selection first does not change the result. */
  lemma {:induction false} FilteredThroughLarger(rows: seq<Record>, small: Selection, large: Selection)
    requires Within(small, large)
    ensures Filtered(Filtered(rows, large), small) == Filtered(rows, small)
  {
    if rows != [] {
      FilteredThroughLarger(rows[1..], small, large);
      var head := if Keep(rows[0], large) then [rows[0]] else [];
      assert Filtered(rows, large) == head + Filtered(rows[1..], large);
      FilteredConcat(head, Filtered(rows[1..], large), small);
    }
  }

  lemma {:induction false} FilteredConcat(a: seq<Record>, b: seq<Record>, sel: Selection)
    ensures Filtered(a + b, sel) == Filtered(a, sel) + Filtered(b, sel)
  {
    if a == [] {
      assert a + b == b;
    } else {
      assert (a + b)[1..] == a[1..] + b;
      FilteredConcat(a[1..], b, sel);
    }
  }

  /**
   * Enlarging a selection never removes a row: what the smaller selection
   * keeps is a subsequence of what the larger one keeps.
   */
  lemma FilteredMonotone(rows: seq<Record>, small: Selection, large: Selection)
    requires Within(small, large)
    ensures IsSubsequence(Filtered(rows, small), Filtered(rows, large))
    ensures |Filtered(rows, small)| <= |Filtered(rows, large)|
  {
    FilteredThroughLarger(rows, small, large);
    FilteredIsSubsequence(Filtered(rows, large), small);
  }

  /** Filtering twice with the same selection is filtering once. */
  lemma FilteredIdempotent(rows: seq<Record>, sel: Selection)
    ensures Filtered(Filtered(rows, sel), sel) == Filtered(rows, sel)
  {
    FilteredThroughLarger(rows, sel, sel);
  }

  /** When every row passes the mask, the filter returns the input unchanged. */
  lemma {:induction false} FilteredAllKept(rows: seq<Record>, sel: Selection)
    requires forall i :: 0 <= i < |rows| ==> Keep(rows[i], sel)
    ensures Filtered(rows, sel) == rows
  {
    if rows != [] {
      assert Keep(rows[0], sel);
      FilteredAllKept(rows[1..], sel);
    }
  }

  /**
   * The filter keeps every row exactly when each multiselect holds at least
   * the values of its column, the defaults being the smallest such choice.
   */
  lemma KeepsAllIffCoversDefault(rows: seq<Record>, sel: Selection)
    ensures Filtered(rows, sel) == rows <==> Within(DefaultSelection(rows), sel)
  {
    var d := DefaultSelection(rows);
    if Within(d, sel) {
      forall i | 0 <= i < |rows| ensures Keep(rows[i], sel) {
        assert Keep(rows[i], d);
      }
      FilteredAllKept(rows, sel);
    }
    if Filtered(rows, sel) == rows {
      assert forall r :: r in rows ==> Keep(r, sel);
    }
  }

  /** With every multiselect at its default, no row is removed. */
  lemma DefaultKeepsAll(rows: seq<Record>)
    ensures Filtered(rows, DefaultSelection(rows)) == rows
  {
    FilteredAllKept(rows, DefaultSelection(rows));
  }
}
