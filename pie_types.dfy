/** The pie query of the slice editor (`packages/client/src/components/App.tsx`
    and `Slice.tsx`): slices as `[label, color, percent]` keyed by id, and the
    `reduce` that sums their percentages, shared by the editor and the pie
    page. */
module PieTypes {
  import opened Sequences
  import opened InsertionOrder
  import opened Charts

  /** `[label, color, percent]` (`label` is a Dafny keyword, hence `caption`). Percentages are whole numbers: the editor
      reads them with `parseInt`. */
  datatype SliceType = SliceType(caption: string, color: string, percent: int)

  /** `{ size, color, strokeWidth, mode, slices }`; `slices` is a plain object
      keyed by slice id, in insertion order. */
  datatype PieQueryData = PieQueryData(
    size: int,
    color: string,
    strokeWidth: int,
    mode: Mode,
    slices: OrderedMap<SliceType>)

  /** `list.reduce((total, [, , percent]) => (total += percent), 0)`: the
      percentages added from left to right. */
  function SumPercents(list: seq<SliceType>): (total: int)
    ensures (forall i | 0 <= i < |list| :: list[i].percent >= 0) ==> total >= 0
  {
    if list == [] then 0 else SumPercents(list[..|list| - 1]) + list[|list| - 1].percent
  }

  /** The sum of a concatenation is the sum of its parts. */
  lemma {:induction false} SumPercentsAppend(a: seq<SliceType>, b: seq<SliceType>)
    ensures SumPercents(a + b) == SumPercents(a) + SumPercents(b)
  {
    if b != [] {
      assert (a + b)[..|a + b| - 1] == a + b[..|b| - 1];
      SumPercentsAppend(a, b[..|b| - 1]);
    } else {
      assert a + b == a;
    }
  }

  /** A single slice sums to its own percentage. */
  lemma SumPercentsSingle(s: SliceType)
    ensures SumPercents([s]) == s.percent
  {
    assert [s][..0] == [];
  }

  /** Replacing one slice changes the sum by the difference of the percentages. */
  lemma SumPercentsUpdate(list: seq<SliceType>, i: nat, s: SliceType)
    requires i < |list|
    ensures SumPercents(list[i := s]) == SumPercents(list) - list[i].percent + s.percent
  {
    var front, back := list[..i], list[i + 1..];
    SplitAt(list, i);
    SplitAt(list[i := s], i);
    assert list[i := s][..i] == front && list[i := s][i + 1..] == back;
    SumPercentsAppend(front + [list[i]], back);
    SumPercentsAppend(front, [list[i]]);
    SumPercentsAppend(front + [s], back);
    SumPercentsAppend(front, [s]);
    SumPercentsSingle(list[i]);
    SumPercentsSingle(s);
  }

  /** Removing one slice takes its percentage off the sum. */
  lemma SumPercentsRemove(list: seq<SliceType>, i: nat)
    requires i < |list|
    ensures SumPercents(list[..i] + list[i + 1..]) == SumPercents(list) - list[i].percent
  {
    var front, back := list[..i], list[i + 1..];
    SplitAt(list, i);
    SumPercentsAppend(front + [list[i]], back);
    SumPercentsAppend(front, [list[i]]);
    SumPercentsAppend(front, back);
    SumPercentsSingle(list[i]);
  }
}
