/**
 * The complex counter store: a count and the history of its values, at
 * most `MaxHistory` long, whose last entry is always the current count.
 */
module ComparisonStore {
  import opened JsArrays

  const MaxHistory := 10

  /** `[...history.slice(-MaxHistory + 1), v]`: the last nine entries in order, then `v`. */
  function Pushed(history: seq<int>, v: int): (r: seq<int>)
    ensures |r| <= MaxHistory && |r| == (if |history| < MaxHistory - 1 then |history| else MaxHistory - 1) + 1
    ensures r[|r| - 1] == v
    ensures r[..|r| - 1] == history[|history| - (|r| - 1)..]
  {
    SliceFrom(history, -MaxHistory + 1) + [v]
  }

  /**
   * Below the cap, undoing a push gives back the history exactly, and with it
   * the count; at the cap the oldest entry is gone for good.
   */
  lemma UndoAfterPush(history: seq<int>, v: int)
    requires |history| < MaxHistory
    ensures var r := Pushed(history, v); r[..|r| - 1] == history
  {
  }

  /** A full history loses its oldest entry on a push. */
  lemma PushOnFullHistory(history: seq<int>, v: int)
    requires |history| == MaxHistory
    ensures Pushed(history, v) == history[1..] + [v]
  {
    var r := Pushed(history, v);
    assert r[..|r| - 1] == history[1..];
    assert r == r[..|r| - 1] + [r[|r| - 1]];
  }

  /** `getAverage`, over exact reals: the sum of the history over its length. */
  function Average(history: seq<int>): (avg: real)
    requires |history| > 0
    ensures avg * (|history| as real) == Sum(history) as real
  {
    (Sum(history) as real) / (|history| as real)
  }

  function Sum(s: seq<int>): int
  {
    if |s| == 0 then 0 else Sum(s[..|s| - 1]) + s[|s| - 1]
  }

  /** Every entry bounded by `lo` and `hi` puts the sum between `|s| * lo` and `|s| * hi`. */
  lemma {:induction false} SumBounds(s: seq<int>, lo: int, hi: int)
    requires forall i :: 0 <= i < |s| ==> lo <= s[i] <= hi
    ensures |s| * lo <= Sum(s) <= |s| * hi
  {
    if |s| > 0 {
      SumBounds(s[..|s| - 1], lo, hi);
      assert |s| * lo == (|s| - 1) * lo + lo;
      assert |s| * hi == (|s| - 1) * hi + hi;
    }
  }

  /** The average lies between the smallest and the largest entry. */
  lemma AverageWithinBounds(history: seq<int>, lo: int, hi: int)
    requires |history| > 0
    requires forall i :: 0 <= i < |history| ==> lo <= history[i] <= hi
    ensures lo as real <= Average(history) <= hi as real
  {
    SumBounds(history, lo, hi);
    var n := |history| as real;
    assert Average(history) * n == Sum(history) as real;
    assert (lo as real) * n <= Sum(history) as real <= (hi as real) * n;
  }

  class ComplexStore {
    var count: int
    var history: seq<int>

    /** The history is never empty, ends with the count, and holds at most `MaxHistory` values. */
    ghost predicate Valid()
      reads this
    {
      0 < |history| <= MaxHistory && history[|history| - 1] == count
    }

    constructor ()
      ensures Valid() && count == 0 && history == [0]
    {
      count := 0;
      history := [0];
    }

    method Increment()
      requires Valid()
      modifies this
      ensures Valid()
      ensures count == old(count) + 1 && history == Pushed(old(history), count)
    {
      SetCount(count + 1);
    }

    method Decrement()
      requires Valid()
      modifies this
      ensures Valid()
      ensures count == old(count) - 1 && history == Pushed(old(history), count)
    {
      SetCount(count - 1);
    }

    method Reset()
      requires Valid()
      modifies this
      ensures Valid()
      ensures count == 0 && history == Pushed(old(history), 0)
    {
      SetCount(0);
    }

    method SetCount(value: int)
      requires Valid()
      modifies this
      ensures Valid()
      ensures count == value && history == Pushed(old(history), value)
    {
      count := value;
      history := Pushed(history, value);
    }

    /** `undo`: with more than one entry, drop the last and return to the one before; otherwise nothing. */
    method Undo()
      requires Valid()
      modifies this
      ensures Valid()
      ensures |old(history)| > 1 ==> history == old(history)[..|old(history)| - 1] && count == history[|history| - 1]
      ensures |old(history)| <= 1 ==> history == old(history) && count == old(count)
    {
      if |history| > 1 {
        var newHistory := history[..|history| - 1];
        count := newHistory[|newHistory| - 1];
        history := newHistory;
      }
    }

    /** `redo` is not implemented: it changes nothing. */
    method Redo()
      requires Valid()
      ensures Valid()
    {
    }

    method ClearHistory()
      requires Valid()
      modifies this`history
      ensures Valid()
      ensures history == [count]
    {
      history := [count];
    }

    function CanUndo(): (b: bool)
      reads this
      ensures b <==> |history| > 1
    {
      |history| > 1
    }

    function CanRedo(): (b: bool)
      ensures !b
    {
      false
    }

    function GetAverage(): (avg: real)
      reads this
      requires Valid()
      ensures avg * (|history| as real) == Sum(history) as real
    {
      Average(history)
    }
  }
}
