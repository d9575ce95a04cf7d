/** The election-cycle grid requested by the configuration (pull_data.py, get_cycles). */
module PullData {

  /** The years of the inclusive range [start, end] that are divisible by 4, in ascending
      order. Every element is a cycle year inside the range, and the list is strictly
      ascending, hence free of duplicates. */
  function GetCycles(start: int, end: int): (r: seq<int>)
    ensures forall i :: 0 <= i < |r| ==> r[i] % 4 == 0 && start <= r[i] <= end
    ensures forall i, j :: 0 <= i < j < |r| ==> r[i] < r[j]
    decreases end - start
  {
    if end < start then []
    else (if start % 4 == 0 then [start] else []) + GetCycles(start + 1, end)
  }

  /** No cycle year of the range is missing from the result. */
  lemma {:induction false} GetCyclesComplete(start: int, end: int, year: int)
    requires start <= year <= end && year % 4 == 0
    ensures year in GetCycles(start, end)
    decreases end - start
  {
    if year != start {
      GetCyclesComplete(start + 1, end, year);
    }
  }

  /** The result is empty exactly when the range holds no multiple of 4; in particular
      it is empty whenever end < start. */
  lemma GetCyclesEmpty(start: int, end: int)
    ensures end < start ==> GetCycles(start, end) == []
    ensures GetCycles(start, end) == [] <==> forall y :: start <= y <= end ==> y % 4 != 0
  {
    forall y | start <= y <= end && y % 4 == 0
      ensures GetCycles(start, end) != []
    {
      GetCyclesComplete(start, end, y);
    }
    var r := GetCycles(start, end);
    if r != [] {
      assert start <= r[0] <= end && r[0] % 4 == 0;
    }
  }

  /** A concrete grid: 2015 to 2024 gives the three presidential cycles. */
  lemma GetCyclesExample()
    ensures GetCycles(2015, 2024) == [2016, 2020, 2024]
  {
  }
}
