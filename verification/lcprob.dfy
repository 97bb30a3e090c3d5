/**
 * The problem picker: choosing an unsolved problem from the three curated
 * lists in priority order, recording the user's answer in the problem table,
 * and the reset-and-retry step taken when every problem is complete.
 *
 * The table (a pandas DataFrame read from data/problems_unique.csv) is an
 * `array<Record>` that the operations update in place.  The random draw of
 * `DataFrame.sample(1)` is the parameter `pick`: the row taken is the
 * candidate at position `pick % |candidates|`, so every candidate can come out.
 */
module LCProb {
  import opened Wrappers
  import opened PyStr

  /** A completion time as produced by `pd.Timestamp.now()`: opaque and never empty. */
  type Timestamp = s: string | |s| > 0 witness "1970-01-01 00:00:00"

  /** One row of the problem table. An empty `Date Completed` cell is `None`. */
  datatype Record = Record(
    number: int,
    name: string,
    difficulty: string,
    link: string,
    list: string,
    dateCompleted: Option<Timestamp>,
    completed: int)

  /** The `Problem` record returned by the selector. */
  datatype Problem = Problem(success: bool, probList: string, num: int, name: string, diff: string, link: string)

  /** `Problem(False)`: a failed selection, every other field at its default. */
  const NotFound: Problem := Problem(false, "", -1, "", "", "")

  /** The lists in the order the selector tries them. */
  const PriorityOrder: seq<string> := ["Grind75", "Grind169", "Neetcode150"]

  /** A successful selection of `raw` from list `lst`. */
  function Found(lst: string, raw: Record): Problem {
    Problem(true, lst, raw.number, raw.name, raw.difficulty, raw.link)
  }

  // ---------------------------------------------------------------------------
  // Selection (`_get_prob`)
  // ---------------------------------------------------------------------------

  /** `problems_df[problems_df["List"] == lst]`: the rows of one list, in table order. */
  function RowsOfList(t: seq<Record>, lst: string): (df: seq<Record>)
    ensures |df| <= |t|
    ensures forall r :: r in df <==> r in t && r.list == lst
  {
    if t == [] then []
    else
      assert t == [t[0]] + t[1..];
      (if t[0].list == lst then [t[0]] else []) + RowsOfList(t[1..], lst)
  }

  /** `df[df["Completed"] == 0]`: the rows not yet completed, in table order. */
  function IncompleteRows(df: seq<Record>): (c: seq<Record>)
    ensures |c| <= |df|
    ensures forall r :: r in c <==> r in df && r.completed == 0
  {
    if df == [] then []
    else
      assert df == [df[0]] + df[1..];
      (if df[0].completed == 0 then [df[0]] else []) + IncompleteRows(df[1..])
  }

  /** `sum(~inds)`: how many rows have a `Completed` value other than 0. */
  function CountCompleted(df: seq<Record>): (n: nat)
    ensures n + |IncompleteRows(df)| == |df|
  {
    if df == [] then 0 else (if df[0].completed == 0 then 0 else 1) + CountCompleted(df[1..])
  }

  /** List `lst` has a row with `Completed == 0`. */
  predicate HasIncompleteIn(t: seq<Record>, lst: string) {
    exists i :: 0 <= i < |t| && t[i].list == lst && t[i].completed == 0
  }

  /** Some row of one of the three lists has `Completed == 0`. */
  predicate HasIncomplete(t: seq<Record>) {
    exists i :: 0 <= i < |t| && t[i].completed == 0 && t[i].list in PriorityOrder
  }

  /** `lists[k]` is the first of `lists` that has an incomplete row. */
  ghost predicate FirstWithIncomplete(t: seq<Record>, lists: seq<string>, k: int) {
    0 <= k < |lists| && HasIncompleteIn(t, lists[k]) &&
    forall j :: 0 <= j < k ==> !HasIncompleteIn(t, lists[j])
  }

  /** The loop of `_get_prob` from list `lists[0]` on: skip a list whose rows are all completed
      (or that has no rows), otherwise draw one of its incomplete rows. */
  function GetProbFrom(t: seq<Record>, lists: seq<string>, pick: nat): (p: Problem)
    ensures p.success ==> p.probList in lists
    ensures !p.success ==> p == NotFound
    decreases |lists|
  {
    if lists == [] then NotFound
    else
      var df := RowsOfList(t, lists[0]);
      if CountCompleted(df) == |df| then GetProbFrom(t, lists[1..], pick)
      else
        var candidates := IncompleteRows(df);
        Found(lists[0], candidates[pick % |candidates|])
  }

  /** `_get_prob(problems_df)`, with `pick` standing for the random draw. */
  function GetProb(t: seq<Record>, pick: nat): (p: Problem)
    ensures p.success ==> p.probList in PriorityOrder
    ensures !p.success ==> p == NotFound
  {
    GetProbFrom(t, PriorityOrder, pick)
  }

  /** The test `sum(~inds) == len(df)` holds exactly when the list has no incomplete row. */
  lemma AllCompletedIff(t: seq<Record>, lst: string)
    ensures CountCompleted(RowsOfList(t, lst)) == |RowsOfList(t, lst)| <==> !HasIncompleteIn(t, lst)
  {
    var df := RowsOfList(t, lst);
    if HasIncompleteIn(t, lst) {
      var i :| 0 <= i < |t| && t[i].list == lst && t[i].completed == 0;
      assert t[i] in df;
      assert t[i] in IncompleteRows(df);
    }
    if CountCompleted(df) != |df| {
      var r := IncompleteRows(df)[0];
      assert r in IncompleteRows(df);
      assert r in t;
    }
  }

  /** What the selection loop may return over the list names `lists`: a success exactly when
      some list has an incomplete row; then it comes from the first such list, is an incomplete
      row of it, and its fields are copied into the result; otherwise `Problem(False)`. */
  ghost predicate SelectsFrom(t: seq<Record>, lists: seq<string>, p: Problem) {
    && (p.success <==> exists k :: 0 <= k < |lists| && HasIncompleteIn(t, lists[k]))
    && (p.success ==> exists k :: FirstWithIncomplete(t, lists, k) && lists[k] == p.probList)
    && (p.success ==> exists i :: 0 <= i < |t| && t[i].list == p.probList && t[i].completed == 0 &&
                                  p == Found(t[i].list, t[i]))
    && (!p.success ==> p == NotFound)
  }

  /** A result that fits the lists after a skipped list fits the whole lists. */
  lemma SkipKeepsSelection(t: seq<Record>, lists: seq<string>, p: Problem)
    requires lists != [] && !HasIncompleteIn(t, lists[0])
    requires SelectsFrom(t, lists[1..], p)
    ensures SelectsFrom(t, lists, p)
  {
    var rest := lists[1..];
    if exists k :: 0 <= k < |lists| && HasIncompleteIn(t, lists[k]) {
      var k :| 0 <= k < |lists| && HasIncompleteIn(t, lists[k]);
      assert k > 0 && rest[k - 1] == lists[k];
    }
    if exists k :: 0 <= k < |rest| && HasIncompleteIn(t, rest[k]) {
      var k :| 0 <= k < |rest| && HasIncompleteIn(t, rest[k]);
      assert lists[k + 1] == rest[k];
    }
    if p.success {
      var k :| FirstWithIncomplete(t, rest, k) && rest[k] == p.probList;
      forall j | 0 <= j < k + 1
        ensures !HasIncompleteIn(t, lists[j])
      {
        if j > 0 {
          assert lists[j] == rest[j - 1];
        }
      }
      assert FirstWithIncomplete(t, lists, k + 1);
    }
  }

  /** The selection loop over any list of list names meets SelectsFrom. */
  lemma {:induction false} GetProbFromSpec(t: seq<Record>, lists: seq<string>, pick: nat)
    ensures SelectsFrom(t, lists, GetProbFrom(t, lists, pick))
    decreases |lists|
  {
    if lists == [] {
      return;
    }
    var p := GetProbFrom(t, lists, pick);
    var df := RowsOfList(t, lists[0]);
    AllCompletedIff(t, lists[0]);
    if CountCompleted(df) == |df| {
      GetProbFromSpec(t, lists[1..], pick);
      SkipKeepsSelection(t, lists, p);
    } else {
      var candidates := IncompleteRows(df);
      var raw := candidates[pick % |candidates|];
      assert raw in candidates;
      assert p == Found(lists[0], raw);
      assert FirstWithIncomplete(t, lists, 0);
      assert raw in t;
    }
  }

  /** `_get_prob` succeeds exactly when some row of the three lists is incomplete; a success
      names an incomplete row of one of the three lists and copies its fields; a failure is
      `Problem(False)`. */
  lemma SelectionOutcome(t: seq<Record>, pick: nat)
    ensures var p := GetProb(t, pick);
      && (p.success <==> HasIncomplete(t))
      && (p.success ==> p.probList in PriorityOrder)
      && (p.success ==> exists i :: 0 <= i < |t| && t[i].list == p.probList && t[i].completed == 0 &&
                                    p == Found(t[i].list, t[i]))
      && (!p.success ==> p == NotFound)
  {
    var p := GetProb(t, pick);
    GetProbFromSpec(t, PriorityOrder, pick);
    if HasIncomplete(t) {
      var i :| 0 <= i < |t| && t[i].completed == 0 && t[i].list in PriorityOrder;
      var k :| 0 <= k < |PriorityOrder| && PriorityOrder[k] == t[i].list;
      assert HasIncompleteIn(t, PriorityOrder[k]);
    }
    if p.success {
      var k :| FirstWithIncomplete(t, PriorityOrder, k) && PriorityOrder[k] == p.probList;
      var i :| 0 <= i < |t| && t[i].list == PriorityOrder[k] && t[i].completed == 0;
      assert t[i].list in PriorityOrder;
    }
  }

  /** List priority: Grind75 is drawn from whenever it has an incomplete row, Grind169 only when
      Grind75 has none, Neetcode150 only when neither of the others has one. */
  lemma SelectionFollowsPriority(t: seq<Record>, pick: nat)
    ensures var p := GetProb(t, pick);
      && (HasIncompleteIn(t, "Grind75") ==> p.success && p.probList == "Grind75")
      && (!HasIncompleteIn(t, "Grind75") && HasIncompleteIn(t, "Grind169") ==>
            p.success && p.probList == "Grind169")
      && (!HasIncompleteIn(t, "Grind75") && !HasIncompleteIn(t, "Grind169") && HasIncompleteIn(t, "Neetcode150") ==>
            p.success && p.probList == "Neetcode150")
  {
    var p := GetProb(t, pick);
    GetProbFromSpec(t, PriorityOrder, pick);
    if HasIncompleteIn(t, "Grind75") || HasIncompleteIn(t, "Grind169") || HasIncompleteIn(t, "Neetcode150") {
      assert HasIncompleteIn(t, PriorityOrder[0]) || HasIncompleteIn(t, PriorityOrder[1]) ||
             HasIncompleteIn(t, PriorityOrder[2]);
      assert p.success;
      var k :| FirstWithIncomplete(t, PriorityOrder, k) && PriorityOrder[k] == p.probList;
      if HasIncompleteIn(t, "Grind75") {
        assert k == 0;
      } else if HasIncompleteIn(t, "Grind169") {
        assert k == 1;
      }
    }
  }

  /** A row that `sample(1)` may return: an incomplete row of the first list that has one. */
  ghost predicate IsCandidate(t: seq<Record>, r: Record) {
    r in t && r.completed == 0 &&
    exists k :: FirstWithIncomplete(t, PriorityOrder, k) && PriorityOrder[k] == r.list
  }

  /** Every successful draw is a candidate row. */
  lemma SelectionIsCandidate(t: seq<Record>, pick: nat)
    ensures var p := GetProb(t, pick);
      p.success ==> exists r :: IsCandidate(t, r) && p == Found(r.list, r)
  {
    var p := GetProb(t, pick);
    GetProbFromSpec(t, PriorityOrder, pick);
    if p.success {
      var i :| 0 <= i < |t| && t[i].list == p.probList && t[i].completed == 0 && p == Found(t[i].list, t[i]);
      assert IsCandidate(t, t[i]);
    }
  }

  /** Skipping a list with no incomplete row: the loop goes on to the next list, whatever the draw. */
  lemma SkipsListWithoutIncomplete(t: seq<Record>, lists: seq<string>, pick: nat)
    requires lists != [] && !HasIncompleteIn(t, lists[0])
    ensures GetProbFrom(t, lists, pick) == GetProbFrom(t, lists[1..], pick)
  {
    AllCompletedIff(t, lists[0]);
  }

  /** The draw `idx` of the first list takes its incomplete row number `idx`. */
  lemma DrawsCandidate(t: seq<Record>, lists: seq<string>, r: Record)
    requires lists != [] && r in t && r.completed == 0 && r.list == lists[0]
    ensures exists pick :: GetProbFrom(t, lists, pick) == Found(r.list, r)
  {
    var df := RowsOfList(t, lists[0]);
    var candidates := IncompleteRows(df);
    assert r in df;
    assert r in candidates;
    var idx :| 0 <= idx < |candidates| && candidates[idx] == r;
    assert CountCompleted(df) != |df|;
    DrawBelowCount(idx, |candidates|);
    assert GetProbFrom(t, lists, idx) == Found(lists[0], candidates[idx]);
  }

  /** The draw `idx` is the candidate at position `idx`, when there are more than `idx`
      candidates. Kept apart so that the modulus is reasoned about without the table in scope. */
  lemma DrawBelowCount(idx: nat, n: nat)
    requires idx < n
    ensures idx % n == idx
  {
  }

  lemma {:induction false} CandidateReachableFrom(t: seq<Record>, lists: seq<string>, k: nat, r: Record)
    requires r in t && r.completed == 0
    requires FirstWithIncomplete(t, lists, k) && lists[k] == r.list
    ensures exists pick :: GetProbFrom(t, lists, pick) == Found(r.list, r)
    decreases k
  {
    if k == 0 {
      DrawsCandidate(t, lists, r);
    } else {
      var rest := lists[1..];
      assert !HasIncompleteIn(t, lists[0]);
      assert FirstWithIncomplete(t, rest, k - 1) by {
        assert rest[k - 1] == lists[k];
        forall j | 0 <= j < k - 1
          ensures !HasIncompleteIn(t, rest[j])
        {
          assert rest[j] == lists[j + 1];
        }
      }
      CandidateReachableFrom(t, rest, k - 1, r);
      var pick :| GetProbFrom(t, rest, pick) == Found(r.list, r);
      SkipsListWithoutIncomplete(t, lists, pick);
    }
  }

  /** Every candidate row is the outcome of some draw: together with SelectionIsCandidate, the
      possible results of `_get_prob` are exactly the candidate rows. */
  lemma SelectionCoversCandidates(t: seq<Record>, r: Record)
    requires IsCandidate(t, r)
    ensures exists pick :: GetProb(t, pick) == Found(r.list, r)
  {
    var k :| FirstWithIncomplete(t, PriorityOrder, k) && PriorityOrder[k] == r.list;
    CandidateReachableFrom(t, PriorityOrder, k, r);
    var pick :| GetProbFrom(t, PriorityOrder, pick) == Found(r.list, r);
    assert GetProb(t, pick) == Found(r.list, r);
  }

  /** When exactly one row of the table is incomplete and it belongs to one of the three lists,
      every draw selects it. */
  lemma SingleIncompleteIsSelected(t: seq<Record>, i: nat, pick: nat)
    requires i < |t| && t[i].completed == 0 && t[i].list in PriorityOrder
    requires forall j :: 0 <= j < |t| && j != i ==> t[j].completed != 0
    ensures GetProb(t, pick) == Found(t[i].list, t[i])
  {
    SelectionOutcome(t, pick);
  }

  /** Two tables that agree on `List` and `Completed` row by row give the same success flag and
      the same list for every draw: nothing else is read when deciding. */
  lemma {:induction false} SelectionReadsListAndCompleted(t1: seq<Record>, t2: seq<Record>, lists: seq<string>, pick: nat)
    requires |t1| == |t2|
    requires forall i :: 0 <= i < |t1| ==> t1[i].list == t2[i].list && t1[i].completed == t2[i].completed
    ensures GetProbFrom(t1, lists, pick).success == GetProbFrom(t2, lists, pick).success
    ensures GetProbFrom(t1, lists, pick).probList == GetProbFrom(t2, lists, pick).probList
    decreases |lists|
  {
    if lists != [] {
      AllCompletedIff(t1, lists[0]);
      AllCompletedIff(t2, lists[0]);
      assert HasIncompleteIn(t1, lists[0]) == HasIncompleteIn(t2, lists[0]) by {
        if HasIncompleteIn(t1, lists[0]) {
          var i :| 0 <= i < |t1| && t1[i].list == lists[0] && t1[i].completed == 0;
          assert t2[i].list == lists[0] && t2[i].completed == 0;
        }
        if HasIncompleteIn(t2, lists[0]) {
          var i :| 0 <= i < |t2| && t2[i].list == lists[0] && t2[i].completed == 0;
          assert t1[i].list == lists[0] && t1[i].completed == 0;
        }
      }
      SelectionReadsListAndCompleted(t1, t2, lists[1..], pick);
    }
  }

  // ---------------------------------------------------------------------------
  // Table updates: the specification of each masked assignment
  // ---------------------------------------------------------------------------

  /** One row after `y`: completed at time `now`. */
  function Done(r: Record, now: Timestamp): Record {
    r.(dateCompleted := Some(now), completed := 1)
  }

  /** One row after `r` or an undo: not completed, no date. */
  function Undone(r: Record): Record {
    r.(dateCompleted := None, completed := 0)
  }

  /** One row after `df["Date Completed"] = ""`. */
  function Undated(r: Record): Record {
    r.(dateCompleted := None)
  }

  /** The table after the `y` assignments of rows numbered `num`. */
  function MarkDone(t: seq<Record>, num: int, now: Timestamp): (m: seq<Record>)
    ensures |m| == |t|
    ensures forall i :: 0 <= i < |t| && t[i].number == num ==>
      m[i].completed == 1 && m[i].dateCompleted == Some(now) &&
      m[i].(dateCompleted := t[i].dateCompleted, completed := t[i].completed) == t[i]
    ensures forall i :: 0 <= i < |t| && t[i].number != num ==> m[i] == t[i]
  {
    seq(|t|, i requires 0 <= i < |t| => if t[i].number == num then Done(t[i], now) else t[i])
  }

  /** The table after the undo assignments of rows numbered `num`. */
  function Undo(t: seq<Record>, num: int): (u: seq<Record>)
    ensures |u| == |t|
    ensures forall i :: 0 <= i < |t| && t[i].number == num ==>
      u[i].completed == 0 && u[i].dateCompleted.None? &&
      u[i].(dateCompleted := t[i].dateCompleted, completed := t[i].completed) == t[i]
    ensures forall i :: 0 <= i < |t| && t[i].number != num ==> u[i] == t[i]
  {
    seq(|t|, i requires 0 <= i < |t| => if t[i].number == num then Undone(t[i]) else t[i])
  }

  /** The table after the full reset `r`. */
  function ResetAll(t: seq<Record>): (u: seq<Record>)
    ensures |u| == |t|
    ensures forall i :: 0 <= i < |t| ==>
      u[i].completed == 0 && u[i].dateCompleted.None? &&
      u[i].(dateCompleted := t[i].dateCompleted, completed := t[i].completed) == t[i]
  {
    seq(|t|, i requires 0 <= i < |t| => Undone(t[i]))
  }

  /** The table after clearing the `Date Completed` column only. */
  function ClearDates(t: seq<Record>): (c: seq<Record>)
    ensures |c| == |t|
    ensures forall i :: 0 <= i < |t| ==> c[i].dateCompleted.None? && c[i].(dateCompleted := t[i].dateCompleted) == t[i]
  {
    seq(|t|, i requires 0 <= i < |t| => Undated(t[i]))
  }

  /** Some row of the table has number `num` (`num in df["Number"].values`). */
  predicate HasNumber(t: seq<Record>, num: int) {
    exists i :: 0 <= i < |t| && t[i].number == num
  }

  /** Undoing a problem that was marked done brings its rows back to how they were, when they
      were not completed before (the `y` then `str(n)` sequence of the tests). */
  lemma UndoReversesMarkDone(t: seq<Record>, num: int, now: Timestamp)
    requires forall i :: 0 <= i < |t| && t[i].number == num ==> t[i] == Undone(t[i])
    ensures Undo(MarkDone(t, num, now), num) == t
  {
    var u := Undo(MarkDone(t, num, now), num);
    forall i | 0 <= i < |t|
      ensures u[i] == t[i]
    {
    }
  }

  lemma {:induction false} RowsOfListClearDates(t: seq<Record>, lst: string)
    ensures RowsOfList(ClearDates(t), lst) == ClearDates(RowsOfList(t, lst))
  {
    if t != [] {
      var head: seq<Record> := if t[0].list == lst then [t[0]] else [];
      assert ClearDates(t)[1..] == ClearDates(t[1..]);
      assert ClearDates(t)[0] == Undated(t[0]);
      RowsOfListClearDates(t[1..], lst);
      ClearDatesAppend(head, RowsOfList(t[1..], lst));
      assert RowsOfList(t, lst) == head + RowsOfList(t[1..], lst);
      assert ClearDates(head) == if Undated(t[0]).list == lst then [Undated(t[0])] else [];
    }
  }

  lemma ClearDatesAppend(a: seq<Record>, b: seq<Record>)
    ensures ClearDates(a + b) == ClearDates(a) + ClearDates(b)
  {
  }

  lemma {:induction false} IncompleteRowsClearDates(df: seq<Record>)
    ensures IncompleteRows(ClearDates(df)) == ClearDates(IncompleteRows(df))
  {
    if df != [] {
      var head: seq<Record> := if df[0].completed == 0 then [df[0]] else [];
      assert ClearDates(df)[1..] == ClearDates(df[1..]);
      assert ClearDates(df)[0] == Undated(df[0]);
      IncompleteRowsClearDates(df[1..]);
      ClearDatesAppend(head, IncompleteRows(df[1..]));
      assert IncompleteRows(df) == head + IncompleteRows(df[1..]);
      assert ClearDates(head) == if Undated(df[0]).completed == 0 then [Undated(df[0])] else [];
    }
  }

  lemma {:induction false} GetProbFromClearDates(t: seq<Record>, lists: seq<string>, pick: nat)
    ensures GetProbFrom(ClearDates(t), lists, pick) == GetProbFrom(t, lists, pick)
    decreases |lists|
  {
    if lists != [] {
      RowsOfListClearDates(t, lists[0]);
      var df := RowsOfList(t, lists[0]);
      IncompleteRowsClearDates(df);
      var c := IncompleteRows(df);
      var c' := IncompleteRows(ClearDates(df));
      assert |c'| == |c|;
      assert CountCompleted(ClearDates(df)) == CountCompleted(df);
      GetProbFromClearDates(t, lists[1..], pick);
    }
  }

  /** Clearing `Date Completed` changes no selection: every draw gives the same result. */
  lemma DatesDoNotAffectSelection(t: seq<Record>, pick: nat)
    ensures GetProb(ClearDates(t), pick) == GetProb(t, pick)
  {
    GetProbFromClearDates(t, PriorityOrder, pick);
  }

  /** The retry in `main`: once a selection failed, a selection after clearing only the dates
      fails too, whatever is drawn, so the `RuntimeError` is always raised. */
  lemma RetryAfterDateResetFails(t: seq<Record>, pick1: nat, pick2: nat)
    requires !GetProb(t, pick1).success
    ensures !GetProb(ClearDates(t), pick2).success
  {
    SelectionOutcome(t, pick1);
    SelectionOutcome(t, pick2);
    DatesDoNotAffectSelection(t, pick2);
  }

  /** After a full reset, selection succeeds as long as one of the three lists has a row. */
  lemma FullResetMakesSelectable(t: seq<Record>, pick: nat)
    requires exists i :: 0 <= i < |t| && t[i].list in PriorityOrder
    ensures GetProb(ResetAll(t), pick).success
  {
    var i :| 0 <= i < |t| && t[i].list in PriorityOrder;
    assert ResetAll(t)[i].completed == 0;
    SelectionOutcome(ResetAll(t), pick);
  }

  /** A table whose one problem is completed: the date-only reset leaves it unselectable,
      the full reset does not. */
  lemma DateResetCounterexample()
    ensures var t := [Record(1, "Two Sum", "Easy", "https://leetcode.com/problems/two-sum/", "Grind75",
                             Some("2024-06-01 10:00:00"), 1)];
      && !GetProb(t, 0).success
      && !GetProb(ClearDates(t), 0).success
      && GetProb(ResetAll(t), 0).success
  {
    var t := [Record(1, "Two Sum", "Easy", "https://leetcode.com/problems/two-sum/", "Grind75",
                     Some("2024-06-01 10:00:00"), 1)];
    SelectionOutcome(t, 0);
    RetryAfterDateResetFails(t, 0, 0);
    assert t[0].list in PriorityOrder;
    FullResetMakesSelectable(t, 0);
  }

  // ---------------------------------------------------------------------------
  // In-place updates of the table
  // ---------------------------------------------------------------------------

  /** `df.loc[df["Number"] == num, ...] = now, 1`. */
  method MarkRows(df: array<Record>, num: int, now: Timestamp)
    modifies df
    ensures df[..] == MarkDone(old(df[..]), num, now)
  {
    for i := 0 to df.Length
      invariant forall j :: 0 <= j < i ==> df[j] == if old(df[j]).number == num then Done(old(df[j]), now) else old(df[j])
      invariant forall j :: i <= j < df.Length ==> df[j] == old(df[j])
    {
      if df[i].number == num {
        df[i] := Done(df[i], now);
      }
    }
  }

  /** `df.loc[df["Number"] == num, ...] = "", 0`. */
  method UnmarkRows(df: array<Record>, num: int)
    modifies df
    ensures df[..] == Undo(old(df[..]), num)
  {
    for i := 0 to df.Length
      invariant forall j :: 0 <= j < i ==> df[j] == if old(df[j]).number == num then Undone(old(df[j])) else old(df[j])
      invariant forall j :: i <= j < df.Length ==> df[j] == old(df[j])
    {
      if df[i].number == num {
        df[i] := Undone(df[i]);
      }
    }
  }

  /** `df.loc[:, ...] = "", 0`. */
  method ResetProgress(df: array<Record>)
    modifies df
    ensures df[..] == ResetAll(old(df[..]))
  {
    for i := 0 to df.Length
      invariant forall j :: 0 <= j < i ==> df[j] == Undone(old(df[j]))
      invariant forall j :: i <= j < df.Length ==> df[j] == old(df[j])
    {
      df[i] := Undone(df[i]);
    }
  }

  /** `df["Date Completed"] = ""`. */
  method ClearDateColumn(df: array<Record>)
    modifies df
    ensures df[..] == ClearDates(old(df[..]))
  {
    for i := 0 to df.Length
      invariant forall j :: 0 <= j < i ==> df[j] == Undated(old(df[j]))
      invariant forall j :: i <= j < df.Length ==> df[j] == old(df[j])
    {
      df[i] := Undated(df[i]);
    }
  }

  /** `_handle_response(df, prob_num, response)`: `y`, `n` and `r` in either case are accepted;
      otherwise a digit string naming a problem undoes it; everything else is rejected with the
      table unchanged. `now` is the value of `pd.Timestamp.now()`. */
  method HandleResponse(df: array<Record>, probNum: int, response: string, now: Timestamp) returns (valid: bool)
    modifies df
    ensures valid <==> Lower(response) in {"y", "n", "r"} ||
                       (IsDigits(response) && HasNumber(old(df[..]), Value(response)))
    ensures Lower(response) == "y" ==> df[..] == MarkDone(old(df[..]), probNum, now)
    ensures Lower(response) == "r" ==> df[..] == ResetAll(old(df[..]))
    ensures IsDigits(response) && Lower(response) !in {"y", "n", "r"} ==>
              df[..] == Undo(old(df[..]), Value(response))
    ensures Lower(response) == "n" || !valid ==> df[..] == old(df[..])
  {
    var lowered := Lower(response);
    if lowered == "y" {
      MarkRows(df, probNum, now);
      return true;
    } else if lowered == "n" {
      return true;
    } else if lowered == "r" {
      ResetProgress(df);
      return true;
    } else if IsDigits(response) {
      var num := Value(response);
      if !HasNumber(df[..], num) {
        assert Undo(df[..], num) == df[..];
        return false;
      }
      UnmarkRows(df, num);
      return true;
    } else {
      return false;
    }
  }

  /** The response `str(n)` for a problem number `n` reaches the undo branch for `n`. */
  lemma NumberResponseUndoes(n: nat)
    ensures IsDigits(Show(n)) && Lower(Show(n)) !in {"y", "n", "r"} && Value(Show(n)) == n
  {
    ValueOfShow(n);
    LowerOfDigits(Show(n));
    assert !IsDigitChar('y') && !IsDigitChar('n') && !IsDigitChar('r');
    assert Show(n)[0] != 'y' && Show(n)[0] != 'n' && Show(n)[0] != 'r';
  }

  // ---------------------------------------------------------------------------
  // Selection with the fallback of `main`
  // ---------------------------------------------------------------------------

  /** `RuntimeError("No problems found")`. */
  datatype MainError = NoProblemsFound

  /** `main`'s selection step as written: on a failed selection only `Date Completed` is
      cleared before the retry, so the retry never succeeds and the error is raised exactly
      when every row of the three lists is completed. */
  method SelectProblem(df: array<Record>, pick1: nat, pick2: nat) returns (r: Result<Problem, MainError>)
    modifies df
    ensures r.Failure? <==> !HasIncomplete(old(df[..]))
    ensures r.Success? ==> r.value == GetProb(old(df[..]), pick1) && r.value.success && df[..] == old(df[..])
    ensures r.Failure? ==> df[..] == ClearDates(old(df[..]))
  {
    var prob := GetProb(df[..], pick1);
    SelectionOutcome(df[..], pick1);
    if !prob.success {
      RetryAfterDateResetFails(df[..], pick1, pick2);
      ClearDateColumn(df);
      prob := GetProb(df[..], pick2);
      if !prob.success {
        return Failure(NoProblemsFound);
      }
    }
    return Success(prob);
  }

  /** The selection step with the reset `main` evidently intends: clearing both `Date Completed`
      and `Completed` before the retry, so the error is raised only when none of the three lists
      has any row. */
  method SelectProblemWithFullReset(df: array<Record>, pick1: nat, pick2: nat) returns (r: Result<Problem, MainError>)
    modifies df
    ensures r.Failure? <==> !exists i :: 0 <= i < |old(df[..])| && old(df[..])[i].list in PriorityOrder
    ensures HasIncomplete(old(df[..])) ==>
              r == Success(GetProb(old(df[..]), pick1)) && df[..] == old(df[..])
    ensures !HasIncomplete(old(df[..])) ==>
              df[..] == ResetAll(old(df[..])) && (r.Success? ==> r.value == GetProb(df[..], pick2))
    ensures r.Success? ==> r.value.success
  {
    var prob := GetProb(df[..], pick1);
    SelectionOutcome(df[..], pick1);
    if !prob.success {
      ghost var before := df[..];
      ResetProgress(df);
      prob := GetProb(df[..], pick2);
      SelectionOutcome(df[..], pick2);
      if exists i :: 0 <= i < |before| && before[i].list in PriorityOrder {
        FullResetMakesSelectable(before, pick2);
      } else {
        assert !HasIncomplete(df[..]);
      }
      if !prob.success {
        return Failure(NoProblemsFound);
      }
    }
    return Success(prob);
  }
}
