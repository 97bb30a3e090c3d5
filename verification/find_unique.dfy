/**
 * The offline step that builds the problem table from the workbook of curated
 * lists: each sheet is read into rows (difficulty and link normalised, list set
 * to the sheet name), every problem number is kept only in the first sheet that
 * has it, two completion columns are added, and the sheets are concatenated.
 *
 * An ordered dictionary keyed by sheet name is a sequence of sheets in insertion
 * order. The regular expressions that split a cell are not modelled: their
 * capture groups are the inputs (`Captures`, `ProblemLink`), with the shapes the
 * patterns guarantee. Problem numbers stay strings here, as the captures are.
 */
module FindUnique {
  import opened Wrappers

  /** The hyperlink pattern up to its unescaped `.`, which matches any character but a newline. */
  const LinkHead: string := "https://leetcode"
  /** The hyperlink pattern after its unescaped `.`. */
  const LinkTail: string := "com/problems/"

  /** `s` starts with what the hyperlink pattern requires before the slug. */
  predicate HasLinkPrefix(s: string) {
    |s| >= |LinkHead| + 1 + |LinkTail| &&
    s[..|LinkHead|] == LinkHead && s[|LinkHead|] != '\n' &&
    s[|LinkHead| + 1..|LinkHead| + 1 + |LinkTail|] == LinkTail
  }

  /** Group 3 of the cell pattern: one of its three alternatives. */
  type DifficultyTag = s: string | s == "Easy" || s == "Med." || s == "Hard" witness "Easy"

  /** A match of group 1 of the hyperlink pattern: the pattern's prefix followed by a non-empty
      slug. */
  predicate IsProblemLink(s: string) {
    HasLinkPrefix(s) && |s| > |LinkHead| + 1 + |LinkTail|
  }

  type ProblemLink = s: string | IsProblemLink(s)
    witness "https://leetcode.com/problems/two-sum"

  /** The three capture groups of a problem cell: number, name, difficulty. */
  datatype Captures = Captures(number: string, name: string, difficulty: DifficultyTag)

  /** A cell of the first column, from the second row on. A filled cell carries what the two
      patterns make of its text and of its hyperlink (`None` where a pattern does not match or
      there is no hyperlink). */
  datatype Cell = Blank | Filled(text: string, captures: Option<Captures>, link: Option<ProblemLink>)

  datatype Worksheet = Worksheet(title: string, cells: seq<Cell>)

  /** The `RuntimeError` of an unparsed cell, and the failure of `.group` on a link that does
      not match. */
  datatype ParseError = NotParsed(text: string) | NoProblemLink(text: string)

  /** One row of a sheet's DataFrame. */
  datatype Row = Row(number: string, name: string, difficulty: string, link: string, list: string)

  datatype Sheet = Sheet(name: string, rows: seq<Row>)

  /** A row with the two inserted columns `Date Completed` and `Completed`. */
  datatype UniqueRow = UniqueRow(row: Row, dateCompleted: string, completed: int)

  datatype UniqueSheet = UniqueSheet(name: string, rows: seq<UniqueRow>)

  // ---------------------------------------------------------------------------
  // Reading the workbook (`_get_problem_lists`)
  // ---------------------------------------------------------------------------

  /** `Med.` is spelled out; the other two tags are kept. */
  function NormaliseDifficulty(tag: DifficultyTag): (d: string)
    ensures d == "Easy" || d == "Medium" || d == "Hard"
    ensures d == "Medium" <==> tag == "Med."
    ensures tag != "Med." ==> d == tag
  {
    if tag == "Med." then "Medium" else tag
  }

  /** Where reading stops: the first blank cell, or the end of the column. */
  function FirstBlank(cells: seq<Cell>): (n: nat)
    ensures n <= |cells|
    ensures forall i :: 0 <= i < n ==> cells[i].Filled?
    ensures n < |cells| ==> cells[n].Blank?
  {
    if cells == [] || cells[0].Blank? then 0 else 1 + FirstBlank(cells[1..])
  }

  predicate Parsable(c: Cell) {
    c.Filled? && c.captures.Some? && c.link.Some?
  }

  function ErrorOf(c: Cell): ParseError
    requires c.Filled? && !Parsable(c)
  {
    if c.captures.None? then NotParsed(c.text) else NoProblemLink(c.text)
  }

  /** The row a parsable cell of sheet `sheet` becomes. */
  function RowOf(sheet: string, c: Cell): (r: Row)
    requires Parsable(c)
    ensures r.difficulty == NormaliseDifficulty(c.captures.value.difficulty)
    ensures r.difficulty == "Easy" || r.difficulty == "Medium" || r.difficulty == "Hard"
    ensures r.link == c.link.value + "/" && r.list == sheet
    ensures r.number == c.captures.value.number && r.name == c.captures.value.name
  {
    var m := c.captures.value;
    Row(m.number, m.name, NormaliseDifficulty(m.difficulty), c.link.value + "/", sheet)
  }

  /** `rows` is what worksheet `ws` reads as: one row per cell before the first blank. */
  ghost predicate ReadsAs(ws: Worksheet, rows: seq<Row>) {
    |rows| == FirstBlank(ws.cells) &&
    forall i :: 0 <= i < |rows| ==> Parsable(ws.cells[i]) && rows[i] == RowOf(ws.title, ws.cells[i])
  }

  /** Every cell before the first blank can be parsed. */
  ghost predicate Readable(ws: Worksheet) {
    forall i :: 0 <= i < FirstBlank(ws.cells) ==> Parsable(ws.cells[i])
  }

  /** Reading `ws` stops with error `e`: the first unparsable cell before the first blank. */
  ghost predicate FailsWith(ws: Worksheet, e: ParseError) {
    exists i :: 0 <= i < FirstBlank(ws.cells) && !Parsable(ws.cells[i]) && e == ErrorOf(ws.cells[i]) &&
      forall j :: 0 <= j < i ==> Parsable(ws.cells[j])
  }

  /** Every row read from a sheet has a normalised difficulty, a link that is a match of the
      hyperlink pattern followed by `/`, and the sheet's name as its list. */
  lemma ReadRowsAreNormalised(ws: Worksheet, rows: seq<Row>)
    requires ReadsAs(ws, rows)
    ensures forall r :: r in rows ==>
      && (r.difficulty == "Easy" || r.difficulty == "Medium" || r.difficulty == "Hard")
      && |r.link| > 0 && r.link[|r.link| - 1] == '/' && IsProblemLink(r.link[..|r.link| - 1])
      && r.list == ws.title
  {
    forall r | r in rows
      ensures |r.link| > 0 && r.link[|r.link| - 1] == '/' && IsProblemLink(r.link[..|r.link| - 1])
    {
      var i :| 0 <= i < |rows| && rows[i] == r;
      var l := ws.cells[i].link.value;
      assert r.link == l + "/";
      assert r.link[..|r.link| - 1] == l;
    }
  }

  /** The inner loop of `_get_problem_lists`: the rows of one sheet. */
  method ReadSheet(ws: Worksheet) returns (r: Result<seq<Row>, ParseError>)
    ensures r.Success? ==> ReadsAs(ws, r.value)
    ensures r.Failure? ==> FailsWith(ws, r.error)
  {
    var rows: seq<Row> := [];
    var i := 0;
    while i < |ws.cells|
      invariant i <= FirstBlank(ws.cells)
      invariant |rows| == i
      invariant forall j :: 0 <= j < i ==> Parsable(ws.cells[j]) && rows[j] == RowOf(ws.title, ws.cells[j])
    {
      var cell := ws.cells[i];
      if cell.Blank? {
        break;
      }
      assert i < FirstBlank(ws.cells);
      if cell.captures.None? {
        r := Failure(NotParsed(cell.text));
        assert !Parsable(cell) && r.error == ErrorOf(cell);
        return;
      }
      var m := cell.captures.value;
      var diff := NormaliseDifficulty(m.difficulty);
      if cell.link.None? {
        r := Failure(NoProblemLink(cell.text));
        assert !Parsable(cell) && r.error == ErrorOf(cell);
        return;
      }
      var link := cell.link.value;
      var row := Row(m.number, m.name, diff, link + "/", ws.title);
      assert row == RowOf(ws.title, cell);
      rows := rows + [row];
      i := i + 1;
    }
    assert i == FirstBlank(ws.cells);
    return Success(rows);
  }

  /** `_get_problem_lists`: every sheet read in workbook order, or the first error met. */
  method GetProblemLists(workbook: seq<Worksheet>) returns (r: Result<seq<Sheet>, ParseError>)
    ensures r.Success? ==>
      |r.value| == |workbook| &&
      forall k :: 0 <= k < |workbook| ==> r.value[k].name == workbook[k].title && ReadsAs(workbook[k], r.value[k].rows)
    ensures r.Failure? ==>
      exists k :: 0 <= k < |workbook| && FailsWith(workbook[k], r.error) &&
        forall j :: 0 <= j < k ==> Readable(workbook[j])
  {
    var probLists: seq<Sheet> := [];
    var k := 0;
    while k < |workbook|
      invariant k <= |workbook|
      invariant |probLists| == k
      invariant forall j :: 0 <= j < k ==>
        probLists[j].name == workbook[j].title && ReadsAs(workbook[j], probLists[j].rows)
    {
      var data := ReadSheet(workbook[k]);
      if data.Failure? {
        assert forall j :: 0 <= j < k ==> Readable(workbook[j]);
        return Failure(data.error);
      }
      probLists := probLists + [Sheet(workbook[k].title, data.value)];
      k := k + 1;
    }
    return Success(probLists);
  }

  // ---------------------------------------------------------------------------
  // Keeping each number in its first sheet (`_get_unique_problems`)
  // ---------------------------------------------------------------------------

  /** `set(df.Number)`. */
  function Numbers(rows: seq<Row>): set<string> {
    set r | r in rows :: r.number
  }

  /** The numbers of the sheets before sheet `k`. */
  function NumbersBefore(sheets: seq<Sheet>, k: nat): set<string>
    requires k <= |sheets|
  {
    if k == 0 then {} else NumbersBefore(sheets, k - 1) + Numbers(sheets[k - 1].rows)
  }

  /** `df[df.Number.isin(keep)]`: the rows whose number is in `keep`, in their order. */
  function KeepIn(rows: seq<Row>, keep: set<string>): (kept: seq<Row>)
    ensures forall r :: r in kept <==> r in rows && r.number in keep
    ensures IsSubsequence(kept, rows)
  {
    if rows == [] then []
    else
      assert rows == [rows[0]] + rows[1..];
      if rows[0].number in keep then [rows[0]] + KeepIn(rows[1..], keep) else KeepIn(rows[1..], keep)
  }

  /** The filter keeps every occurrence of a row whose number is kept and none of the others. */
  lemma {:induction false} KeepInCounts(rows: seq<Row>, keep: set<string>)
    ensures forall r :: multiset(KeepIn(rows, keep))[r] == if r.number in keep then multiset(rows)[r] else 0
  {
    if rows != [] {
      KeepInCounts(rows[1..], keep);
      assert rows == [rows[0]] + rows[1..];
    }
  }

  /** `a` is `b` with some rows left out, the rest in their order. */
  predicate IsSubsequence(a: seq<Row>, b: seq<Row>) {
    if a == [] then true
    else if b == [] then false
    else if a[0] == b[0] then IsSubsequence(a[1..], b[1..])
    else IsSubsequence(a, b[1..])
  }

  /** The two inserted columns: `Date Completed = ""`, `Completed = 0`. */
  function WithCompletionColumns(rows: seq<Row>): (u: seq<UniqueRow>)
    ensures |u| == |rows|
  {
    seq(|rows|, i requires 0 <= i < |rows| => UniqueRow(rows[i], "", 0))
  }

  /** Every row gains the two columns with their initial values. */
  lemma WithColumnsHasRows(rows: seq<Row>)
    ensures forall r :: r in rows ==> UniqueRow(r, "", 0) in WithCompletionColumns(rows)
  {
    forall r | r in rows
      ensures UniqueRow(r, "", 0) in WithCompletionColumns(rows)
    {
      var i :| 0 <= i < |rows| && rows[i] == r;
      assert WithCompletionColumns(rows)[i] == UniqueRow(r, "", 0);
    }
  }

  /** The rows of a sheet without the two inserted columns. */
  function Strip(u: seq<UniqueRow>): (rows: seq<Row>)
    ensures |rows| == |u|
  {
    seq(|u|, i requires 0 <= i < |u| => u[i].row)
  }

  function UniqueNumbers(u: UniqueSheet): set<string> {
    set x | x in u.rows :: x.row.number
  }

  /** The numbers sheet `k` keeps: `set(df.Number) - set(problems)`. */
  function KeptNumbers(sheets: seq<Sheet>, k: nat): set<string>
    requires k < |sheets|
  {
    Numbers(sheets[k].rows) - NumbersBefore(sheets, k)
  }

  /** Sheet `k` of the result. */
  function UniqueSheetOf(sheets: seq<Sheet>, k: nat): (u: UniqueSheet)
    requires k < |sheets|
    ensures u.name == sheets[k].name
    ensures forall x :: x in u.rows ==>
      x.row in sheets[k].rows && x.row.number in KeptNumbers(sheets, k) && x.dateCompleted == "" && x.completed == 0
  {
    UniqueSheet(sheets[k].name, WithCompletionColumns(KeepIn(sheets[k].rows, KeptNumbers(sheets, k))))
  }

  /** Every row of sheet `k` whose number no earlier sheet has is in sheet `k` of the result,
      with the two columns at their initial values. */
  lemma UniqueSheetKeepsFirstSeenRows(sheets: seq<Sheet>, k: nat)
    requires k < |sheets|
    ensures forall r :: r in sheets[k].rows && r.number in KeptNumbers(sheets, k) ==>
      UniqueRow(r, "", 0) in UniqueSheetOf(sheets, k).rows
  {
    var kept := KeepIn(sheets[k].rows, KeptNumbers(sheets, k));
    WithColumnsHasRows(kept);
  }

  /** A number is in the numbers before sheet `k` exactly when one of those sheets has it. */
  lemma {:induction false} InNumbersBefore(sheets: seq<Sheet>, k: nat, n: string)
    requires k <= |sheets|
    ensures n in NumbersBefore(sheets, k) <==> exists j :: 0 <= j < k && n in Numbers(sheets[j].rows)
  {
    if k > 0 {
      InNumbersBefore(sheets, k - 1, n);
    }
  }

  /** The numbers of sheet `k` of the result are the numbers it keeps. */
  lemma UniqueNumbersOf(sheets: seq<Sheet>, k: nat)
    requires k < |sheets|
    ensures UniqueNumbers(UniqueSheetOf(sheets, k)) == KeptNumbers(sheets, k)
  {
    var u := UniqueSheetOf(sheets, k);
    var kept := KeepIn(sheets[k].rows, KeptNumbers(sheets, k));
    forall n | n in KeptNumbers(sheets, k)
      ensures n in UniqueNumbers(u)
    {
      var r :| r in sheets[k].rows && r.number == n;
      assert r in kept;
      var i :| 0 <= i < |kept| && kept[i] == r;
      assert u.rows[i] in u.rows;
    }
    forall n | n in UniqueNumbers(u)
      ensures n in KeptNumbers(sheets, k)
    {
      var x :| x in u.rows && x.row.number == n;
      var i :| 0 <= i < |u.rows| && u.rows[i] == x;
      assert kept[i] in kept;
    }
  }

  /** A problem number lands in sheet `k` of the result exactly when sheet `k` has it and no
      earlier sheet does: every number goes to the first sheet that lists it. */
  lemma EarliestSheetKeepsNumber(sheets: seq<Sheet>, k: nat, n: string)
    requires k < |sheets|
    ensures n in UniqueNumbers(UniqueSheetOf(sheets, k)) <==>
      n in Numbers(sheets[k].rows) && forall j :: 0 <= j < k ==> n !in Numbers(sheets[j].rows)
  {
    UniqueNumbersOf(sheets, k);
    InNumbersBefore(sheets, k, n);
  }

  /** No number appears in two sheets of the result. */
  lemma SheetsAreDisjoint(sheets: seq<Sheet>, j: nat, k: nat)
    requires j < k < |sheets|
    ensures UniqueNumbers(UniqueSheetOf(sheets, j)) !! UniqueNumbers(UniqueSheetOf(sheets, k))
  {
    forall n | n in UniqueNumbers(UniqueSheetOf(sheets, j))
      ensures n !in UniqueNumbers(UniqueSheetOf(sheets, k))
    {
      EarliestSheetKeepsNumber(sheets, j, n);
      EarliestSheetKeepsNumber(sheets, k, n);
    }
  }

  lemma {:induction false} KeepInAll(rows: seq<Row>, keep: set<string>)
    requires Numbers(rows) <= keep
    ensures KeepIn(rows, keep) == rows
  {
    if rows != [] {
      assert rows[0] in rows;
      assert Numbers(rows[1..]) <= Numbers(rows) by {
        forall n | n in Numbers(rows[1..])
          ensures n in Numbers(rows)
        {
          var r :| r in rows[1..] && r.number == n;
          assert r in rows;
        }
      }
      KeepInAll(rows[1..], keep);
      assert rows == [rows[0]] + rows[1..];
    }
  }

  /** The first sheet keeps every row it has. */
  lemma FirstSheetKeepsAll(sheets: seq<Sheet>)
    requires |sheets| > 0
    ensures Strip(UniqueSheetOf(sheets, 0).rows) == sheets[0].rows
  {
    KeepInAll(sheets[0].rows, KeptNumbers(sheets, 0));
  }

  /** Each sheet of the result is its input sheet with rows left out, the rest in their
      original order. */
  lemma KeptRowsInOrder(sheets: seq<Sheet>, k: nat)
    requires k < |sheets|
    ensures IsSubsequence(Strip(UniqueSheetOf(sheets, k).rows), sheets[k].rows)
  {
    var kept := KeepIn(sheets[k].rows, KeptNumbers(sheets, k));
    assert Strip(WithCompletionColumns(kept)) == kept;
  }

  /** A number some sheet has is first listed by some sheet at or before it. */
  lemma {:induction false} FirstSheetWith(sheets: seq<Sheet>, k: nat, n: string)
    requires k < |sheets| && n in Numbers(sheets[k].rows)
    ensures exists j :: 0 <= j <= k && n in Numbers(sheets[j].rows) &&
                        forall i :: 0 <= i < j ==> n !in Numbers(sheets[i].rows)
    decreases k
  {
    if exists i :: 0 <= i < k && n in Numbers(sheets[i].rows) {
      var i :| 0 <= i < k && n in Numbers(sheets[i].rows);
      FirstSheetWith(sheets, i, n);
    } else {
      assert forall i :: 0 <= i < k ==> n !in Numbers(sheets[i].rows);
    }
  }

  /** No number is lost and none is invented: a number is in some sheet of the result exactly
      when it is in some input sheet. */
  lemma NoNumberLost(sheets: seq<Sheet>, n: string)
    ensures (exists k :: 0 <= k < |sheets| && n in UniqueNumbers(UniqueSheetOf(sheets, k))) <==>
            (exists k :: 0 <= k < |sheets| && n in Numbers(sheets[k].rows))
  {
    if exists k :: 0 <= k < |sheets| && n in UniqueNumbers(UniqueSheetOf(sheets, k)) {
      var k :| 0 <= k < |sheets| && n in UniqueNumbers(UniqueSheetOf(sheets, k));
      EarliestSheetKeepsNumber(sheets, k, n);
    }
    if exists k :: 0 <= k < |sheets| && n in Numbers(sheets[k].rows) {
      var k :| 0 <= k < |sheets| && n in Numbers(sheets[k].rows);
      FirstSheetWith(sheets, k, n);
      var j :| 0 <= j <= k && n in Numbers(sheets[j].rows) &&
               forall i :: 0 <= i < j ==> n !in Numbers(sheets[i].rows);
      EarliestSheetKeepsNumber(sheets, j, n);
    }
  }

  /** `_get_unique_problems`: each sheet, in order, keeps the rows whose number no earlier
      sheet has, and gains the two completion columns. */
  method GetUniqueProblems(probLists: seq<Sheet>) returns (out: seq<UniqueSheet>)
    ensures |out| == |probLists|
    ensures forall k :: 0 <= k < |probLists| ==> out[k] == UniqueSheetOf(probLists, k)
    ensures forall j, k :: 0 <= j < k < |out| ==> UniqueNumbers(out[j]) !! UniqueNumbers(out[k])
    ensures forall k, u :: 0 <= k < |out| && u in out[k].rows ==> u.dateCompleted == "" && u.completed == 0
  {
    var problems: set<string> := {};
    out := [];
    var i := 0;
    while i < |probLists|
      invariant i <= |probLists|
      invariant problems == NumbersBefore(probLists, i)
      invariant |out| == i
      invariant forall k :: 0 <= k < i ==> out[k] == UniqueSheetOf(probLists, k)
    {
      var df := probLists[i];
      var probs := Numbers(df.rows);
      var uniqueProbs := probs - problems;
      problems := problems + uniqueProbs;
      var kept := KeepIn(df.rows, uniqueProbs);
      assert uniqueProbs == KeptNumbers(probLists, i);
      ghost var prev := out;
      out := out + [UniqueSheet(df.name, WithCompletionColumns(kept))];
      assert out[i] == UniqueSheetOf(probLists, i);
      assert out[..i] == prev;
      i := i + 1;
    }
    forall j, k | 0 <= j < k < |out|
      ensures UniqueNumbers(out[j]) !! UniqueNumbers(out[k])
    {
      SheetsAreDisjoint(probLists, j, k);
    }
  }

  // ---------------------------------------------------------------------------
  // Concatenating the sheets (`_create_unique_csv`)
  // ---------------------------------------------------------------------------

  /** The number of rows of the sheets in `sheets`. */
  function TotalRows(sheets: seq<UniqueSheet>): nat {
    if sheets == [] then 0 else TotalRows(sheets[..|sheets| - 1]) + |sheets[|sheets| - 1].rows|
  }

  /** `pd.concat(sheets, ignore_index=True)`: the rows of the sheets one after the other. */
  function Concat(sheets: seq<UniqueSheet>): (rows: seq<UniqueRow>)
    ensures |rows| == TotalRows(sheets)
  {
    if sheets == [] then [] else Concat(sheets[..|sheets| - 1]) + sheets[|sheets| - 1].rows
  }

  /** The concatenation of the first `m` sheets begins the concatenation of all of them. */
  lemma {:induction false} ConcatPrefix(sheets: seq<UniqueSheet>, m: nat)
    requires m <= |sheets|
    ensures |Concat(sheets[..m])| <= |Concat(sheets)|
    ensures Concat(sheets)[..|Concat(sheets[..m])|] == Concat(sheets[..m])
    decreases |sheets|
  {
    if m == |sheets| {
      assert sheets[..m] == sheets;
    } else {
      var init := sheets[..|sheets| - 1];
      assert init[..m] == sheets[..m];
      ConcatPrefix(init, m);
    }
  }

  /** Sheet `k`'s rows sit in the concatenation right after the rows of the sheets before it. */
  lemma ConcatPlacesSheet(sheets: seq<UniqueSheet>, k: nat)
    requires k < |sheets|
    ensures var start := TotalRows(sheets[..k]);
      start + |sheets[k].rows| <= TotalRows(sheets) &&
      Concat(sheets)[start..start + |sheets[k].rows|] == sheets[k].rows
  {
    assert sheets[..k + 1][..k] == sheets[..k];
    ConcatPrefix(sheets, k + 1);
    var start := TotalRows(sheets[..k]);
    var whole := Concat(sheets);
    var upTo := Concat(sheets[..k + 1]);
    assert upTo == Concat(sheets[..k]) + sheets[k].rows;
    assert whole[start..start + |sheets[k].rows|] == upTo[start..start + |sheets[k].rows|];
  }

  /** A row is in the concatenation exactly when it is in one of the sheets. */
  lemma {:induction false} InConcat(sheets: seq<UniqueSheet>, u: UniqueRow)
    ensures u in Concat(sheets) <==> exists k :: 0 <= k < |sheets| && u in sheets[k].rows
  {
    if sheets != [] {
      var init := sheets[..|sheets| - 1];
      InConcat(init, u);
      if exists k :: 0 <= k < |sheets| && u in sheets[k].rows {
        var k :| 0 <= k < |sheets| && u in sheets[k].rows;
        if k < |init| {
          assert init[k] == sheets[k];
        }
      }
      if exists k :: 0 <= k < |init| && u in init[k].rows {
        var k :| 0 <= k < |init| && u in init[k].rows;
        assert sheets[k] == init[k];
      }
    }
  }

  /** `ValueError("No objects to concatenate")`, raised by `pd.concat` on an empty list. */
  datatype ConcatError = NoObjectsToConcatenate

  /** `_create_unique_csv` before the write: the sheets in insertion order, concatenated; an
      empty dictionary leaves nothing to concatenate, which is an error. */
  method CreateUniqueTable(probLists: seq<UniqueSheet>) returns (r: Result<seq<UniqueRow>, ConcatError>)
    ensures r.Failure? <==> probLists == []
    ensures r.Success? ==> |r.value| == TotalRows(probLists)
    ensures r.Success? ==> forall k :: 0 <= k < |probLists| ==>
      var start := TotalRows(probLists[..k]);
      start + |probLists[k].rows| <= |r.value| && r.value[start..start + |probLists[k].rows|] == probLists[k].rows
    ensures r.Success? ==> forall u :: u in r.value <==> exists k :: 0 <= k < |probLists| && u in probLists[k].rows
  {
    if probLists == [] {
      return Failure(NoObjectsToConcatenate);
    }
    var out: seq<UniqueRow> := [];
    var k := 0;
    while k < |probLists|
      invariant k <= |probLists|
      invariant out == Concat(probLists[..k])
    {
      assert probLists[..k + 1][..k] == probLists[..k];
      out := out + probLists[k].rows;
      k := k + 1;
    }
    assert probLists[..k] == probLists;
    forall k | 0 <= k < |probLists|
      ensures var start := TotalRows(probLists[..k]);
        start + |probLists[k].rows| <= |out| && out[start..start + |probLists[k].rows|] == probLists[k].rows
    {
      ConcatPlacesSheet(probLists, k);
    }
    forall u
      ensures u in out <==> exists k :: 0 <= k < |probLists| && u in probLists[k].rows
    {
      InConcat(probLists, u);
    }
    return Success(out);
  }
}
