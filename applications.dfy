/**
  The tracker's row filter (`get_applications`): the rows fetched from the
  sheet, read from row 16 on, become applications; rows with an empty first
  cell are skipped, missing columns are read as "", and the optional
  "applied only" and status filters decide which applications are returned.
  The fetch itself is not modelled: the rows are an input.
*/
module Applications {
  import opened Text
  import opened Status

  /** The sheet row of the first fetched row (`DATA_START_ROW`). */
  const DataStartRow: nat := 16

  /** Columns A to G: company, position, date applied, referral source, status, details, portal. */
  const Columns: nat := 7

  datatype Application = Application(
    row: nat,
    company: string,
    position: string,
    dateApplied: string,
    referralSource: string,
    status: string,
    details: string,
    portal: string)

  /** `row[k] if len(row) > k else ''`. */
  function Cell(row: seq<string>, k: nat): string
  {
    if k < |row| then row[k] else ""
  }

  /** The application built from sheet row `n` with cells `row`. */
  function ToApplication(n: nat, row: seq<string>): Application
  {
    Application(n, Cell(row, 0), Cell(row, 1), Cell(row, 2), Cell(row, 3), Cell(row, 4), Cell(row, 5), Cell(row, 6))
  }

  /** The seven cells of an application, in column order. */
  function Fields(app: Application): seq<string>
  {
    [app.company, app.position, app.dateApplied, app.referralSource, app.status, app.details, app.portal]
  }

  /** The row cut or padded with empty cells to exactly seven columns. */
  function Padded(row: seq<string>): (r: seq<string>)
    ensures |r| == Columns
  {
    if |row| >= Columns then row[..Columns] else row + seq(Columns - |row|, _ => "")
  }

  /** An empty row, or one whose first cell is empty, is not an application. */
  predicate Skipped(row: seq<string>)
  {
    row == [] || row[0] == ""
  }

  /**
    The two optional filters: with `appliedOnly` the status must count as
    applied, and a non-empty `statusFilter` must equal the status once both
    are lower-cased and stripped. An absent filter is the empty string,
    which Python treats as false just like `None`.
  */
  predicate Keeps(app: Application, statusFilter: string, appliedOnly: bool)
  {
    && (appliedOnly ==> IsApplied(app.status))
    && (statusFilter != [] ==> Normalize(app.status) == Normalize(statusFilter))
  }

  /** The applications the filter returns for `rows`, in sheet order. */
  function Listed(rows: seq<seq<string>>, statusFilter: string, appliedOnly: bool): (apps: seq<Application>)
    ensures |apps| <= |rows|
    decreases |rows|
  {
    if rows == [] then []
    else
      var i := |rows| - 1;
      var previous := Listed(rows[..i], statusFilter, appliedOnly);
      var app := ToApplication(DataStartRow + i, rows[i]);
      if !Skipped(rows[i]) && Keeps(app, statusFilter, appliedOnly) then previous + [app] else previous
  }

  /** The loop of `get_applications`, over rows already fetched. */
  method GetApplications(rows: seq<seq<string>>, statusFilter: string, appliedOnly: bool) returns (apps: seq<Application>)
    ensures apps == Listed(rows, statusFilter, appliedOnly)
  {
    apps := [];
    for i := 0 to |rows|
      invariant apps == Listed(rows[..i], statusFilter, appliedOnly)
    {
      ListedStep(rows, i, statusFilter, appliedOnly);
      IncludedByTests(rows, i, statusFilter, appliedOnly);
      var row := rows[i];
      if row == [] || row[0] == "" {
        continue;
      }
      var app := ToApplication(DataStartRow + i, row);
      if appliedOnly && !IsApplied(app.status) {
        continue;
      }
      if statusFilter != "" {
        if Normalize(app.status) == Normalize(statusFilter) {
          apps := apps + [app];
        }
      } else {
        apps := apps + [app];
      }
    }
    assert rows[..|rows|] == rows;
  }

  /** One more row extends the answer by that row's application when it passes the filter. */
  lemma ListedStep(rows: seq<seq<string>>, i: nat, statusFilter: string, appliedOnly: bool)
    requires i < |rows|
    ensures Listed(rows[..i + 1], statusFilter, appliedOnly) ==
      Listed(rows[..i], statusFilter, appliedOnly)
      + (if Included(rows, i, statusFilter, appliedOnly) then [ToApplication(DataStartRow + i, rows[i])] else [])
  {
    assert rows[..i + 1][..i] == rows[..i];
  }

  /** The filter's tests on row `i`, in the order the loop makes them. */
  lemma IncludedByTests(rows: seq<seq<string>>, i: nat, statusFilter: string, appliedOnly: bool)
    requires i < |rows|
    ensures var app := ToApplication(DataStartRow + i, rows[i]);
      Included(rows, i, statusFilter, appliedOnly) <==>
        && !(rows[i] == [] || rows[i][0] == "")
        && !(appliedOnly && !IsApplied(app.status))
        && (statusFilter != "" ==> Normalize(app.status) == Normalize(statusFilter))
  {
  }

  /** Every application carries its sheet row number and its cells padded to seven columns. */
  lemma ApplicationIsPaddedRow(n: nat, row: seq<string>)
    ensures ToApplication(n, row).row == n
    ensures Fields(ToApplication(n, row)) == Padded(row)
  {
    var f := Fields(ToApplication(n, row));
    forall k | 0 <= k < Columns
      ensures f[k] == Padded(row)[k]
    {
    }
  }

  /** Row `i` of the input passes the filter. */
  predicate Included(rows: seq<seq<string>>, i: int, statusFilter: string, appliedOnly: bool)
    requires 0 <= i < |rows|
  {
    !Skipped(rows[i]) && Keeps(ToApplication(DataStartRow + i, rows[i]), statusFilter, appliedOnly)
  }

  /** `app` is built from some input row that passes the filter. */
  predicate FromIncludedRow(rows: seq<seq<string>>, statusFilter: string, appliedOnly: bool, app: Application)
  {
    exists i :: 0 <= i < |rows| && Included(rows, i, statusFilter, appliedOnly) && app == ToApplication(DataStartRow + i, rows[i])
  }

  /**
    An application is returned exactly when it is built from an input row
    that is not skipped and passes both filters, numbered 16 plus its index.
  */
  lemma ListedIff(rows: seq<seq<string>>, statusFilter: string, appliedOnly: bool, app: Application)
    ensures app in Listed(rows, statusFilter, appliedOnly) <==> FromIncludedRow(rows, statusFilter, appliedOnly, app)
  {
    if app in Listed(rows, statusFilter, appliedOnly) {
      ListedComeFromRows(rows, statusFilter, appliedOnly, app);
    }
    if FromIncludedRow(rows, statusFilter, appliedOnly, app) {
      var i :| 0 <= i < |rows| && Included(rows, i, statusFilter, appliedOnly) && app == ToApplication(DataStartRow + i, rows[i]);
      IncludedRowsListed(rows, statusFilter, appliedOnly, i);
    }
  }

  lemma {:induction false} ListedComeFromRows(rows: seq<seq<string>>, statusFilter: string, appliedOnly: bool, app: Application)
    requires app in Listed(rows, statusFilter, appliedOnly)
    ensures FromIncludedRow(rows, statusFilter, appliedOnly, app)
    decreases |rows|
  {
    var n := |rows| - 1;
    var front := rows[..n];
    ListedStep(rows, n, statusFilter, appliedOnly);
    assert rows[..n + 1] == rows;
    if app in Listed(front, statusFilter, appliedOnly) {
      ListedComeFromRows(front, statusFilter, appliedOnly, app);
      var i :| 0 <= i < n && Included(front, i, statusFilter, appliedOnly) && app == ToApplication(DataStartRow + i, front[i]);
      IncludedInPrefix(rows, n, i, statusFilter, appliedOnly);
    } else {
      assert Included(rows, n, statusFilter, appliedOnly) && app == ToApplication(DataStartRow + n, rows[n]);
    }
  }

  lemma {:induction false} IncludedRowsListed(rows: seq<seq<string>>, statusFilter: string, appliedOnly: bool, i: nat)
    requires i < |rows| && Included(rows, i, statusFilter, appliedOnly)
    ensures ToApplication(DataStartRow + i, rows[i]) in Listed(rows, statusFilter, appliedOnly)
    decreases |rows|
  {
    var n := |rows| - 1;
    ListedStep(rows, n, statusFilter, appliedOnly);
    assert rows[..n + 1] == rows;
    if i < n {
      IncludedInPrefix(rows, n, i, statusFilter, appliedOnly);
      IncludedRowsListed(rows[..n], statusFilter, appliedOnly, i);
    }
  }

  /** Whether a row passes does not depend on the rows after it. */
  lemma IncludedInPrefix(rows: seq<seq<string>>, n: nat, i: nat, statusFilter: string, appliedOnly: bool)
    requires i < n <= |rows|
    ensures rows[..n][i] == rows[i]
    ensures Included(rows[..n], i, statusFilter, appliedOnly) == Included(rows, i, statusFilter, appliedOnly)
  {
  }

  /**
    Every returned application passes both filters, has a company, and
    comes from one of the fetched rows.
  */
  lemma {:induction false} ListedPassFilters(rows: seq<seq<string>>, statusFilter: string, appliedOnly: bool)
    ensures forall a :: a in Listed(rows, statusFilter, appliedOnly) ==>
      && Keeps(a, statusFilter, appliedOnly)
      && a.company != ""
      && DataStartRow <= a.row < DataStartRow + |rows|
    decreases |rows|
  {
    if rows != [] {
      ListedPassFilters(rows[..|rows| - 1], statusFilter, appliedOnly);
    }
  }

  /** Applications come out in increasing row order, so the output keeps the sheet's order. */
  lemma {:induction false} ListedInRowOrder(rows: seq<seq<string>>, statusFilter: string, appliedOnly: bool)
    ensures var apps := Listed(rows, statusFilter, appliedOnly);
      forall a, b :: 0 <= a < b < |apps| ==> apps[a].row < apps[b].row
    decreases |rows|
  {
    if rows != [] {
      var n := |rows| - 1;
      ListedInRowOrder(rows[..n], statusFilter, appliedOnly);
      ListedPassFilters(rows[..n], statusFilter, appliedOnly);
      ListedStep(rows, n, statusFilter, appliedOnly);
      assert rows[..n + 1] == rows;
      var previous := Listed(rows[..n], statusFilter, appliedOnly);
      forall a | 0 <= a < |previous|
        ensures previous[a].row < DataStartRow + n
      {
        assert previous[a] in previous;
      }
    }
  }

  /** The applications among `apps` whose status counts as applied, in order. */
  function AppliedOf(apps: seq<Application>): (r: seq<Application>)
    ensures |r| <= |apps|
    ensures forall a :: a in r ==> IsApplied(a.status)
    decreases |apps|
  {
    if apps == [] then []
    else
      var last := apps[|apps| - 1];
      AppliedOf(apps[..|apps| - 1]) + (if IsApplied(last.status) then [last] else [])
  }

  /** Asking for applied applications only is filtering the full answer by `is_applied`. */
  lemma {:induction false} AppliedOnlyFilters(rows: seq<seq<string>>, statusFilter: string)
    ensures Listed(rows, statusFilter, true) == AppliedOf(Listed(rows, statusFilter, false))
    decreases |rows|
  {
    if rows != [] {
      var front := rows[..|rows| - 1];
      AppliedOnlyFilters(front, statusFilter);
      var all := Listed(rows, statusFilter, false);
      var previous := Listed(front, statusFilter, false);
      if all != previous {
        assert all[..|all| - 1] == previous;
      }
    }
  }

  /** The status filter is case-insensitive and ignores surrounding whitespace. */
  lemma {:induction false} StatusFilterUsesNormalForm(rows: seq<seq<string>>, f: string, g: string, appliedOnly: bool)
    requires f != [] && g != [] && Normalize(f) == Normalize(g)
    ensures Listed(rows, f, appliedOnly) == Listed(rows, g, appliedOnly)
    decreases |rows|
  {
    if rows != [] {
      StatusFilterUsesNormalForm(rows[..|rows| - 1], f, g, appliedOnly);
    }
  }

  /** With neither filter, every row with a company is returned. */
  lemma NoFilterKeepsEveryCompany(rows: seq<seq<string>>, i: nat)
    requires i < |rows| && !Skipped(rows[i])
    ensures ToApplication(DataStartRow + i, rows[i]) in Listed(rows, "", false)
  {
    ListedIff(rows, "", false, ToApplication(DataStartRow + i, rows[i]));
    assert Included(rows, i, "", false);
  }
}
