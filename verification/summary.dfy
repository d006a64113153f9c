/**
 The closing summary of `main` (pricing.py:139-140): the total of the row
 amounts, and the currency unit reported with it, which is the first row's
 unit or `"USD"` when there are no rows. Amounts are exact; the
 floating-point sum and its two-decimal rendering are not modelled.
 */
module Summary {
  import opened Wrappers
  import opened CostRows

  const DefaultUnit := "USD"

  /** The sum of the `amount` fields; 0 for no rows. */
  function Total(rows: seq<Row>): real {
    if |rows| == 0 then 0.0 else rows[0].amount + Total(rows[1..])
  }

  lemma {:induction false} TotalAppend(a: seq<Row>, b: seq<Row>)
    ensures Total(a + b) == Total(a) + Total(b)
    decreases |a|
  {
    if |a| == 0 {
      assert a + b == b;
    } else {
      assert (a + b)[1..] == a[1..] + b;
      TotalAppend(a[1..], b);
    }
  }

  /** `sum(r["amount"] for r in rows)`: a left-to-right accumulation starting at 0. */
  method SumAmounts(rows: seq<Row>) returns (total: real)
    ensures total == Total(rows)
  {
    total := 0.0;
    var i := 0;
    while i < |rows|
      invariant 0 <= i <= |rows|
      invariant total == Total(rows[..i])
    {
      TotalAppend(rows[..i], [rows[i]]);
      assert rows[..i + 1] == rows[..i] + [rows[i]];
      assert Total([rows[i]]) == rows[i].amount by {
        assert [rows[i]][1..] == [];
      }
      total := total + rows[i].amount;
      i := i + 1;
    }
    assert rows[..|rows|] == rows;
  }

  /** `rows[0]["unit"] if rows else "USD"`. */
  function ReportUnit(rows: seq<Row>): string {
    if |rows| > 0 then rows[0].unit else DefaultUnit
  }

  /** The amount of a group whose row can be built. */
  function GroupAmount(g: Group): real {
    match g.unblendedCost
    case Some(Cost(Some(a), _)) => a
    case _ => 0.0
  }

  function GroupsTotal(gs: seq<Group>): real {
    if |gs| == 0 then 0.0 else GroupAmount(gs[0]) + GroupsTotal(gs[1..])
  }

  /** The total amount the response itself reports, period by period. */
  function ResponseTotal(ps: seq<Period>): real {
    if |ps| == 0 then 0.0 else GroupsTotal(GroupsOf(ps[0])) + ResponseTotal(ps[1..])
  }

  lemma {:induction false} GroupsTotalOfRows(p: Period, gs: seq<Group>, rows: seq<Row>)
    requires NormalizeGroups(p, gs) == Success(rows)
    ensures Total(rows) == GroupsTotal(gs)
    decreases |gs|
  {
    if |gs| > 0 {
      var rest := NormalizeGroups(p, gs[1..]).value;
      assert rows == [rows[0]] + rest;
      assert rows[1..] == rest;
      GroupsTotalOfRows(p, gs[1..], rest);
    }
  }

  /** The reported total is the sum of the amounts in the response: flattening
      neither loses nor duplicates any cost. */
  lemma {:induction false} TotalOfNormalized(ps: seq<Period>, rows: seq<Row>)
    requires NormalizePeriods(ps) == Success(rows)
    ensures Total(rows) == ResponseTotal(ps)
    decreases |ps|
  {
    if |ps| > 0 {
      var first := NormalizeGroups(ps[0], GroupsOf(ps[0])).value;
      var more := NormalizePeriods(ps[1..]).value;
      assert rows == first + more;
      TotalAppend(first, more);
      GroupsTotalOfRows(ps[0], GroupsOf(ps[0]), first);
      TotalOfNormalized(ps[1..], more);
    }
  }

  /** The unit reported is that of the first group of the first period that has
      groups; with no groups at all it is `"USD"`. */
  lemma {:induction false} UnitOfNormalized(ps: seq<Period>, rows: seq<Row>)
    requires NormalizePeriods(ps) == Success(rows)
    ensures GroupCount(ps) == 0 ==> ReportUnit(rows) == DefaultUnit
    ensures forall i :: 0 <= i < |ps| && |GroupsOf(ps[i])| > 0 && Offset(ps, i) == 0 ==>
      ReportUnit(rows) == GroupsOf(ps[i])[0].unblendedCost.value.unit.value
  {
    forall i | 0 <= i < |ps| && |GroupsOf(ps[i])| > 0 && Offset(ps, i) == 0
      ensures ReportUnit(rows) == GroupsOf(ps[i])[0].unblendedCost.value.unit.value
    {
      RowAt(ps, rows, i, 0);
    }
  }

  /** One day with EC2 at 12.34 and S3 at 0.50 reports `12.84 USD`. */
  lemma TwoServicesSummary()
    ensures var rows := [Row("2024-01-01", "AmazonEC2", 12.34, "USD"),
                         Row("2024-01-01", "AmazonS3", 0.50, "USD")];
      Total(rows) == 12.84 && ReportUnit(rows) == "USD"
  {
    var rows := [Row("2024-01-01", "AmazonEC2", 12.34, "USD"),
                 Row("2024-01-01", "AmazonS3", 0.50, "USD")];
    assert rows[1..][1..] == [];
  }

  /** An empty response reports `0 USD`. */
  lemma EmptySummary()
    ensures Total([]) == 0.0 && ReportUnit([]) == DefaultUnit
  {
  }
}
