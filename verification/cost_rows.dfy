/**
 `normalize` (pricing.py:87-101): the nested Cost Explorer response flattened
 into one row per (period, service group), in response order.

 `ResultsByTime` and `Groups` are read with `.get(..., [])`, so a missing list
 contributes no rows. Every other field is indexed directly and raises when
 absent; those failures are the `NormalizeError` cases, in the order the
 source evaluates them. The amount is the exact decimal value of the
 `Amount` string (the `float` conversion is not modelled).
 */
module CostRows {
  import opened Wrappers

  /** `Metrics.UnblendedCost`: `Amount` and `Unit`, either of which may be missing. */
  datatype Cost = Cost(amount: Option<real>, unit: Option<string>)

  /** One entry of `Groups`: its `Keys` list and its unblended-cost metric. */
  datatype Group = Group(keys: seq<string>, unblendedCost: Option<Cost>)

  /** One entry of `ResultsByTime`: `TimePeriod.Start` and `Groups`. */
  datatype Period = Period(start: Option<string>, groups: Option<seq<Group>>)

  datatype Response = Response(resultsByTime: Option<seq<Period>>)

  /** The flat record: `date`, `service`, `amount`, `unit`. */
  datatype Row = Row(date: string, service: string, amount: real, unit: string)

  /** `g["Keys"][0]`, `g["Metrics"]["UnblendedCost"]`, `metric["Amount"]`,
      `metric["Unit"]` and `period["TimePeriod"]["Start"]` failing. */
  datatype NormalizeError = NoServiceKey | NoUnblendedCost | NoAmount | NoUnit | NoPeriodStart

  function PeriodsOf(resp: Response): seq<Period> {
    resp.resultsByTime.GetOr([])
  }

  function GroupsOf(p: Period): seq<Group> {
    p.groups.GetOr([])
  }

  /** Everything one row needs is present. */
  predicate Complete(p: Period, g: Group) {
    && |g.keys| > 0
    && g.unblendedCost.Some?
    && g.unblendedCost.value.amount.Some?
    && g.unblendedCost.value.unit.Some?
    && p.start.Some?
  }

  /** The row for group `g` of period `p`, or the first lookup that fails. */
  function RowOf(p: Period, g: Group): (r: Result<Row, NormalizeError>)
    ensures r.Success? <==> Complete(p, g)
    ensures r.Success? ==> r.value == Row(p.start.value, g.keys[0],
      g.unblendedCost.value.amount.value, g.unblendedCost.value.unit.value)
  {
    if |g.keys| == 0 then Failure(NoServiceKey)
    else if g.unblendedCost.None? then Failure(NoUnblendedCost)
    else if g.unblendedCost.value.amount.None? then Failure(NoAmount)
    else if g.unblendedCost.value.unit.None? then Failure(NoUnit)
    else if p.start.None? then Failure(NoPeriodStart)
    else Success(Row(p.start.value, g.keys[0], g.unblendedCost.value.amount.value, g.unblendedCost.value.unit.value))
  }

  /** Group `j` is the first whose row fails, and it fails with `e`. */
  predicate FirstFailure(p: Period, gs: seq<Group>, j: int, e: NormalizeError) {
    && 0 <= j < |gs|
    && RowOf(p, gs[j]) == Failure(e)
    && forall k :: 0 <= k < j ==> RowOf(p, gs[k]).Success?
  }

  lemma FirstFailureLater(p: Period, gs: seq<Group>, e: NormalizeError)
    requires |gs| > 0 && RowOf(p, gs[0]).Success?
    requires exists j :: FirstFailure(p, gs[1..], j, e)
    ensures exists j :: FirstFailure(p, gs, j, e)
  {
    var j :| FirstFailure(p, gs[1..], j, e);
    assert FirstFailure(p, gs, j + 1, e);
  }

  /** The inner loop over one period's groups. */
  function NormalizeGroups(p: Period, gs: seq<Group>): (r: Result<seq<Row>, NormalizeError>)
    ensures r.Success? <==> forall j :: 0 <= j < |gs| ==> RowOf(p, gs[j]).Success?
    ensures r.Success? ==> |r.value| == |gs|
    ensures r.Success? ==> forall j :: 0 <= j < |gs| ==> r.value[j] == RowOf(p, gs[j]).value
    ensures r.Failure? ==> exists j :: FirstFailure(p, gs, j, r.error)
  {
    if |gs| == 0 then Success([])
    else
      match RowOf(p, gs[0])
      case Failure(e) => assert FirstFailure(p, gs, 0, e); Failure(e)
      case Success(row) =>
        match NormalizeGroups(p, gs[1..])
        case Failure(e) => FirstFailureLater(p, gs, e); Failure(e)
        case Success(rows) => Success([row] + rows)
  }

  /** Number of groups over all periods, missing `Groups` counting as none. */
  function GroupCount(ps: seq<Period>): nat {
    if |ps| == 0 then 0 else |GroupsOf(ps[0])| + GroupCount(ps[1..])
  }

  /** Period `i` is the first whose groups fail, and they fail with `e`. */
  predicate FirstFailingPeriod(ps: seq<Period>, i: int, e: NormalizeError) {
    && 0 <= i < |ps|
    && NormalizeGroups(ps[i], GroupsOf(ps[i])) == Failure(e)
    && forall k :: 0 <= k < i ==> NormalizeGroups(ps[k], GroupsOf(ps[k])).Success?
  }

  lemma FirstFailingPeriodLater(ps: seq<Period>, e: NormalizeError)
    requires |ps| > 0 && NormalizeGroups(ps[0], GroupsOf(ps[0])).Success?
    requires exists i :: FirstFailingPeriod(ps[1..], i, e)
    ensures exists i :: FirstFailingPeriod(ps, i, e)
  {
    var i :| FirstFailingPeriod(ps[1..], i, e);
    assert FirstFailingPeriod(ps, i + 1, e);
  }

  /** The outer loop over the periods. */
  function NormalizePeriods(ps: seq<Period>): (r: Result<seq<Row>, NormalizeError>)
    ensures r.Success? <==> forall i :: 0 <= i < |ps| ==> NormalizeGroups(ps[i], GroupsOf(ps[i])).Success?
    ensures r.Success? ==> |r.value| == GroupCount(ps)
    ensures r.Failure? ==> exists i :: FirstFailingPeriod(ps, i, r.error)
  {
    if |ps| == 0 then Success([])
    else
      match NormalizeGroups(ps[0], GroupsOf(ps[0]))
      case Failure(e) => assert FirstFailingPeriod(ps, 0, e); Failure(e)
      case Success(rows) =>
        match NormalizePeriods(ps[1..])
        case Failure(e) => FirstFailingPeriodLater(ps, e); Failure(e)
        case Success(more) => Success(rows + more)
  }

  function Normalize(resp: Response): Result<seq<Row>, NormalizeError> {
    NormalizePeriods(PeriodsOf(resp))
  }
  /** Index of the first row of period `i`: the groups of the periods before it. */
  function Offset(ps: seq<Period>, i: int): nat
    requires 0 <= i <= |ps|
  {
    GroupCount(ps[..i])
  }

  lemma {:induction false} GroupCountAppend(a: seq<Period>, b: seq<Period>)
    ensures GroupCount(a + b) == GroupCount(a) + GroupCount(b)
    decreases |a|
  {
    if |a| > 0 {
      assert (a + b)[1..] == a[1..] + b;
      GroupCountAppend(a[1..], b);
    } else {
      assert a + b == b;
    }
  }

  /** Period `i`'s rows occupy `[Offset(ps, i), Offset(ps, i) + groups)` of the output. */
  lemma OffsetBounds(ps: seq<Period>, i: int)
    requires 0 <= i < |ps|
    ensures Offset(ps, i) + |GroupsOf(ps[i])| <= GroupCount(ps)
    ensures Offset(ps, i + 1) == Offset(ps, i) + |GroupsOf(ps[i])|
  {
    assert ps == ps[..i] + [ps[i]] + ps[i + 1..];
    assert ps[..i + 1] == ps[..i] + [ps[i]];
    GroupCountAppend(ps[..i] + [ps[i]], ps[i + 1..]);
    GroupCountAppend(ps[..i], [ps[i]]);
    assert GroupCount([ps[i]]) == |GroupsOf(ps[i])| by {
      assert [ps[i]][1..] == [];
    }
  }

  lemma OffsetShift(ps: seq<Period>, i: int)
    requires 0 < i <= |ps|
    ensures Offset(ps, i) == |GroupsOf(ps[0])| + Offset(ps[1..], i - 1)
  {
    assert ps[..i][0] == ps[0];
    assert ps[..i][1..] == ps[1..][..i - 1];
  }

  /** Order and contents: the row of group `j` of period `i` sits at
      `Offset(ps, i) + j` of the output and carries that period's start date
      and that group's first key, amount and unit. With the row count of
      `NormalizePeriods` this says that nothing is dropped, added or
      reordered. */
  lemma {:induction false} RowAt(ps: seq<Period>, rows: seq<Row>, i: int, j: int)
    requires NormalizePeriods(ps) == Success(rows)
    requires 0 <= i < |ps| && 0 <= j < |GroupsOf(ps[i])|
    ensures Offset(ps, i) + j < |rows|
    ensures RowOf(ps[i], GroupsOf(ps[i])[j]) == Success(rows[Offset(ps, i) + j])
    decreases i
  {
    var first := NormalizeGroups(ps[0], GroupsOf(ps[0])).value;
    var more := NormalizePeriods(ps[1..]).value;
    assert rows == first + more;
    if i == 0 {
      assert ps[..0] == [];
    } else {
      RowAt(ps[1..], more, i - 1, j);
      OffsetShift(ps, i);
      assert ps[1..][i - 1] == ps[i];
      assert rows[Offset(ps, i) + j] == more[Offset(ps[1..], i - 1) + j];
    }
  }

  /** The output has exactly as many rows as the response has groups, and a
      missing `ResultsByTime` gives none. */
  lemma NormalizeCount(resp: Response)
    requires Normalize(resp).Success?
    ensures |Normalize(resp).value| == GroupCount(PeriodsOf(resp))
    ensures resp.resultsByTime.None? ==> Normalize(resp) == Success([])
  {
  }

  /** Normalizing fails exactly when some group lacks a field its row needs; a
      period without groups needs nothing, not even its `TimePeriod`. */
  lemma NormalizeSucceeds(resp: Response)
    ensures Normalize(resp).Success? <==>
      forall i, j :: 0 <= i < |PeriodsOf(resp)| && 0 <= j < |GroupsOf(PeriodsOf(resp)[i])| ==>
        Complete(PeriodsOf(resp)[i], GroupsOf(PeriodsOf(resp)[i])[j])
  {
    var ps := PeriodsOf(resp);
    if Normalize(resp).Success? {
      forall i, j | 0 <= i < |ps| && 0 <= j < |GroupsOf(ps[i])|
        ensures Complete(ps[i], GroupsOf(ps[i])[j])
      {
        assert NormalizeGroups(ps[i], GroupsOf(ps[i])).Success?;
      }
    }
  }

  /** Periods whose `Groups` is missing or empty contribute no rows, whatever else
      they hold. */
  lemma {:induction false} EmptyPeriodsGiveNoRows(ps: seq<Period>)
    requires forall i :: 0 <= i < |ps| ==> |GroupsOf(ps[i])| == 0
    ensures NormalizePeriods(ps) == Success([])
    decreases |ps|
  {
    if |ps| > 0 {
      EmptyPeriodsGiveNoRows(ps[1..]);
    }
  }

  /** One day, two services, as Cost Explorer returns them. */
  lemma TwoServicesExample()
    ensures var resp := Response(Some([Period(Some("2024-01-01"), Some([
        Group(["AmazonEC2"], Some(Cost(Some(12.34), Some("USD")))),
        Group(["AmazonS3"], Some(Cost(Some(0.50), Some("USD"))))]))]));
      Normalize(resp) == Success([Row("2024-01-01", "AmazonEC2", 12.34, "USD"),
                                  Row("2024-01-01", "AmazonS3", 0.50, "USD")])
  {
    var ec2 := Group(["AmazonEC2"], Some(Cost(Some(12.34), Some("USD"))));
    var s3 := Group(["AmazonS3"], Some(Cost(Some(0.50), Some("USD"))));
    var p := Period(Some("2024-01-01"), Some([ec2, s3]));
    var rowEc2 := Row("2024-01-01", "AmazonEC2", 12.34, "USD");
    var rowS3 := Row("2024-01-01", "AmazonS3", 0.50, "USD");
    assert [s3][1..] == [];
    assert NormalizeGroups(p, [s3]).value == [rowS3] + [];
    assert [ec2, s3][1..] == [s3];
    assert NormalizeGroups(p, [ec2, s3]).value == [rowEc2] + [rowS3];
    assert [p][1..] == [];
    assert NormalizePeriods([p]).value == [rowEc2, rowS3] + [];
    assert [rowEc2, rowS3] + [] == [rowEc2, rowS3];
    var resp := Response(Some([p]));
    assert PeriodsOf(resp) == [p];
    assert Normalize(resp) == Success([rowEc2, rowS3]);
  }
}
