/** The reports page: the role gate, the sequential loading of four reports,
    and the arrays the three charts are drawn from. */
module ReportsPage {
  import opened Util
  import opened Dto
  import opened AuthContext

  const UNAUTHORIZED_PATH := "/unauthorized"
  const FETCH_FAILED := "Impossible de charger les données des rapports."
  const MONTHS := 12

  datatype Effect = Redirect(to: string) | FetchReports

  /** Administrators and physicians may see the reports. */
  predicate IsAuthorized(ctx: Option<ContextValue>)
  {
    ctx.Some? && (HasRole(ctx.value.user, ROLE_ADMIN) || HasRole(ctx.value.user, ROLE_MEDECIN))
  }

  /** The effect: an unauthorised user is sent away and nothing is fetched. */
  function MountEffect(ctx: Option<ContextValue>): (e: Effect)
    ensures e.Redirect? <==> !IsAuthorized(ctx)
    ensures e.Redirect? ==> e.to == UNAUTHORIZED_PATH
  {
    if IsAuthorized(ctx) then FetchReports else Redirect(UNAUTHORIZED_PATH)
  }

  /** The pie chart's labels and values: one pair per record, in order. */
  function GenderChart(distribution: seq<GenderCount>): (r: (seq<string>, seq<int>))
    ensures |r.0| == |distribution| == |r.1|
    ensures forall i :: 0 <= i < |distribution| ==> r.0[i] == distribution[i].gender && r.1[i] == distribution[i].count
  {
    (seq(|distribution|, i requires 0 <= i < |distribution| => distribution[i].gender),
     seq(|distribution|, i requires 0 <= i < |distribution| => distribution[i].count))
  }

  /** The bar chart's labels and values: one pair per department, in order. */
  function DepartmentChart(counts: seq<DepartmentCount>): (r: (seq<string>, seq<int>))
    ensures |r.0| == |counts| == |r.1|
    ensures forall i :: 0 <= i < |counts| ==> r.0[i] == counts[i].departmentName && r.1[i] == counts[i].admissionCount
  {
    (seq(|counts|, i requires 0 <= i < |counts| => counts[i].departmentName),
     seq(|counts|, i requires 0 <= i < |counts| => counts[i].admissionCount))
  }

  /** `records.find(m => m.month === month)`, as an index. */
  function FindMonth(records: seq<MonthlyCount>, month: int): (r: Option<nat>)
    ensures r.Some? ==> r.value < |records| && records[r.value].month == month
    ensures r.Some? ==> forall j :: 0 <= j < r.value ==> records[j].month != month
    ensures r.None? ==> forall j :: 0 <= j < |records| ==> records[j].month != month
  {
    if records == [] then None
    else if records[0].month == month then Some(0)
    else match FindMonth(records[1..], month)
      case None => None
      case Some(i) => Some(i + 1)
  }

  /** `find(...)?.count || 0`: the first record for the month decides, and a
      month without a record counts 0. */
  function MonthCount(records: seq<MonthlyCount>, month: int): (r: int)
    ensures (forall k :: 0 <= k < |records| ==> records[k].month != month) ==> r == 0
    ensures forall k :: (0 <= k < |records| && records[k].month == month &&
      (forall j :: 0 <= j < k ==> records[j].month != month)) ==> r == records[k].count
  {
    match FindMonth(records, month)
    case None => 0
    case Some(i) => records[i].count
  }

  /** The monthly series: twelve entries, entry i being the count of the first
      record for month i + 1, or 0 when there is none. */
  function MonthlyData(records: seq<MonthlyCount>): (r: seq<int>)
    ensures |r| == MONTHS
    ensures forall i, k ::
      (0 <= i < MONTHS && 0 <= k < |records| && records[k].month == i + 1 &&
       (forall j :: 0 <= j < k ==> records[j].month != i + 1)) ==> r[i] == records[k].count
    ensures forall i :: 0 <= i < MONTHS && (forall k :: 0 <= k < |records| ==> records[k].month != i + 1) ==> r[i] == 0
  {
    seq(MONTHS, i requires 0 <= i < MONTHS => MonthCount(records, i + 1))
  }

  /** A record for another month does not change a month's count, wherever it sits. */
  lemma {:induction false} MonthCountSkips(a: seq<MonthlyCount>, x: MonthlyCount, b: seq<MonthlyCount>, month: int)
    requires x.month != month
    ensures MonthCount(a + [x] + b, month) == MonthCount(a + b, month)
  {
    if a == [] {
      assert a + [x] + b == [x] + b && ([x] + b)[1..] == b && a + b == b;
    } else {
      MonthCountSkips(a[1..], x, b, month);
      assert (a + [x] + b)[0] == a[0] && (a + [x] + b)[1..] == a[1..] + [x] + b;
      assert (a + b)[0] == a[0] && (a + b)[1..] == a[1..] + b;
    }
  }

  /** Records whose month lies outside 1..12 do not affect the series. */
  lemma IgnoresOutOfRangeMonth(a: seq<MonthlyCount>, x: MonthlyCount, b: seq<MonthlyCount>)
    requires x.month < 1 || x.month > MONTHS
    ensures MonthlyData(a + [x] + b) == MonthlyData(a + b)
  {
    forall i | 0 <= i < MONTHS
      ensures MonthlyData(a + [x] + b)[i] == MonthlyData(a + b)[i]
    {
      MonthCountSkips(a, x, b, i + 1);
    }
  }

  class ReportsPageState {
    var loading: bool
    var error: Option<string>
    var totalPatients: Option<int>
    var genderDistribution: seq<GenderCount>
    var admissionByDepartment: seq<DepartmentCount>
    var monthlyAdmissions: seq<MonthlyCount>

    constructor ()
      ensures loading && error.None? && totalPatients.None?
      ensures genderDistribution == [] && admissionByDepartment == [] && monthlyAdmissions == []
    {
      loading := true;
      error := None;
      totalPatients := None;
      genderDistribution := [];
      admissionByDepartment := [];
      monthlyAdmissions := [];
    }

    /** `fetchReports`: four requests in sequence, each result stored as it
        arrives; the first failure stops the sequence and leaves the earlier
        results in place. */
    method FetchReports(year: int, total: Reply<int>, genders: Reply<seq<GenderCount>>,
                        departments: Reply<seq<DepartmentCount>>, monthlyFor: int -> Reply<seq<MonthlyCount>>)
      modifies this
      ensures !loading
      ensures totalPatients == if total.Ok? then Some(total.value) else old(totalPatients)
      ensures genderDistribution == if total.Ok? && genders.Ok? then genders.value else old(genderDistribution)
      ensures admissionByDepartment ==
        if total.Ok? && genders.Ok? && departments.Ok? then departments.value else old(admissionByDepartment)
      ensures monthlyAdmissions ==
        if total.Ok? && genders.Ok? && departments.Ok? && monthlyFor(year).Ok? then monthlyFor(year).value
        else old(monthlyAdmissions)
      ensures error.None? <==> total.Ok? && genders.Ok? && departments.Ok? && monthlyFor(year).Ok?
      ensures error.Some? ==> error.value == FETCH_FAILED
    {
      loading := true;
      error := None;
      if total.Failed? {
        error := Some(FETCH_FAILED);
      } else {
        totalPatients := Some(total.value);
        if genders.Failed? {
          error := Some(FETCH_FAILED);
        } else {
          genderDistribution := genders.value;
          if departments.Failed? {
            error := Some(FETCH_FAILED);
          } else {
            admissionByDepartment := departments.value;
            var monthly := monthlyFor(year);
            if monthly.Failed? {
              error := Some(FETCH_FAILED);
            } else {
              monthlyAdmissions := monthly.value;
            }
          }
        }
      }
      loading := false;
    }
  }
}
