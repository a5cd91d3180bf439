/** `getRevenueReport` of src/reports/reports.service.ts: a map of mutable employer buckets. */
module ReportsService {
  import opened Tables
  import opened RevenueReport
  import opened Sums

  class EmployerBucket {
    const employerId: Id
    var totals: Totals
    var employees: map<Id, Totals>

    constructor (employerId: Id)
      ensures this.employerId == employerId && View() == EmployerTotals(ZERO, map[])
    {
      this.employerId, totals, employees := employerId, ZERO, map[];
    }

    function View(): EmployerTotals
      reads this
    {
      EmployerTotals(totals, employees)
    }

    method EnsureEmployee(x: Id)
      modifies `employees
      ensures employees == old(employees)[x := EmployeeOf(old(View()), x)]
    {
      if x !in employees { employees := employees[x := ZERO]; }
      assert EmployeeOf(View(), x) == employees[x];
    }

    /** `employee.<column> += amount; employer.<column> += amount`. */
    method AddRecord(r: Record)
      modifies this
      ensures View() == AddToEmployer(old(View()), r)
    {
      if r.OfEmployee? {
        EnsureEmployee(r.employee);
        employees := employees[r.employee := AddTo(employees[r.employee], r.kind, r.amount)];
        totals := AddTo(totals, r.kind, r.amount);
      } else {
        totals := AddTo(totals, LateFee, r.amount);
      }
    }
  }

  class Builder {
    var employers: map<Id, EmployerBucket>

    /** Every entry is the employer's own bucket, so no two entries share one. */
    ghost predicate Valid()
      reads this
    {
      forall e :: e in employers ==> employers[e].employerId == e
    }

    ghost function View(): Report
      reads this, employers.Values
    {
      map e | e in employers :: employers[e].View()
    }

    constructor ()
      ensures Valid() && View() == map[] && employers == map[]
    {
      employers := map[];
    }

    method EnsureEmployer(id: Id) returns (bucket: EmployerBucket)
      requires Valid()
      modifies `employers
      ensures Valid() && id in employers && bucket == employers[id]
      ensures View() == old(View())[id := EmployerOf(old(View()), id)]
      ensures fresh(employers.Values - old(employers.Values))
    {
      if id in employers { return employers[id]; }
      bucket := new EmployerBucket(id);
      employers := employers[id := bucket];
    }

    method AddToBucket(employer: EmployerBucket, r: Record)
      requires Valid() && r.employer in employers && employers[r.employer] == employer
      modifies employer
      ensures Valid() && View() == old(View())[r.employer := AddToEmployer(old(View())[r.employer], r)]
    {
      hide AddToEmployer;
      employer.AddRecord(r);
    }

    /** The body of the three loops. */
    method AddRecord(r: Record)
      requires Valid()
      modifies this, employers.Values
      ensures Valid() && View() == Add(old(View()), r)
      ensures fresh(employers.Values - old(employers.Values))
    {
      hide AddToEmployer;
      var employer := EnsureEmployer(r.employer);
      AddToBucket(employer, r);
    }

    /** `[...employers.values()]`, as values. */
    method Snapshot() returns (report: Report)
      ensures report == View()
    {
      report := map e | e in employers :: employers[e].View();
    }

    method AddRecords(records: seq<Record>)
      requires Valid()
      modifies this, employers.Values
      ensures Valid() && View() == AddAll(old(View()), records)
      ensures fresh(employers.Values - old(employers.Values))
    {
      for i := 0 to |records|
        invariant Valid() && View() == AddAll(old(View()), records[..i])
        invariant fresh(employers.Values - old(employers.Values))
      {
        assert records[..i + 1][..i] == records[..i];
        AddRecord(records[i]);
      }
      assert records[..|records|] == records;
    }
  }

  function Rest(report: Report, keys: set<Id>): Report {
    map e | e in report && e in keys :: report[e]
  }

  lemma Picked(report: Report, keys: set<Id>, e: Id, kind: Kind)
    requires e in keys && e in report
    ensures KindTotal(Rest(report, keys), kind)
         == Column(report[e].totals, kind) + KindTotal(Rest(report, keys - {e}), kind)
  {
    SumPick(EmployerColumn(Rest(report, keys), kind), e);
    assert EmployerColumn(Rest(report, keys), kind) - {e} == EmployerColumn(Rest(report, keys - {e}), kind);
  }

  method SumUp(report: Report) returns (s: Totals)
    ensures forall kind :: Column(s, kind) == KindTotal(report, kind)
  {
    var keys := report.Keys;
    s := ZERO;
    assert Rest(report, keys) == report;
    while keys != {}
      invariant keys <= report.Keys
      invariant forall kind :: Column(s, kind) + KindTotal(Rest(report, keys), kind) == KindTotal(report, kind)
    {
      var e :| e in keys;
      forall kind: Kind { Picked(report, keys, e, kind); }
      var t := report[e].totals;
      s := Totals(s.interest + t.interest, s.platformFee + t.platformFee, s.lateFee + t.lateFee);
      keys := keys - {e};
    }
    forall kind
      ensures KindTotal(Rest(report, {}), kind) == 0
    {
      assert EmployerColumn(Rest(report, {}), kind) == map[];
    }
  }

  /** The three loops, then the totals over the employers. */
  method GetRevenueReport(filtered: seq<Id>, fees: seq<Record>, repayments: seq<Record>, settlements: seq<Record>)
    returns (byEmployer: Report, columns: Totals, total: Paise)
    requires |filtered| <= 1
    ensures byEmployer == AddAll(Start(filtered), fees + repayments + settlements)
    ensures forall kind :: Column(columns, kind) == KindSum(fees + repayments + settlements, kind)
    ensures total == FlatSum(fees + repayments + settlements)
    ensures AllOf(fees, PlatformFee) && AllOf(repayments, InterestPaid) && AllOf(settlements, LateFee) ==>
              columns == Totals(FlatSum(repayments), FlatSum(fees), FlatSum(settlements))
  {
    hide AllOf, AddAll, KindSum, FlatSum, KindTotal, EmployerColumn;
    var builder := new Builder();
    if |filtered| == 1 { var employer := builder.EnsureEmployer(filtered[0]); }
    assert builder.View() == Start(filtered);
    builder.AddRecords(fees);
    builder.AddRecords(repayments);
    builder.AddRecords(settlements);
    ghost var records := fees + repayments + settlements;
    AddAllConcat(Start(filtered), fees, repayments);
    AddAllConcat(Start(filtered), fees + repayments, settlements);
    byEmployer := builder.Snapshot();
    columns := SumUp(byEmployer);
    forall kind { KindTotalIsKindSum(filtered, records, kind); }
    KindsMakeFlatSum(records);
    OneInputEach(fees, repayments, settlements, columns);
    total := columns.interest + columns.platformFee + columns.lateFee;
    assert total == Column(columns, InterestPaid) + Column(columns, PlatformFee) + Column(columns, LateFee);
  }

  lemma OneInputEach(fees: seq<Record>, repayments: seq<Record>, settlements: seq<Record>, columns: Totals)
    requires forall kind :: Column(columns, kind) == KindSum(fees + repayments + settlements, kind)
    ensures AllOf(fees, PlatformFee) && AllOf(repayments, InterestPaid) && AllOf(settlements, LateFee) ==>
              columns == Totals(FlatSum(repayments), FlatSum(fees), FlatSum(settlements))
  {
    hide AllOf, KindSum, FlatSum;
    if AllOf(fees, PlatformFee) && AllOf(repayments, InterestPaid) && AllOf(settlements, LateFee) {
      ColumnsAreInputs(fees, repayments, settlements);
      assert Column(columns, PlatformFee) == columns.platformFee && Column(columns, InterestPaid) == columns.interest
          && Column(columns, LateFee) == columns.lateFee;
    }
  }

  lemma {:induction false} AddAllConcat(report: Report, a: seq<Record>, b: seq<Record>)
    ensures AddAll(report, a + b) == AddAll(AddAll(report, a), b)
    decreases |b|
  {
    if b == [] {
      assert a + b == a;
    } else {
      assert (a + b)[..|a + b| - 1] == a + b[..|b| - 1];
      AddAllConcat(report, a, b[..|b| - 1]);
    }
  }
}
