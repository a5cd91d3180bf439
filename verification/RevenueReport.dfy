/** The revenue report of src/reports/reports.service.ts: records grouped by employer and employee, in paise. */
module RevenueReport {
  import opened Tables
  import opened Sums

  datatype Kind = PlatformFee | InterestPaid | LateFee

  /** A late fee is stored on a settlement, so it has no employee. */
  datatype Record =
    | OfEmployee(kind: Kind, employer: Id, employee: Id, amount: Paise)
    | OfEmployer(employer: Id, amount: Paise)

  datatype Totals = Totals(interest: Paise, platformFee: Paise, lateFee: Paise)

  datatype EmployerTotals = EmployerTotals(totals: Totals, employees: map<Id, Totals>)

  type Report = map<Id, EmployerTotals>

  const ZERO := Totals(0, 0, 0)

  function KindOf(r: Record): Kind {
    if r.OfEmployer? then LateFee else r.kind
  }

  function AddTo(t: Totals, kind: Kind, amount: Paise): Totals {
    match kind
    case InterestPaid => t.(interest := t.interest + amount)
    case PlatformFee => t.(platformFee := t.platformFee + amount)
    case LateFee => t.(lateFee := t.lateFee + amount)
  }

  function Column(t: Totals, kind: Kind): Paise {
    match kind
    case InterestPaid => t.interest
    case PlatformFee => t.platformFee
    case LateFee => t.lateFee
  }

  function EmployerOf(report: Report, employer: Id): EmployerTotals {
    if employer in report then report[employer] else EmployerTotals(ZERO, map[])
  }

  function EmployeeOf(e: EmployerTotals, employee: Id): Totals {
    if employee in e.employees then e.employees[employee] else ZERO
  }

  function AddToEmployer(e: EmployerTotals, r: Record): EmployerTotals {
    EmployerTotals(
      AddTo(e.totals, KindOf(r), r.amount),
      if r.OfEmployee? then e.employees[r.employee := AddTo(EmployeeOf(e, r.employee), r.kind, r.amount)]
      else e.employees)
  }

  /** One turn of an accumulation loop. */
  function Add(report: Report, r: Record): Report {
    report[r.employer := AddToEmployer(EmployerOf(report, r.employer), r)]
  }

  function AddAll(report: Report, records: seq<Record>): Report {
    if records == [] then report
    else Add(AddAll(report, records[..|records| - 1]), records[|records| - 1])
  }

  /** A report on one employer shows it even without records. */
  function Start(filtered: seq<Id>): Report {
    map e | e in filtered :: EmployerTotals(ZERO, map[])
  }

  // Flat sums over the records

  predicate Counts(r: Record, kind: Kind, employer: Id) {
    KindOf(r) == kind && r.employer == employer
  }

  function EmployerSum(records: seq<Record>, kind: Kind, employer: Id): Paise {
    if records == [] then 0
    else
      var last := records[|records| - 1];
      EmployerSum(records[..|records| - 1], kind, employer) + if Counts(last, kind, employer) then last.amount else 0
  }

  function EmployeeSum(records: seq<Record>, kind: Kind, employer: Id, employee: Id): Paise {
    if records == [] then 0
    else
      var last := records[|records| - 1];
      EmployeeSum(records[..|records| - 1], kind, employer, employee)
      + if last.OfEmployee? && Counts(last, kind, employer) && last.employee == employee then last.amount else 0
  }

  function KindSum(records: seq<Record>, kind: Kind): Paise {
    if records == [] then 0
    else
      var last := records[|records| - 1];
      KindSum(records[..|records| - 1], kind) + if KindOf(last) == kind then last.amount else 0
  }

  function FlatSum(records: seq<Record>): Paise {
    if records == [] then 0 else FlatSum(records[..|records| - 1]) + records[|records| - 1].amount
  }

  ghost function EmployerColumn(report: Report, kind: Kind): map<Id, Paise> {
    map e | e in report :: Column(report[e].totals, kind)
  }

  /** One column of the report, summed over its employers. */
  ghost function KindTotal(report: Report, kind: Kind): Paise {
    Sum(EmployerColumn(report, kind))
  }

  ghost function EmployeeColumn(e: EmployerTotals, kind: Kind): map<Id, Paise> {
    map x | x in e.employees :: Column(e.employees[x], kind)
  }

  // The laws

  /** Every bucket is the sum of the records it stands for. */
  lemma {:induction false} BucketsAreSums(filtered: seq<Id>, records: seq<Record>, kind: Kind, employer: Id,
                                          employee: Id)
    ensures var e := EmployerOf(AddAll(Start(filtered), records), employer);
            && Column(e.totals, kind) == EmployerSum(records, kind, employer)
            && Column(EmployeeOf(e, employee), kind) == EmployeeSum(records, kind, employer, employee)
    decreases |records|
  {
    if records != [] {
      BucketsAreSums(filtered, records[..|records| - 1], kind, employer, employee);
    }
  }

  /** What the code's late fees are: settlement rows, never employee rows. */
  predicate Sorted(records: seq<Record>) {
    forall r :: r in records && r.OfEmployee? ==> r.kind != LateFee
  }

  lemma AddToSum(employees: map<Id, Paise>, x: Id, amount: Paise)
    ensures Sum(employees[x := (if x in employees then employees[x] else 0) + amount]) == Sum(employees) + amount
  {
    var v := (if x in employees then employees[x] else 0) + amount;
    SumPick(employees[x := v], x);
    assert employees[x := v] - {x} == employees - {x};
    if x in employees { SumPick(employees, x); } else { assert employees - {x} == employees; }
  }

  /** Fee and interest revenue of an employer is the sum over its employees; late fees live on the employer only. */
  lemma {:induction false} EmployerIsSumOfEmployees(filtered: seq<Id>, records: seq<Record>, employer: Id, employee: Id)
    requires Sorted(records)
    ensures var e := EmployerOf(AddAll(Start(filtered), records), employer);
            && e.totals.interest == Sum(EmployeeColumn(e, InterestPaid))
            && e.totals.platformFee == Sum(EmployeeColumn(e, PlatformFee))
            && (employee in e.employees ==> e.employees[employee].lateFee == 0)
    decreases |records|
  {
    if records == [] {
      assert EmployeeColumn(EmployerOf(Start(filtered), employer), InterestPaid) == map[];
      assert EmployeeColumn(EmployerOf(Start(filtered), employer), PlatformFee) == map[];
    } else {
      var init, r := records[..|records| - 1], records[|records| - 1];
      EmployerIsSumOfEmployees(filtered, init, employer, employee);
      if r.employer == employer && r.OfEmployee? {
        var e := EmployerOf(AddAll(Start(filtered), init), employer);
        var e' := EmployerOf(AddAll(Start(filtered), records), employer);
        EmployeeAdded(e, e', r, InterestPaid);
        EmployeeAdded(e, e', r, PlatformFee);
      }
    }
  }

  lemma EmployeeAdded(e: EmployerTotals, e': EmployerTotals, r: Record, kind: Kind)
    requires r.OfEmployee?
    requires e'.employees == e.employees[r.employee := AddTo(EmployeeOf(e, r.employee), r.kind, r.amount)]
    ensures Sum(EmployeeColumn(e', kind)) == Sum(EmployeeColumn(e, kind)) + if r.kind == kind then r.amount else 0
  {
    var column := EmployeeColumn(e, kind);
    var amount := if r.kind == kind then r.amount else 0;
    AddToSum(column, r.employee, amount);
    assert EmployeeColumn(e', kind)
        == column[r.employee := (if r.employee in column then column[r.employee] else 0) + amount];
  }

  /** Each column totals the records of its kind: every record is counted once. */
  lemma {:induction false} KindTotalIsKindSum(filtered: seq<Id>, records: seq<Record>, kind: Kind)
    ensures KindTotal(AddAll(Start(filtered), records), kind) == KindSum(records, kind)
    decreases |records|
  {
    if records == [] {
      AllZero(EmployerColumn(Start(filtered), kind));
    } else {
      KindTotalIsKindSum(filtered, records[..|records| - 1], kind);
      KindAdded(AddAll(Start(filtered), records[..|records| - 1]), records[|records| - 1], kind);
    }
  }

  lemma KindAdded(report: Report, r: Record, kind: Kind)
    ensures KindTotal(Add(report, r), kind) == KindTotal(report, kind) + if KindOf(r) == kind then r.amount else 0
  {
    hide AddToEmployer, Column, Sum;
    var column, after := EmployerColumn(report, kind), Add(report, r);
    var amount := if KindOf(r) == kind then r.amount else 0;
    ColumnAdded(EmployerOf(report, r.employer), r, kind);
    ColumnOfNone(kind);
    AddToSum(column, r.employer, amount);
    assert EmployerColumn(after, kind)
        == column[r.employer := (if r.employer in column then column[r.employer] else 0) + amount];
  }

  lemma ColumnAdded(e: EmployerTotals, r: Record, kind: Kind)
    ensures Column(AddToEmployer(e, r).totals, kind)
         == Column(e.totals, kind) + if KindOf(r) == kind then r.amount else 0
  {
  }

  lemma ColumnOfNone(kind: Kind)
    ensures Column(ZERO, kind) == 0
  {
  }

  lemma {:induction false} KindsMakeFlatSum(records: seq<Record>)
    ensures FlatSum(records)
         == KindSum(records, InterestPaid) + KindSum(records, PlatformFee) + KindSum(records, LateFee)
    decreases |records|
  {
    if records != [] {
      KindsMakeFlatSum(records[..|records| - 1]);
    }
  }

  /** The grand total is the flat sum of all the records. */
  lemma GrandTotalIsFlatSum(filtered: seq<Id>, records: seq<Record>)
    ensures var report := AddAll(Start(filtered), records);
            KindTotal(report, InterestPaid) + KindTotal(report, PlatformFee) + KindTotal(report, LateFee)
            == FlatSum(records)
  {
    KindTotalIsKindSum(filtered, records, InterestPaid);
    KindTotalIsKindSum(filtered, records, PlatformFee);
    KindTotalIsKindSum(filtered, records, LateFee);
    KindsMakeFlatSum(records);
  }

  predicate AllOf(records: seq<Record>, kind: Kind) {
    forall r :: r in records ==> if kind == LateFee then r.OfEmployer? else r.OfEmployee? && r.kind == kind
  }

  lemma {:induction false} OneKind(records: seq<Record>, kind: Kind, other: Kind)
    requires AllOf(records, kind)
    ensures KindSum(records, other) == if other == kind then FlatSum(records) else 0
    decreases |records|
  {
    if records != [] {
      var init, last := records[..|records| - 1], records[|records| - 1];
      assert AllOf(init, kind) && last in records;
      OneKind(init, kind, other);
    }
  }

  lemma {:induction false} KindSumConcat(a: seq<Record>, b: seq<Record>, kind: Kind)
    ensures KindSum(a + b, kind) == KindSum(a, kind) + KindSum(b, kind)
    decreases |b|
  {
    if b == [] {
      assert a + b == a;
    } else {
      assert (a + b)[..|a + b| - 1] == a + b[..|b| - 1];
      KindSumConcat(a, b[..|b| - 1], kind);
    }
  }

  /** With paid platform fees, paid interest and settled late fees as the three inputs, each column is the sum of one
      input. */
  lemma ColumnsAreInputs(fees: seq<Record>, repayments: seq<Record>, settlements: seq<Record>)
    requires AllOf(fees, PlatformFee) && AllOf(repayments, InterestPaid) && AllOf(settlements, LateFee)
    ensures var records := fees + repayments + settlements;
            && KindSum(records, PlatformFee) == FlatSum(fees)
            && KindSum(records, InterestPaid) == FlatSum(repayments)
            && KindSum(records, LateFee) == FlatSum(settlements)
  {
    hide KindSum, AllOf, FlatSum;
    ColumnOfInputs(fees, repayments, settlements, PlatformFee);
    ColumnOfInputs(fees, repayments, settlements, InterestPaid);
    ColumnOfInputs(fees, repayments, settlements, LateFee);
  }

  lemma ColumnOfInputs(fees: seq<Record>, repayments: seq<Record>, settlements: seq<Record>, kind: Kind)
    requires AllOf(fees, PlatformFee) && AllOf(repayments, InterestPaid) && AllOf(settlements, LateFee)
    ensures KindSum(fees + repayments + settlements, kind)
         == match kind
            case PlatformFee => FlatSum(fees)
            case InterestPaid => FlatSum(repayments)
            case LateFee => FlatSum(settlements)
  {
    hide KindSum, AllOf, FlatSum;
    KindSumConcat(fees, repayments, kind);
    KindSumConcat(fees + repayments, settlements, kind);
    OneKind(fees, PlatformFee, kind);
    OneKind(repayments, InterestPaid, kind);
    OneKind(settlements, LateFee, kind);
  }

  lemma {:induction false} AllZero(m: map<Id, int>)
    requires forall k :: k in m ==> m[k] == 0
    ensures Sum(m) == 0
    decreases |m|
  {
    if m != map[] {
      var k :| k in m;
      SumPick(m, k);
      AllZero(m - {k});
    }
  }

  lemma AddToEmployerCommutes(e: EmployerTotals, a: Record, b: Record)
    ensures AddToEmployer(AddToEmployer(e, a), b) == AddToEmployer(AddToEmployer(e, b), a)
  {
    AddToCommutes(e.totals, KindOf(a), a.amount, KindOf(b), b.amount);
    if a.OfEmployee? && b.OfEmployee? {
      AddToCommutes(EmployeeOf(e, a.employee), a.kind, a.amount, b.kind, b.amount);
      hide AddTo;
      var ab, ba := AddToEmployer(AddToEmployer(e, a), b).employees, AddToEmployer(AddToEmployer(e, b), a).employees;
      assert ab == ba;
    }
  }

  lemma AddToCommutes(t: Totals, k: Kind, x: Paise, l: Kind, y: Paise)
    ensures AddTo(AddTo(t, k, x), l, y) == AddTo(AddTo(t, l, y), k, x)
  {
  }

  lemma AddCommutes(report: Report, a: Record, b: Record)
    ensures Add(Add(report, a), b) == Add(Add(report, b), a)
  {
    hide AddToEmployer;
    if a.employer == b.employer { AddToEmployerCommutes(EmployerOf(report, a.employer), a, b); }
  }

  lemma {:induction false} MoveLast(report: Report, a: seq<Record>, x: Record, b: seq<Record>)
    ensures AddAll(report, a + [x] + b) == AddAll(report, a + b + [x])
    decreases |b|
  {
    hide Add;
    if b == [] {
      assert a + [x] + b == a + b + [x];
    } else {
      var init, last := b[..|b| - 1], b[|b| - 1];
      var s, t := a + [x] + b, a + b + [x];
      assert s[..|s| - 1] == a + [x] + init;
      assert t[..|t| - 1] == a + b && (a + b)[..|a + b| - 1] == a + init;
      MoveLast(report, a, x, init);
      var u := a + init + [x];
      assert u[..|u| - 1] == a + init;
      AddCommutes(AddAll(report, a + init), x, last);
    }
  }

  /** The report does not depend on the order in which the queries return the records. */
  lemma {:induction false} OrderDoesNotMatter(report: Report, s: seq<Record>, t: seq<Record>)
    requires multiset(s) == multiset(t)
    ensures AddAll(report, s) == AddAll(report, t)
    decreases |s|
  {
    hide Add;
    if s == [] {
      assert |multiset(t)| == 0;
    } else {
      var init, last := s[..|s| - 1], s[|s| - 1];
      assert s == init + [last];
      assert last in multiset(t);
      var i :| 0 <= i < |t| && t[i] == last;
      var a, b := t[..i], t[i + 1..];
      assert t == a + [last] + b;
      MoveLast(report, a, last, b);
      Without(init, a, b, last);
      OrderDoesNotMatter(report, init, a + b);
      assert (a + b + [last])[..|a + b|] == a + b;
    }
  }

  lemma Without(init: seq<Record>, a: seq<Record>, b: seq<Record>, x: Record)
    requires multiset(init + [x]) == multiset(a + [x] + b)
    ensures multiset(init) == multiset(a + b)
  {
    assert multiset(init + [x]) == multiset(init) + multiset{x};
    assert multiset(a + [x] + b) == multiset(a + b) + multiset{x};
    assert multiset(init) == multiset(init) + multiset{x} - multiset{x};
    assert multiset(a + b) == multiset(a + b) + multiset{x} - multiset{x};
  }
}
