/**
 * The in-memory transaction store (src/lib/store.js): a module-level list of
 * records, seeded with four January 2025 transactions, with lookups, create,
 * update, delete and the monthly expense report.
 *
 * The clock and `Date.now()` ids become parameters: `Create` takes the id
 * to assign and today's date from its caller.
 */
module Store {
  import opened Wrappers
  import opened Transactions
  import opened MonthKeys

  /** The fields a caller hands to `create`; its `id`, if any, is overwritten. */
  datatype NewTransaction = NewTransaction(
    id: Option<string>,
    amount: int,
    description: string,
    date: Option<Date>,   // None: missing or empty, defaults to today
    category: string)

  /** The fields of an update; each present field replaces the stored one. */
  datatype Patch = Patch(
    id: Option<string>,
    amount: Option<int>,
    description: Option<string>,
    date: Option<Date>,
    category: Option<string>)

  /** One entry of the monthly report: `{ month, amount }`. */
  datatype MonthTotal = MonthTotal(month: string, amount: int)

  /** The records the store starts with. */
  function Seed(): seq<Transaction>
  {
    [ Transaction("1", -8550, "Grocery shopping", Date(2025, 1, 15), "Food & Dining"),
      Transaction("2", -120000, "Rent payment", Date(2025, 1, 1), "Housing"),
      Transaction("3", 300000, "Salary", Date(2025, 1, 1), "Income"),
      Transaction("4", -4520, "Gas station", Date(2025, 1, 10), "Transportation") ]
  }

  /** `findIndex(t => t.id === id)`: the first position holding `id`. */
  function FindFirst(s: seq<Transaction>, id: string): (r: Option<nat>)
    ensures r.Some? ==> r.value < |s| && s[r.value].id == id
    ensures r.Some? ==> forall j :: 0 <= j < r.value ==> s[j].id != id
    ensures r.None? <==> forall j :: 0 <= j < |s| ==> s[j].id != id
  {
    if s == [] then None
    else if s[0].id == id then Some(0)
    else match FindFirst(s[1..], id)
      case None => None
      case Some(i) => Some(i + 1)
  }

  function Pick<T>(update: Option<T>, current: T): T
  {
    if update.Some? then update.value else current
  }

  /** `{ ...current, ...updates }`. */
  function Merge(current: Transaction, updates: Patch): Transaction
  {
    Transaction(
      Pick(updates.id, current.id),
      Pick(updates.amount, current.amount),
      Pick(updates.description, current.description),
      Pick(updates.date, current.date),
      Pick(updates.category, current.category))
  }

  /** Every present field of the patch wins; every absent one keeps the stored value. */
  lemma MergeFields(current: Transaction, updates: Patch)
    ensures var t := Merge(current, updates);
      (t.id == if updates.id.Some? then updates.id.value else current.id) &&
      (t.amount == if updates.amount.Some? then updates.amount.value else current.amount) &&
      (t.description == if updates.description.Some? then updates.description.value else current.description) &&
      (t.date == if updates.date.Some? then updates.date.value else current.date) &&
      (t.category == if updates.category.Some? then updates.category.value else current.category)
  {
  }

  /** Applying the same patch twice is the same as applying it once. */
  lemma MergeIdempotent(current: Transaction, updates: Patch)
    ensures Merge(Merge(current, updates), updates) == Merge(current, updates)
  {
  }

  /** An empty patch changes nothing. */
  lemma MergeEmpty(current: Transaction)
    ensures Merge(current, Patch(None, None, None, None, None)) == current
  {
  }

  /** Changing only the description leaves id, amount, date and category as they were. */
  lemma MergeDescriptionOnly(current: Transaction, description: string)
    ensures Merge(current, Patch(None, None, Some(description), None, None))
         == current.(description := description)
  {
  }

  /** No two records share an id. The store never checks this itself. */
  predicate UniqueIds(s: seq<Transaction>)
  {
    forall i, j :: 0 <= i < j < |s| ==> s[i].id != s[j].id
  }

  /** A record appended under an id nobody holds is what a lookup of that id finds. */
  lemma {:induction false} AppendedIsFound(s: seq<Transaction>, t: Transaction)
    requires forall j :: 0 <= j < |s| ==> s[j].id != t.id
    ensures FindFirst(s + [t], t.id) == Some(|s|)
  {
    if s != [] {
      assert (s + [t])[1..] == s[1..] + [t];
      AppendedIsFound(s[1..], t);
    }
  }

  /** With unique ids, after removing the record holding `id` no record holds it. */
  lemma RemovedIsGone(s: seq<Transaction>, i: nat)
    requires UniqueIds(s) && i < |s|
    ensures FindFirst(s[..i] + s[i + 1..], s[i].id).None?
    ensures UniqueIds(s[..i] + s[i + 1..])
  {
    var r := s[..i] + s[i + 1..];
    forall j | 0 <= j < |r|
      ensures r[j].id != s[i].id && r[j] == s[if j < i then j else j + 1]
    {
    }
  }

  /** A record counts towards month `key`: it is an expense dated in that month. */
  predicate InMonth(t: Transaction, key: string)
  {
    t.amount < 0 && MonthKey(t.date) == key
  }

  /** One step of the `forEach`: an expense adds its absolute amount to its month's bucket. */
  function AddExpense(m: map<string, int>, t: Transaction): map<string, int>
  {
    if t.amount < 0 then
      var key := MonthKey(t.date);
      m[key := (if key in m then m[key] else 0) + Abs(t.amount)]
    else m
  }

  /** `monthlyData` after the `forEach` over `s`. */
  function Bucket(s: seq<Transaction>): (m: map<string, int>)
    ensures forall key :: key in m ==> m[key] > 0
  {
    if s == [] then map[] else AddExpense(Bucket(s[..|s| - 1]), s[|s| - 1])
  }

  /** Reference definition: the expenses of `s` in month `key`, summed as absolute values. */
  function MonthlyTotal(s: seq<Transaction>, key: string): int
  {
    if s == [] then 0
    else MonthlyTotal(s[..|s| - 1], key) + (if InMonth(s[|s| - 1], key) then Abs(s[|s| - 1].amount) else 0)
  }

  /** Some expense of `s` falls in month `key`. */
  predicate HasExpenseIn(s: seq<Transaction>, key: string)
  {
    exists j :: 0 <= j < |s| && InMonth(s[j], key)
  }

  lemma HasExpenseInAppend(p: seq<Transaction>, t: Transaction, key: string)
    ensures HasExpenseIn(p + [t], key) <==> HasExpenseIn(p, key) || InMonth(t, key)
  {
    var s := p + [t];
    if HasExpenseIn(p, key) {
      var j :| 0 <= j < |p| && InMonth(p[j], key);
      assert s[j] == p[j];
    }
    if InMonth(t, key) {
      assert s[|p|] == t;
    }
    if HasExpenseIn(s, key) && !InMonth(t, key) {
      var j :| 0 <= j < |s| && InMonth(s[j], key);
      assert j < |p| && p[j] == s[j];
    }
  }

  lemma AddExpenseAt(m: map<string, int>, t: Transaction, key: string)
    ensures key in AddExpense(m, t) <==> key in m || InMonth(t, key)
    ensures InMonth(t, key) ==> AddExpense(m, t)[key] == (if key in m then m[key] else 0) + Abs(t.amount)
    ensures !InMonth(t, key) && key in m ==> AddExpense(m, t)[key] == m[key]
  {
  }

  /** The buckets are exactly the expense months, each holding that month's positive total. */
  lemma {:induction false} BucketMeaning(s: seq<Transaction>, key: string)
    ensures key in Bucket(s) <==> HasExpenseIn(s, key)
    ensures key in Bucket(s) ==> Bucket(s)[key] == MonthlyTotal(s, key) > 0
    ensures key !in Bucket(s) ==> MonthlyTotal(s, key) == 0
  {
    if s != [] {
      var p, t := s[..|s| - 1], s[|s| - 1];
      assert s == p + [t];
      BucketMeaning(p, key);
      HasExpenseInAppend(p, t, key);
      AddExpenseAt(Bucket(p), t, key);
    }
  }

  function MonthsOf(report: seq<MonthTotal>): set<string>
  {
    set e | e in report :: e.month
  }

  /** Strictly ascending months: sorted, and no month twice. */
  predicate StrictlySorted(report: seq<MonthTotal>)
  {
    forall i, j :: 0 <= i < j < |report| ==> StrLess(report[i].month, report[j].month)
  }

  /** `report` lists the entries of `m` as `{ month, amount }`, strictly ascending by month. */
  predicate IsReportOf(report: seq<MonthTotal>, m: map<string, int>)
  {
    StrictlySorted(report) &&
    MonthsOf(report) == m.Keys &&
    forall e :: e in report ==> e.month in m && e.amount == m[e.month]
  }

  /** Every month in `report` comes strictly after `month`. */
  predicate AllAfter(month: string, report: seq<MonthTotal>)
  {
    forall x :: x in report ==> StrLess(month, x.month)
  }

  lemma PrependSorted(x: MonthTotal, rest: seq<MonthTotal>)
    requires StrictlySorted(rest) && AllAfter(x.month, rest)
    ensures StrictlySorted([x] + rest)
  {
    var r := [x] + rest;
    forall i, j | 0 <= i < j < |r| ensures StrLess(r[i].month, r[j].month) {
      assert r[j] == rest[j - 1] && rest[j - 1] in rest;
      if i > 0 {
        assert r[i] == rest[i - 1];
      }
    }
  }

  lemma SortedHeadFirst(report: seq<MonthTotal>)
    requires StrictlySorted(report) && report != []
    ensures StrictlySorted(report[1..]) && AllAfter(report[0].month, report[1..])
    ensures forall x :: x in report <==> x == report[0] || x in report[1..]
  {
    assert report == [report[0]] + report[1..];
    forall x | x in report[1..] ensures StrLess(report[0].month, x.month) {
      var j :| 0 <= j < |report[1..]| && report[1..][j] == x;
      assert x == report[j + 1];
    }
  }

  /** Places `e` in a strictly ascending report whose months do not include its own. */
  function InsertSorted(report: seq<MonthTotal>, e: MonthTotal): (r: seq<MonthTotal>)
    requires StrictlySorted(report) && e.month !in MonthsOf(report)
    ensures StrictlySorted(r)
    ensures forall x :: x in r <==> x in report || x == e
    ensures MonthsOf(r) == MonthsOf(report) + {e.month}
  {
    if report == [] then [e]
    else
      SortedHeadFirst(report);
      if StrLess(e.month, report[0].month) then
        assert AllAfter(e.month, report) by {
          forall x | x in report[1..] ensures StrLess(e.month, x.month) {
            StrLessTransitive(e.month, report[0].month, x.month);
          }
        }
        PrependSorted(e, report);
        [e] + report
      else
        assert report[0] in report;
        StrLessTotal(e.month, report[0].month);
        var rest := InsertSorted(report[1..], e);
        PrependSorted(report[0], rest);
        [report[0]] + rest
  }

  /** A strictly ascending report of a map is the only one there is. */
  lemma {:induction false} ReportUnique(r1: seq<MonthTotal>, r2: seq<MonthTotal>, m: map<string, int>)
    requires IsReportOf(r1, m) && IsReportOf(r2, m)
    ensures r1 == r2
    decreases |r1|
  {
    if r1 != [] {
      assert r1[0].month in MonthsOf(r1);
      assert r2 != [];
      var a, b := r1[0].month, r2[0].month;
      if a != b {
        assert a in MonthsOf(r2);
        var e2 :| e2 in r2 && e2.month == a;
        var j :| 0 <= j < |r2| && r2[j] == e2;
        assert b in MonthsOf(r2) && b in MonthsOf(r1);
        var e1 :| e1 in r1 && e1.month == b;
        var i :| 0 <= i < |r1| && r1[i] == e1;
        StrLessAsymmetric(b, a);
      }
      var m' := m - {a};
      TailIsReport(r1, m);
      TailIsReport(r2, m);
      ReportUnique(r1[1..], r2[1..], m');
      assert r1 == [r1[0]] + r1[1..] && r2 == [r2[0]] + r2[1..];
    }
  }

  lemma TailIsReport(r: seq<MonthTotal>, m: map<string, int>)
    requires IsReportOf(r, m) && r != []
    ensures IsReportOf(r[1..], m - {r[0].month})
  {
    var a := r[0].month;
    forall e | e in r[1..] ensures e.month != a {
      var j :| 0 <= j < |r[1..]| && r[1..][j] == e;
      assert StrLess(a, r[j + 1].month);
      StrLessIrreflexive(a);
    }
    assert forall x :: x in r <==> x == r[0] || x in r[1..] by {
      assert r == [r[0]] + r[1..];
    }
    assert MonthsOf(r[1..]) == MonthsOf(r) - {a};
  }

  /** The `forEach` of `getMonthlyExpenses`: accumulates each expense into its month's bucket. */
  method AccumulateExpenses(s: seq<Transaction>) returns (monthlyData: map<string, int>)
    ensures monthlyData == Bucket(s)
  {
    monthlyData := map[];
    var i := 0;
    while i < |s|
      invariant 0 <= i <= |s|
      invariant monthlyData == Bucket(s[..i])
    {
      var t := s[i];
      ghost var before := monthlyData;
      if t.amount < 0 {
        var key := MonthKey(t.date);
        if key !in monthlyData || monthlyData[key] == 0 {
          monthlyData := monthlyData[key := 0];
        }
        monthlyData := monthlyData[key := monthlyData[key] + Abs(t.amount)];
      }
      assert monthlyData == AddExpense(before, t);
      assert s[..i + 1] == s[..i] + [t];
      assert s[..i + 1][..i] == s[..i];
      i := i + 1;
    }
    assert s[..|s|] == s;
  }

  /** `Object.entries(monthlyData).map(...).sort(...)`: the buckets as entries, ascending by month. */
  method SortedEntries(monthlyData: map<string, int>) returns (report: seq<MonthTotal>)
    ensures IsReportOf(report, monthlyData)
  {
    report := [];
    var pending := monthlyData.Keys;
    while pending != {}
      invariant pending <= monthlyData.Keys
      invariant StrictlySorted(report)
      invariant MonthsOf(report) == monthlyData.Keys - pending
      invariant forall e :: e in report ==> e.month in monthlyData && e.amount == monthlyData[e.month]
      decreases pending
    {
      var month :| month in pending;
      report := InsertSorted(report, MonthTotal(month, monthlyData[month]));
      pending := pending - {month};
    }
  }

  /** Every reported amount is the month's total of absolute expense amounts, and positive. */
  lemma ReportAmounts(report: seq<MonthTotal>, s: seq<Transaction>)
    requires IsReportOf(report, Bucket(s))
    ensures forall e :: e in report ==> e.amount == MonthlyTotal(s, e.month) && e.amount > 0
  {
    forall e | e in report
      ensures e.amount == MonthlyTotal(s, e.month) && e.amount > 0
    {
      BucketMeaning(s, e.month);
    }
  }

  /** A month is reported exactly when some expense falls in it. */
  lemma ReportMonths(report: seq<MonthTotal>, s: seq<Transaction>)
    requires IsReportOf(report, Bucket(s))
    ensures forall key :: key in MonthsOf(report) <==> HasExpenseIn(s, key)
  {
    forall key
      ensures key in MonthsOf(report) <==> HasExpenseIn(s, key)
    {
      BucketMeaning(s, key);
    }
  }

  /** The report is empty exactly when there are no expenses. */
  lemma ReportEmpty(report: seq<MonthTotal>, s: seq<Transaction>)
    requires IsReportOf(report, Bucket(s))
    ensures report == [] <==> forall j :: 0 <= j < |s| ==> s[j].amount >= 0
  {
    if report != [] {
      assert report[0].month in MonthsOf(report);
      BucketMeaning(s, report[0].month);
    }
    if exists j :: 0 <= j < |s| && s[j].amount < 0 {
      var j :| 0 <= j < |s| && s[j].amount < 0;
      var key := MonthKey(s[j].date);
      assert HasExpenseIn(s, key);
      BucketMeaning(s, key);
      assert key in MonthsOf(report);
    }
  }

  /** The seed data all falls in January 2025: one entry, 1330.70 in total. */
  lemma SeedMonthlyReport(report: seq<MonthTotal>)
    requires IsReportOf(report, Bucket(Seed()))
    ensures report == [MonthTotal("2025-01", 133070)]
  {
    assert MonthKey(Date(2025, 1, 15)) == "2025-01" && MonthKey(Date(2025, 1, 1)) == "2025-01"
        && MonthKey(Date(2025, 1, 10)) == "2025-01" by {
      assert Decimal(2025) == "2025" by {
        assert Decimal(2) == "2";
        assert Decimal(20) == "20";
        assert Decimal(202) == "202";
      }
      assert Decimal(1) == "1";
    }
    var s := Seed();
    assert s[..1] == [s[0]] && s[..2] == s[..1] + [s[1]] && s[..3] == s[..2] + [s[2]];
    assert s[..0] == [];
    assert Bucket(s[..1]) == map["2025-01" := 8550];
    assert Bucket(s[..2]) == map["2025-01" := 128550];
    assert Bucket(s[..3]) == map["2025-01" := 128550];
    assert s == s[..3] + [s[3]];
    assert Bucket(s) == map["2025-01" := 133070];
    var expected := [MonthTotal("2025-01", 133070)];
    assert MonthsOf(expected) == {"2025-01"};
    ReportUnique(report, expected, Bucket(s));
  }

  /** The store's module-level `transactions` array and its operations. */
  class TransactionStore {
    var transactions: seq<Transaction>

    constructor ()
      ensures transactions == Seed()
    {
      transactions := Seed();
    }

    /** `getAll`: the current records, in store order. */
    method GetAll() returns (r: seq<Transaction>)
      ensures r == transactions
    {
      r := transactions;
    }

    /** `getById`: the first record holding `id`, or nothing. */
    function GetById(id: string): (r: Option<Transaction>)
      reads this
      ensures r.None? <==> forall j :: 0 <= j < |transactions| ==> transactions[j].id != id
      ensures r.Some? ==> r.value.id == id
      ensures r.Some? ==> exists j :: 0 <= j < |transactions| && transactions[j] == r.value && (forall k :: 0 <= k < j ==> transactions[k].id != id)
    {
      match FindFirst(transactions, id)
      case None => None
      case Some(i) => Some(transactions[i])
    }

    /** `create`: keeps the input's fields, assigns `freshId`, defaults the date, appends. */
    method Create(input: NewTransaction, freshId: string, today: Date) returns (t: Transaction)
      modifies this
      ensures t.id == freshId
      ensures t.amount == input.amount && t.description == input.description
      ensures t.category == input.category
      ensures t.date == if input.date.Some? then input.date.value else today
      ensures transactions == old(transactions) + [t]
    {
      var date := if input.date.Some? then input.date.value else today;
      t := Transaction(freshId, input.amount, input.description, date, input.category);
      transactions := transactions + [t];
    }

    /** `update`: merges `updates` into the first record holding `id`, in place; `null` if none does. */
    method Update(id: string, updates: Patch) returns (r: Option<Transaction>)
      modifies this
      ensures FindFirst(old(transactions), id).None? ==> r.None? && transactions == old(transactions)
      ensures FindFirst(old(transactions), id).Some? ==>
                var i := FindFirst(old(transactions), id).value;
                transactions == old(transactions)[i := Merge(old(transactions)[i], updates)] &&
                r == Some(transactions[i])
    {
      var index := FindFirst(transactions, id);
      if index.Some? {
        var i := index.value;
        transactions := transactions[i := Merge(transactions[i], updates)];
        r := Some(transactions[i]);
      } else {
        r := None;
      }
    }

    /** `delete`: splices out the first record holding `id` and returns it; `null` if none does. */
    method Delete(id: string) returns (r: Option<Transaction>)
      modifies this
      ensures FindFirst(old(transactions), id).None? ==> r.None? && transactions == old(transactions)
      ensures FindFirst(old(transactions), id).Some? ==>
                var i := FindFirst(old(transactions), id).value;
                transactions == old(transactions)[..i] + old(transactions)[i + 1..] &&
                r == Some(old(transactions)[i])
    {
      var index := FindFirst(transactions, id);
      if index.Some? {
        var i := index.value;
        var deleted := transactions[i];
        transactions := transactions[..i] + transactions[i + 1..];
        r := Some(deleted);
      } else {
        r := None;
      }
    }

    /** `getMonthlyExpenses`: per month, the total of the expenses, ascending by month. */
    method GetMonthlyExpenses() returns (report: seq<MonthTotal>)
      ensures IsReportOf(report, Bucket(transactions))
    {
      var monthlyData := AccumulateExpenses(transactions);
      report := SortedEntries(monthlyData);
    }
  }
}
