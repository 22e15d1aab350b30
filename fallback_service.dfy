/**
 * The fallback service (src/lib/fallbackService.js): the in-memory backend
 * the API routes use when the database is not available. It forwards to the
 * store, maps a failed delete to `null`, and computes the transaction
 * statistics from a snapshot of the store.
 *
 * The 100 ms `setTimeout` before each call is left out.
 */
module FallbackService {
  import opened Wrappers
  import opened Transactions
  import opened MonthKeys
  import opened Store

  /** `{ totalIncome, totalExpenses, balance, transactionCount }`, in cents. */
  datatype Stats = Stats(totalIncome: int, totalExpenses: int, balance: int, transactionCount: nat)

  /** `{ success: true }`. */
  datatype Deleted = Deleted(success: bool)

  /** What a record adds to the income total. */
  function Income(t: Transaction): nat
  {
    if t.amount > 0 then t.amount else 0
  }

  /** What a record adds to the expense total. */
  function Expense(t: Transaction): nat
  {
    if t.amount < 0 then Abs(t.amount) else 0
  }

  /** `filter(amount > 0).reduce(sum + amount, 0)`. */
  function TotalIncome(s: seq<Transaction>): (r: int)
    ensures r >= 0
  {
    if s == [] then 0 else TotalIncome(s[..|s| - 1]) + Income(s[|s| - 1])
  }

  /** `filter(amount < 0).reduce(sum + Math.abs(amount), 0)`. */
  function TotalExpenses(s: seq<Transaction>): (r: int)
    ensures r >= 0
  {
    if s == [] then 0 else TotalExpenses(s[..|s| - 1]) + Expense(s[|s| - 1])
  }

  /** Reference definition: the plain sum of every amount, zero amounts included. */
  function NetTotal(s: seq<Transaction>): int
  {
    if s == [] then 0 else s[0].amount + NetTotal(s[1..])
  }

  /** The statistics of a snapshot. With whole cents every rounding is exact. */
  function TransactionStats(s: seq<Transaction>): Stats
  {
    var income := TotalIncome(s);
    var expenses := TotalExpenses(s);
    Stats(income, expenses, income - expenses, |s|)
  }

  /** Both totals split over a concatenation. */
  lemma {:induction false} TotalsOfConcat(a: seq<Transaction>, b: seq<Transaction>)
    ensures TotalIncome(a + b) == TotalIncome(a) + TotalIncome(b)
    ensures TotalExpenses(a + b) == TotalExpenses(a) + TotalExpenses(b)
  {
    if b == [] {
      assert a + b == a;
    } else {
      var p := b[..|b| - 1];
      assert (a + b)[..|a + b| - 1] == a + p;
      assert (a + b)[|a + b| - 1] == b[|b| - 1];
      TotalsOfConcat(a, p);
    }
  }

  /** The balance is the sum of all amounts, and both totals are non-negative. */
  lemma {:induction false} BalanceIsNetTotal(s: seq<Transaction>)
    ensures TransactionStats(s).balance == NetTotal(s)
    ensures TransactionStats(s).totalIncome >= 0 && TransactionStats(s).totalExpenses >= 0
  {
    if s != [] {
      BalanceIsNetTotal(s[1..]);
      TotalsOfConcat([s[0]], s[1..]);
      assert [s[0]] + s[1..] == s;
      assert [s[0]][..0] == [];
    }
  }

  /** An empty store reports zero everywhere. */
  lemma EmptyStats()
    ensures TransactionStats([]) == Stats(0, 0, 0, 0)
  {
  }

  /** Appending a record (what `create` does) moves each statistic by that record alone. */
  lemma StatsAfterAppend(s: seq<Transaction>, t: Transaction)
    ensures var before, after := TransactionStats(s), TransactionStats(s + [t]);
      after == Stats(before.totalIncome + Income(t), before.totalExpenses + Expense(t),
                     before.balance + t.amount, before.transactionCount + 1)
  {
    assert (s + [t])[..|s|] == s;
  }

  /** A zero-amount record counts, but adds to neither total. */
  lemma ZeroAmountOnlyCounts(s: seq<Transaction>, t: Transaction)
    requires t.amount == 0
    ensures var before, after := TransactionStats(s), TransactionStats(s + [t]);
      after.totalIncome == before.totalIncome && after.totalExpenses == before.totalExpenses &&
      after.balance == before.balance && after.transactionCount == before.transactionCount + 1
  {
    StatsAfterAppend(s, t);
  }

  /** Removing the record at `i` (what `delete` does) takes out exactly its share. */
  lemma StatsAfterRemoval(s: seq<Transaction>, i: nat)
    requires i < |s|
    ensures var before, after := TransactionStats(s), TransactionStats(s[..i] + s[i + 1..]);
      after == Stats(before.totalIncome - Income(s[i]), before.totalExpenses - Expense(s[i]),
                     before.balance - s[i].amount, before.transactionCount - 1)
  {
    assert s == s[..i] + [s[i]] + s[i + 1..];
    TotalsOfConcat(s[..i] + [s[i]], s[i + 1..]);
    TotalsOfConcat(s[..i], [s[i]]);
    TotalsOfConcat(s[..i], s[i + 1..]);
    assert [s[i]][..0] == [];
  }

  /** Replacing the record at `i` (what `update` does) swaps its share for the new one's. */
  lemma StatsAfterReplace(s: seq<Transaction>, i: nat, u: Transaction)
    requires i < |s|
    ensures var before, after := TransactionStats(s), TransactionStats(s[i := u]);
      after == Stats(before.totalIncome - Income(s[i]) + Income(u),
                     before.totalExpenses - Expense(s[i]) + Expense(u),
                     before.balance - s[i].amount + u.amount, before.transactionCount)
  {
    assert s == s[..i] + [s[i]] + s[i + 1..];
    assert s[i := u] == s[..i] + [u] + s[i + 1..];
    TotalsOfConcat(s[..i] + [s[i]], s[i + 1..]);
    TotalsOfConcat(s[..i] + [u], s[i + 1..]);
    TotalsOfConcat(s[..i], [s[i]]);
    TotalsOfConcat(s[..i], [u]);
    assert [s[i]][..0] == [] && [u][..0] == [];
  }

  /** The seed data: income 3000.00, expenses 1330.70, balance 1669.30, four records. */
  lemma SeedStats()
    ensures TransactionStats(Seed()) == Stats(300000, 133070, 166930, 4)
  {
    var s := Seed();
    assert s[..1][..0] == [] && s[..2][..1] == s[..1] && s[..3][..2] == s[..2] && s[..3] == s[..|s| - 1];
    assert TotalIncome(s[..1]) == 0 && TotalExpenses(s[..1]) == 8550;
    assert TotalIncome(s[..2]) == 0 && TotalExpenses(s[..2]) == 128550;
    assert TotalIncome(s[..3]) == 300000 && TotalExpenses(s[..3]) == 128550;
  }

  function SumAmounts(report: seq<MonthTotal>): int
  {
    if report == [] then 0 else report[0].amount + SumAmounts(report[1..])
  }

  /** The monthly totals of the months in `keys`, added up. */
  function SumMonthlyTotals(s: seq<Transaction>, keys: seq<string>): int
  {
    if keys == [] then 0 else MonthlyTotal(s, keys[0]) + SumMonthlyTotals(s, keys[1..])
  }

  predicate Distinct(keys: seq<string>)
  {
    forall i, j :: 0 <= i < j < |keys| ==> keys[i] != keys[j]
  }

  /** One more record adds its expense to the month among `keys` that it falls in, if any. */
  lemma {:induction false} SumMonthlyTotalsAppend(p: seq<Transaction>, t: Transaction, keys: seq<string>)
    requires Distinct(keys)
    ensures SumMonthlyTotals(p + [t], keys) ==
              SumMonthlyTotals(p, keys) + (if MonthKey(t.date) in keys then Expense(t) else 0)
  {
    if keys != [] {
      assert (p + [t])[..|p|] == p;
      assert Distinct(keys[1..]) by {
        forall i, j | 0 <= i < j < |keys[1..]| ensures keys[1..][i] != keys[1..][j] {
          assert keys[1..][i] == keys[i + 1] && keys[1..][j] == keys[j + 1];
        }
      }
      SumMonthlyTotalsAppend(p, t, keys[1..]);
      assert MonthKey(t.date) in keys <==> MonthKey(t.date) == keys[0] || MonthKey(t.date) in keys[1..] by {
        assert keys == [keys[0]] + keys[1..];
      }
      if MonthKey(t.date) == keys[0] {
        assert MonthKey(t.date) !in keys[1..] by {
          forall j | 0 <= j < |keys[1..]| ensures keys[1..][j] != keys[0] {
            assert keys[1..][j] == keys[j + 1];
          }
        }
      }
    }
  }

  /** Over distinct keys covering every expense month, the monthly totals add up to the expenses. */
  lemma {:induction false} MonthlyTotalsCoverExpenses(s: seq<Transaction>, keys: seq<string>)
    requires Distinct(keys)
    requires forall j :: 0 <= j < |s| && s[j].amount < 0 ==> MonthKey(s[j].date) in keys
    ensures SumMonthlyTotals(s, keys) == TotalExpenses(s)
  {
    if s == [] {
      forall keys': seq<string> ensures SumMonthlyTotals([], keys') == 0 {
        ZeroTotalsOfEmpty(keys');
      }
    } else {
      var p, t := s[..|s| - 1], s[|s| - 1];
      assert forall j :: 0 <= j < |p| ==> p[j] == s[j];
      MonthlyTotalsCoverExpenses(p, keys);
      SumMonthlyTotalsAppend(p, t, keys);
      assert p + [t] == s;
    }
  }

  lemma {:induction false} ZeroTotalsOfEmpty(keys: seq<string>)
    ensures SumMonthlyTotals([], keys) == 0
  {
    if keys != [] {
      ZeroTotalsOfEmpty(keys[1..]);
    }
  }

  function Months(report: seq<MonthTotal>): (keys: seq<string>)
    ensures |keys| == |report| && forall i :: 0 <= i < |report| ==> keys[i] == report[i].month
  {
    if report == [] then [] else [report[0].month] + Months(report[1..])
  }

  lemma {:induction false} SumAmountsIsSumOfMonthlyTotals(report: seq<MonthTotal>, s: seq<Transaction>)
    requires forall e :: e in report ==> e.amount == MonthlyTotal(s, e.month)
    ensures SumAmounts(report) == SumMonthlyTotals(s, Months(report))
  {
    if report != [] {
      assert report[0] in report;
      SumAmountsIsSumOfMonthlyTotals(report[1..], s);
      assert Months(report)[1..] == Months(report[1..]);
    }
  }

  /** The monthly report adds up to the expense total of the statistics. */
  lemma MonthlyReportSumsToExpenses(report: seq<MonthTotal>, s: seq<Transaction>)
    requires IsReportOf(report, Bucket(s))
    ensures SumAmounts(report) == TransactionStats(s).totalExpenses
  {
    ReportAmounts(report, s);
    ReportMonths(report, s);
    SumAmountsIsSumOfMonthlyTotals(report, s);
    var keys := Months(report);
    forall i, j | 0 <= i < j < |keys| ensures keys[i] != keys[j] {
      StrLessIrreflexive(keys[i]);
    }
    forall j | 0 <= j < |s| && s[j].amount < 0 ensures MonthKey(s[j].date) in keys {
      assert HasExpenseIn(s, MonthKey(s[j].date));
      var e :| e in report && e.month == MonthKey(s[j].date);
      var i :| 0 <= i < |report| && report[i] == e;
      assert keys[i] == e.month;
    }
    MonthlyTotalsCoverExpenses(s, keys);
  }

  /** `getAllTransactions`. */
  method GetAllTransactions(store: TransactionStore) returns (r: seq<Transaction>)
    ensures r == store.transactions
  {
    r := store.GetAll();
  }

  /** `createTransaction`. */
  method CreateTransaction(store: TransactionStore, data: NewTransaction, freshId: string, today: Date)
    returns (t: Transaction)
    modifies store
    ensures t.id == freshId && t.amount == data.amount && t.description == data.description
    ensures t.category == data.category
    ensures t.date == if data.date.Some? then data.date.value else today
    ensures store.transactions == old(store.transactions) + [t]
  {
    t := store.Create(data, freshId, today);
  }

  /** `updateTransaction`: the store's result, `null` for an unknown id. */
  method UpdateTransaction(store: TransactionStore, id: string, updates: Patch) returns (r: Option<Transaction>)
    modifies store
    ensures FindFirst(old(store.transactions), id).None? ==> r.None? && store.transactions == old(store.transactions)
    ensures FindFirst(old(store.transactions), id).Some? ==>
              var i := FindFirst(old(store.transactions), id).value;
              store.transactions == old(store.transactions)[i := Merge(old(store.transactions)[i], updates)] &&
              r == Some(store.transactions[i])
  {
    r := store.Update(id, updates);
  }

  /** `deleteTransaction`: `{ success: true }` when the store found the id, `null` otherwise. */
  method DeleteTransaction(store: TransactionStore, id: string) returns (r: Option<Deleted>)
    modifies store
    ensures r.Some? <==> FindFirst(old(store.transactions), id).Some?
    ensures r.Some? ==> r.value == Deleted(true)
    ensures FindFirst(old(store.transactions), id).None? ==> store.transactions == old(store.transactions)
    ensures FindFirst(old(store.transactions), id).Some? ==>
              var i := FindFirst(old(store.transactions), id).value;
              store.transactions == old(store.transactions)[..i] + old(store.transactions)[i + 1..]
  {
    var result := store.Delete(id);
    r := if result.Some? then Some(Deleted(true)) else None;
  }

  /** With unique ids, deleting the same id twice succeeds once and answers `null` the second time. */
  method DeleteTwice(store: TransactionStore, id: string) returns (first: Option<Deleted>, second: Option<Deleted>)
    requires UniqueIds(store.transactions)
    modifies store
    ensures first.Some? <==> FindFirst(old(store.transactions), id).Some?
    ensures second.None?
  {
    ghost var before := store.transactions;
    first := DeleteTransaction(store, id);
    if first.Some? {
      RemovedIsGone(before, FindFirst(before, id).value);
    }
    second := DeleteTransaction(store, id);
  }

  /** `getMonthlyExpenses`. */
  method GetMonthlyExpenses(store: TransactionStore) returns (report: seq<MonthTotal>)
    ensures IsReportOf(report, Bucket(store.transactions))
  {
    report := store.GetMonthlyExpenses();
  }

  /** `getTransactionStats`: reads a snapshot and changes nothing. */
  method GetTransactionStats(store: TransactionStore) returns (stats: Stats)
    ensures stats == TransactionStats(store.transactions)
  {
    var transactions := store.GetAll();
    var totalIncome := TotalIncome(transactions);
    var totalExpenses := TotalExpenses(transactions);
    stats := Stats(totalIncome, totalExpenses, totalIncome - totalExpenses, |transactions|);
  }

  /** Two statistics calls with nothing in between agree. */
  method StatsTwice(store: TransactionStore) returns (first: Stats, second: Stats)
    ensures first == second
  {
    first := GetTransactionStats(store);
    second := GetTransactionStats(store);
  }
}
