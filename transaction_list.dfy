/**
 * The transaction history: the three record kinds projected to one signed,
 * described shape, merged newest first, and filtered by time window.
 */
module TransactionList {
  import opened Summation
  import opened FinanceTypes
  import opened FinanceContext

  datatype TransactionKind = AssetKind | ExpenseKind | IncomeKind

  datatype Transaction = Transaction(id: string, kind: TransactionKind, amount: real, date: Instant, description: string)

  /** The filter buttons; the screen opens on "this month". */
  datatype Filter = All | ThisMonth

  const DefaultFilter: Filter := ThisMonth

  /** The `type` string a transaction carries. */
  function KindName(k: TransactionKind): string
  {
    match k
    case AssetKind => "asset"
    case ExpenseKind => "expense"
    case IncomeKind => "income"
  }

  /** `getTransactionIcon`: it takes any string and falls back to a circle. */
  function TransactionIcon(kind: string): string
  {
    if kind == "asset" then "briefcase"
    else if kind == "expense" then "arrow-down"
    else if kind == "income" then "arrow-up"
    else "circle"
  }

  lemma IconMap(s: string)
    ensures TransactionIcon(KindName(AssetKind)) == "briefcase"
    ensures TransactionIcon(KindName(ExpenseKind)) == "arrow-down"
    ensures TransactionIcon(KindName(IncomeKind)) == "arrow-up"
    ensures (forall k :: s != KindName(k)) ==> TransactionIcon(s) == "circle"
  {
    if forall k :: s != KindName(k) {
      assert s != KindName(AssetKind) && s != KindName(ExpenseKind) && s != KindName(IncomeKind);
    }
  }

  function AssetTransaction(a: Asset): Transaction
  {
    Transaction(a.id, AssetKind, a.amount, a.date, a.name + " (" + AssetTypeName(a.assetType) + ")")
  }

  function ExpenseTransaction(e: Expense): Transaction
  {
    Transaction(e.id, ExpenseKind, -e.amount, e.date, e.category + ": " + e.description)
  }

  function IncomeTransaction(i: Income): Transaction
  {
    Transaction(i.id, IncomeKind, i.amount, i.date, i.source + " (" + FrequencyName(i.frequency) + ")")
  }

  function AssetTransactions(s: seq<Asset>): seq<Transaction>
  {
    seq(|s|, k requires 0 <= k < |s| => AssetTransaction(s[k]))
  }

  function ExpenseTransactions(s: seq<Expense>): seq<Transaction>
  {
    seq(|s|, k requires 0 <= k < |s| => ExpenseTransaction(s[k]))
  }

  function IncomeTransactions(s: seq<Income>): seq<Transaction>
  {
    seq(|s|, k requires 0 <= k < |s| => IncomeTransaction(s[k]))
  }

  /** The asset, then the expense, then the income transactions, before sorting. */
  function Projected(d: FinanceData): seq<Transaction>
  {
    AssetTransactions(d.assets) + ExpenseTransactions(d.expenses) + IncomeTransactions(d.incomes)
  }

  /** Newest first: no transaction is older than one after it. */
  ghost predicate NewestFirst(s: seq<Transaction>)
  {
    forall i, j :: 0 <= i < j < |s| ==> s[i].date >= s[j].date
  }

  /** Puts t before the first transaction not newer than it (so ties keep input order). */
  function Insert(t: Transaction, s: seq<Transaction>): seq<Transaction>
  {
    if s == [] || s[0].date <= t.date then [t] + s else [s[0]] + Insert(t, s[1..])
  }

  /** The `sort` by descending date. */
  function SortNewestFirst(s: seq<Transaction>): seq<Transaction>
  {
    if s == [] then [] else Insert(s[0], SortNewestFirst(s[1..]))
  }

  /** `getAllTransactions` */
  function AllTransactions(d: FinanceData): seq<Transaction>
  {
    SortNewestFirst(Projected(d))
  }

  /** The transactions dated on or after the month start, in their order. */
  function Since(s: seq<Transaction>, startOfMonth: Instant): seq<Transaction>
  {
    if s == [] then []
    else (if s[0].date >= startOfMonth then [s[0]] else []) + Since(s[1..], startOfMonth)
  }

  /** `filterTransactions`; the month start is computed by the caller's clock. */
  function FilterTransactions(filter: Filter, startOfMonth: Instant, s: seq<Transaction>): seq<Transaction>
  {
    match filter
    case ThisMonth => Since(s, startOfMonth)
    case All => s
  }

  /** What the list shows. */
  function Displayed(d: FinanceData, filter: Filter, startOfMonth: Instant): seq<Transaction>
  {
    FilterTransactions(filter, startOfMonth, AllTransactions(d))
  }

  /** r keeps some of the elements of s, in their order. */
  ghost predicate IsSubsequence(r: seq<Transaction>, s: seq<Transaction>)
    decreases |s|
  {
    if s == [] then r == []
    else (r != [] && r[0] == s[0] && IsSubsequence(r[1..], s[1..])) || IsSubsequence(r, s[1..])
  }

  // ---------------------------------------------------------------- projection

  /**
   * Position by position, the projection is the assets, then the expenses,
   * then the incomes, each carrying its record's id and date, its kind, its
   * signed amount and its description.
   */
  lemma ProjectedShape(d: FinanceData)
    ensures |Projected(d)| == |d.assets| + |d.expenses| + |d.incomes|
    ensures forall k :: 0 <= k < |d.assets| ==>
      var t := Projected(d)[k]; var a := d.assets[k];
      t.id == a.id && t.date == a.date && t.kind == AssetKind && t.amount == a.amount &&
      t.description == a.name + " (" + AssetTypeName(a.assetType) + ")"
    ensures forall k :: 0 <= k < |d.expenses| ==>
      var t := Projected(d)[|d.assets| + k]; var e := d.expenses[k];
      t.id == e.id && t.date == e.date && t.kind == ExpenseKind && t.amount == -e.amount &&
      t.description == e.category + ": " + e.description
    ensures forall k :: 0 <= k < |d.incomes| ==>
      var t := Projected(d)[|d.assets| + |d.expenses| + k]; var i := d.incomes[k];
      t.id == i.id && t.date == i.date && t.kind == IncomeKind && t.amount == i.amount &&
      t.description == i.source + " (" + FrequencyName(i.frequency) + ")"
  {
  }

  function TransactionAmount(t: Transaction): real { t.amount }

  /** Summing the signed amounts of the projection gives the net worth. */
  lemma ProjectedSumsToNetWorth(d: FinanceData)
    ensures SumBy(Projected(d), TransactionAmount) == NetWorth(d)
  {
    var ta := AssetTransactions(d.assets);
    var te := ExpenseTransactions(d.expenses);
    var ti := IncomeTransactions(d.incomes);
    SumByConcat(ta + te, ti, TransactionAmount);
    SumByConcat(ta, te, TransactionAmount);
    SumByImage(d.assets, ta, TransactionAmount, AssetAmount);
    SumByImage(d.expenses, te, TransactionAmount, NegatedExpenseAmount);
    SumByImage(d.incomes, ti, TransactionAmount, IncomeAmount);
    NegatedSum(d.expenses);
  }

  function NegatedExpenseAmount(e: Expense): real { -e.amount }

  lemma {:induction false} NegatedSum(s: seq<Expense>)
    ensures SumBy(s, NegatedExpenseAmount) == -SumBy(s, ExpenseAmount)
    decreases |s|
  {
    if s != [] {
      NegatedSum(s[..|s| - 1]);
    }
  }

  // ---------------------------------------------------------------- sorting

  lemma {:induction false} InsertKeeps(t: Transaction, s: seq<Transaction>)
    ensures multiset(Insert(t, s)) == multiset(s) + multiset{t}
    ensures |Insert(t, s)| == |s| + 1
    decreases |s|
  {
    if !(s == [] || s[0].date <= t.date) {
      InsertKeeps(t, s[1..]);
      assert s == [s[0]] + s[1..];
    }
  }

  lemma {:induction false} InsertSorted(t: Transaction, s: seq<Transaction>)
    requires NewestFirst(s)
    ensures NewestFirst(Insert(t, s))
    decreases |s|
  {
    if !(s == [] || s[0].date <= t.date) {
      InsertSorted(t, s[1..]);
      InsertKeeps(t, s[1..]);
      var r := Insert(t, s[1..]);
      forall x | x in r ensures s[0].date >= x.date {
        assert x in multiset(r);
        assert x == t || x in multiset(s[1..]);
      }
      forall i, j | 0 <= i < j < |[s[0]] + r| ensures ([s[0]] + r)[i].date >= ([s[0]] + r)[j].date {
        if i == 0 {
          assert ([s[0]] + r)[j] in r;
        }
      }
    }
  }

  /** The sort yields a newest-first permutation of its input. */
  lemma {:induction false} SortNewestFirstCorrect(s: seq<Transaction>)
    ensures NewestFirst(SortNewestFirst(s))
    ensures multiset(SortNewestFirst(s)) == multiset(s)
    ensures |SortNewestFirst(s)| == |s|
    decreases |s|
  {
    if s != [] {
      SortNewestFirstCorrect(s[1..]);
      InsertSorted(s[0], SortNewestFirst(s[1..]));
      InsertKeeps(s[0], SortNewestFirst(s[1..]));
      assert s == [s[0]] + s[1..];
    }
  }

  /**
   * The merged list has one transaction per record, is newest first and is a
   * permutation of the projection; its signed amounts add up to the net worth.
   */
  lemma AllTransactionsCorrect(d: FinanceData)
    ensures |AllTransactions(d)| == |d.assets| + |d.expenses| + |d.incomes|
    ensures NewestFirst(AllTransactions(d))
    ensures multiset(AllTransactions(d)) == multiset(Projected(d))
    ensures SumBy(AllTransactions(d), TransactionAmount) == NetWorth(d)
  {
    SortNewestFirstCorrect(Projected(d));
    ProjectedShape(d);
    ProjectedSumsToNetWorth(d);
    SumByPermutation(AllTransactions(d), Projected(d), TransactionAmount);
  }

  lemma AssetTransactionsFrom(s: seq<Asset>, t: Transaction)
    ensures t in AssetTransactions(s) <==> exists a :: a in s && t == AssetTransaction(a)
  {
    if a :| a in s && t == AssetTransaction(a) {
      var k :| 0 <= k < |s| && s[k] == a;
      assert AssetTransactions(s)[k] == t;
    }
  }

  lemma ExpenseTransactionsFrom(s: seq<Expense>, t: Transaction)
    ensures t in ExpenseTransactions(s) <==> exists e :: e in s && t == ExpenseTransaction(e)
  {
    if e :| e in s && t == ExpenseTransaction(e) {
      var k :| 0 <= k < |s| && s[k] == e;
      assert ExpenseTransactions(s)[k] == t;
    }
  }

  lemma IncomeTransactionsFrom(s: seq<Income>, t: Transaction)
    ensures t in IncomeTransactions(s) <==> exists i :: i in s && t == IncomeTransaction(i)
  {
    if i :| i in s && t == IncomeTransaction(i) {
      var k :| 0 <= k < |s| && s[k] == i;
      assert IncomeTransactions(s)[k] == t;
    }
  }

  /** Every merged transaction comes from a record and every record gives one. */
  lemma AllTransactionsFromRecords(d: FinanceData, t: Transaction)
    ensures t in AllTransactions(d) <==>
      (exists a :: a in d.assets && t == AssetTransaction(a)) ||
      (exists e :: e in d.expenses && t == ExpenseTransaction(e)) ||
      (exists i :: i in d.incomes && t == IncomeTransaction(i))
  {
    SortNewestFirstCorrect(Projected(d));
    assert t in AllTransactions(d) <==> t in multiset(AllTransactions(d));
    assert t in Projected(d) <==> t in multiset(Projected(d));
    AssetTransactionsFrom(d.assets, t);
    ExpenseTransactionsFrom(d.expenses, t);
    IncomeTransactionsFrom(d.incomes, t);
  }

  // ---------------------------------------------------------------- filtering

  /** "This month" keeps every copy of each transaction dated on or after the month start. */
  lemma {:induction false} SinceMultiset(s: seq<Transaction>, startOfMonth: Instant)
    ensures forall t ::
      (multiset(Since(s, startOfMonth))[t] == if t.date >= startOfMonth then multiset(s)[t] else 0)
    decreases |s|
  {
    if s != [] {
      SinceMultiset(s[1..], startOfMonth);
      assert s == [s[0]] + s[1..];
      assert multiset(s) == multiset{s[0]} + multiset(s[1..]);
      var head := if s[0].date >= startOfMonth then [s[0]] else [];
      assert multiset(Since(s, startOfMonth)) == multiset(head) + multiset(Since(s[1..], startOfMonth));
    }
  }

  /** "This month" keeps the order of the transactions it keeps. */
  lemma {:induction false} SinceSubsequence(s: seq<Transaction>, startOfMonth: Instant)
    ensures IsSubsequence(Since(s, startOfMonth), s)
    decreases |s|
  {
    if s != [] {
      SinceSubsequence(s[1..], startOfMonth);
      var r := Since(s, startOfMonth);
      if s[0].date >= startOfMonth {
        assert r[1..] == Since(s[1..], startOfMonth);
      } else {
        assert r == Since(s[1..], startOfMonth);
      }
    }
  }

  /**
   * "This month" keeps exactly the transactions dated on or after the month start,
   * every copy of each, in order.
   */
  lemma SinceExact(s: seq<Transaction>, startOfMonth: Instant)
    ensures forall t :: t in Since(s, startOfMonth) <==> t in s && t.date >= startOfMonth
    ensures forall t ::
      (multiset(Since(s, startOfMonth))[t] == if t.date >= startOfMonth then multiset(s)[t] else 0)
    ensures IsSubsequence(Since(s, startOfMonth), s)
  {
    SinceMultiset(s, startOfMonth);
    SinceSubsequence(s, startOfMonth);
    forall t ensures t in Since(s, startOfMonth) <==> t in s && t.date >= startOfMonth {
      assert t in Since(s, startOfMonth) <==> t in multiset(Since(s, startOfMonth));
      assert t in s <==> t in multiset(s);
    }
  }

  /** A subsequence of a newest-first list is newest first. */
  lemma {:induction false} SubsequenceNewestFirst(r: seq<Transaction>, s: seq<Transaction>)
    requires IsSubsequence(r, s) && NewestFirst(s)
    ensures NewestFirst(r)
    ensures forall t :: t in r ==> t in s
    decreases |s|
  {
    if s != [] {
      assert NewestFirst(s[1..]) by {
        forall i, j | 0 <= i < j < |s[1..]| ensures s[1..][i].date >= s[1..][j].date {
          assert s[1..][i] == s[i + 1] && s[1..][j] == s[j + 1];
        }
      }
      if r != [] && r[0] == s[0] && IsSubsequence(r[1..], s[1..]) {
        SubsequenceNewestFirst(r[1..], s[1..]);
        assert r == [r[0]] + r[1..];
        assert s == [s[0]] + s[1..];
        forall t | t in r[1..] ensures s[0].date >= t.date {
          var k :| 1 <= k < |s| && s[k] == t;
        }
        forall i, j | 0 <= i < j < |r| ensures r[i].date >= r[j].date {
          if i > 0 {
            assert r[i] == r[1..][i - 1] && r[j] == r[1..][j - 1];
          } else {
            assert r[j] in r[1..];
          }
        }
      } else {
        SubsequenceNewestFirst(r, s[1..]);
      }
    }
  }

  /**
   * The shown list is a newest-first subsequence of the merged list: all of it
   * for "all", and exactly the transactions since the month start for "this month".
   */
  lemma DisplayedCorrect(d: FinanceData, filter: Filter, startOfMonth: Instant)
    ensures filter == All ==> Displayed(d, filter, startOfMonth) == AllTransactions(d)
    ensures filter == ThisMonth ==> forall t :: t in Displayed(d, filter, startOfMonth) <==>
      t in AllTransactions(d) && t.date >= startOfMonth
    ensures filter == ThisMonth ==> forall t ::
      (multiset(Displayed(d, filter, startOfMonth))[t] ==
       if t.date >= startOfMonth then multiset(AllTransactions(d))[t] else 0)
    ensures IsSubsequence(Displayed(d, filter, startOfMonth), AllTransactions(d))
    ensures NewestFirst(Displayed(d, filter, startOfMonth))
  {
    AllTransactionsCorrect(d);
    SinceExact(AllTransactions(d), startOfMonth);
    SubsequenceReflexive(AllTransactions(d));
    SubsequenceNewestFirst(Displayed(d, filter, startOfMonth), AllTransactions(d));
  }

  lemma {:induction false} SubsequenceReflexive(s: seq<Transaction>)
    ensures IsSubsequence(s, s)
    decreases |s|
  {
    if s != [] {
      SubsequenceReflexive(s[1..]);
    }
  }

  // ---------------------------------------------------------------- worked example

  /**
   * One asset of 100, one expense of 40 and one income of 50, all dated now:
   * "all time" lists the three transactions, the expense at -40, the others positive.
   */
  lemma WorkedExampleAllTime(now: Instant, startOfMonth: Instant)
    ensures var d := FinanceData([Asset("1", "Fund", 100.0, MutualFund, now)],
                                 [Expense("2", 40.0, "Food", now, "lunch")],
                                 [Income("3", "Salary", 50.0, Monthly, now)]);
      var shown := Displayed(d, All, startOfMonth);
      |shown| == 3 &&
      (forall t :: t in shown && t.kind == ExpenseKind ==> t.amount == -40.0) &&
      (forall t :: t in shown && t.kind != ExpenseKind ==> t.amount > 0.0)
  {
    var a := Asset("1", "Fund", 100.0, MutualFund, now);
    var e := Expense("2", 40.0, "Food", now, "lunch");
    var i := Income("3", "Salary", 50.0, Monthly, now);
    var d := FinanceData([a], [e], [i]);
    var p := [AssetTransaction(a), ExpenseTransaction(e), IncomeTransaction(i)];
    assert Projected(d) == p;
    assert SortNewestFirst(p[2..]) == [p[2]];
    assert p[1..][1..] == p[2..];
    assert SortNewestFirst(p[1..]) == p[1..];
    assert AllTransactions(d) == p;
  }

  /** "This month" drops a record dated before the month start and keeps one dated now. */
  lemma WorkedExampleThisMonth(now: Instant, startOfMonth: Instant, earlier: Instant)
    requires earlier < startOfMonth <= now
    ensures var d := FinanceData([Asset("1", "Fund", 100.0, MutualFund, earlier)], [],
                                 [Income("3", "Salary", 50.0, Monthly, now)]);
      Displayed(d, ThisMonth, startOfMonth) == [IncomeTransaction(Income("3", "Salary", 50.0, Monthly, now))]
  {
    var a := Asset("1", "Fund", 100.0, MutualFund, earlier);
    var i := Income("3", "Salary", 50.0, Monthly, now);
    var d := FinanceData([a], [], [i]);
    var p := [AssetTransaction(a), IncomeTransaction(i)];
    assert Projected(d) == p;
    assert SortNewestFirst(p[1..]) == [p[1]];
    assert [p[1]][1..] == [];
    assert Insert(p[0], [p[1]]) == [p[1]] + Insert(p[0], []);
    assert AllTransactions(d) == [p[1], p[0]];
    assert Since([p[0]], startOfMonth) == [];
  }
}
