/**
 * The ledger container (`FinanceProvider`): an append-only store of assets,
 * expenses and incomes, with the net worth derived from it and the snapshot
 * last handed to persistence.
 */
module FinanceContext {
  import opened Wrappers
  import opened Summation
  import opened FinanceTypes

  function AssetAmount(a: Asset): real { a.amount }
  function ExpenseAmount(e: Expense): real { e.amount }
  function IncomeAmount(i: Income): real { i.amount }

  function TotalAssets(d: FinanceData): real { SumBy(d.assets, AssetAmount) }
  function TotalExpenses(d: FinanceData): real { SumBy(d.expenses, ExpenseAmount) }
  function TotalIncome(d: FinanceData): real { SumBy(d.incomes, IncomeAmount) }

  /** `calculateNetWorth`: assets plus incomes minus expenses, from scratch. */
  function NetWorth(d: FinanceData): real
  {
    TotalAssets(d) + TotalIncome(d) - TotalExpenses(d)
  }

  /** The ledger appended with one asset, as `addAsset` builds it. */
  function WithAsset(d: FinanceData, a: Asset): FinanceData
  {
    d.(assets := d.assets + [a])
  }

  function WithExpense(d: FinanceData, e: Expense): FinanceData
  {
    d.(expenses := d.expenses + [e])
  }

  function WithIncome(d: FinanceData, i: Income): FinanceData
  {
    d.(incomes := d.incomes + [i])
  }

  lemma NetWorthOfEmptyLedger()
    ensures NetWorth(EmptyLedger) == 0.0
  {
  }

  /**
   * Each append grows only its own sequence, by exactly one record at the end,
   * leaving the old records as a prefix and the other sequences identical.
   */
  lemma AppendOnly(d: FinanceData, a: Asset, e: Expense, i: Income)
    ensures var n := WithAsset(d, a);
      |n.assets| == |d.assets| + 1 && n.assets[..|d.assets|] == d.assets && n.assets[|d.assets|] == a &&
      n.expenses == d.expenses && n.incomes == d.incomes
    ensures var n := WithExpense(d, e);
      |n.expenses| == |d.expenses| + 1 && n.expenses[..|d.expenses|] == d.expenses && n.expenses[|d.expenses|] == e &&
      n.assets == d.assets && n.incomes == d.incomes
    ensures var n := WithIncome(d, i);
      |n.incomes| == |d.incomes| + 1 && n.incomes[..|d.incomes|] == d.incomes && n.incomes[|d.incomes|] == i &&
      n.assets == d.assets && n.expenses == d.expenses
  {
  }

  /** Adding an asset of amount a raises net worth by a. */
  lemma NetWorthAfterAsset(d: FinanceData, a: Asset)
    ensures NetWorth(WithAsset(d, a)) == NetWorth(d) + a.amount
  {
    SumByAppend(d.assets, a, AssetAmount);
  }

  /** Adding an expense of amount a lowers net worth by a. */
  lemma NetWorthAfterExpense(d: FinanceData, e: Expense)
    ensures NetWorth(WithExpense(d, e)) == NetWorth(d) - e.amount
  {
    SumByAppend(d.expenses, e, ExpenseAmount);
  }

  /** Adding an income of amount a raises net worth by a. */
  lemma NetWorthAfterIncome(d: FinanceData, i: Income)
    ensures NetWorth(WithIncome(d, i)) == NetWorth(d) + i.amount
  {
    SumByAppend(d.incomes, i, IncomeAmount);
  }

  /** The order of records in any of the three sequences does not affect net worth. */
  lemma NetWorthOrderIndependent(d: FinanceData, d': FinanceData)
    requires multiset(d.assets) == multiset(d'.assets)
    requires multiset(d.expenses) == multiset(d'.expenses)
    requires multiset(d.incomes) == multiset(d'.incomes)
    ensures NetWorth(d) == NetWorth(d')
  {
    SumByPermutation(d.assets, d'.assets, AssetAmount);
    SumByPermutation(d.expenses, d'.expenses, ExpenseAmount);
    SumByPermutation(d.incomes, d'.incomes, IncomeAmount);
  }

  /** One add operation, as a value, for stating what a run of adds does. */
  datatype AddOp = AddAssetOp(asset: Asset) | AddExpenseOp(expense: Expense) | AddIncomeOp(income: Income)

  function Apply(d: FinanceData, op: AddOp): FinanceData
  {
    match op
    case AddAssetOp(a) => WithAsset(d, a)
    case AddExpenseOp(e) => WithExpense(d, e)
    case AddIncomeOp(i) => WithIncome(d, i)
  }

  function ApplyAll(d: FinanceData, ops: seq<AddOp>): FinanceData
    decreases |ops|
  {
    if ops == [] then d else ApplyAll(Apply(d, ops[0]), ops[1..])
  }

  /** The signed amount an add contributes to net worth. */
  function Delta(op: AddOp): real
  {
    match op
    case AddAssetOp(a) => a.amount
    case AddExpenseOp(e) => -e.amount
    case AddIncomeOp(i) => i.amount
  }

  function DeltaSum(ops: seq<AddOp>): real
  {
    SumBy(ops, Delta)
  }

  /**
   * After any run of adds, net worth is the old net worth plus the signed
   * amounts added, and no sequence has shrunk: the old ones are prefixes.
   */
  lemma {:induction false} ApplyAllNetWorth(d: FinanceData, ops: seq<AddOp>)
    ensures NetWorth(ApplyAll(d, ops)) == NetWorth(d) + DeltaSum(ops)
    ensures var n := ApplyAll(d, ops);
      d.assets <= n.assets && d.expenses <= n.expenses && d.incomes <= n.incomes
    decreases |ops|
  {
    if ops != [] {
      var op := ops[0];
      var d1 := Apply(d, op);
      match op {
        case AddAssetOp(a) => NetWorthAfterAsset(d, a);
        case AddExpenseOp(e) => NetWorthAfterExpense(d, e);
        case AddIncomeOp(i) => NetWorthAfterIncome(d, i);
      }
      ApplyAllNetWorth(d1, ops[1..]);
      assert ops == [op] + ops[1..];
      SumByCons(op, ops[1..], Delta);
    }
  }

  /** Starting from the empty ledger, net worth is the sum of the signed amounts of all adds. */
  lemma NetWorthFromScratch(ops: seq<AddOp>)
    ensures NetWorth(ApplyAll(EmptyLedger, ops)) == DeltaSum(ops)
  {
    ApplyAllNetWorth(EmptyLedger, ops);
  }

  /**
   * The provider's state: the ledger `data` and the snapshot last handed to
   * `saveData` (None until the first add). Storage itself is not modelled.
   */
  class FinanceProvider {
    var data: FinanceData
    var saved: Option<FinanceData>

    constructor ()
      ensures data == EmptyLedger && saved == None
      ensures NetWorth(data) == 0.0
    {
      data := EmptyLedger;
      saved := None;
    }

    /** The `netWorth` field of the context value. */
    function CurrentNetWorth(): real
      reads this
    {
      NetWorth(data)
    }

    method AddAsset(draft: AssetDraft, id: string, date: Instant)
      modifies this
      ensures data.assets == old(data.assets) + [Asset(id, draft.name, draft.amount, draft.assetType, date)]
      ensures data.expenses == old(data.expenses) && data.incomes == old(data.incomes)
      ensures saved == Some(data)
      ensures CurrentNetWorth() == old(CurrentNetWorth()) + draft.amount
    {
      var newAsset := NewAsset(draft, id, date);
      var newData := WithAsset(data, newAsset);
      NetWorthAfterAsset(data, newAsset);
      data := newData;
      saved := Some(newData);
    }

    method AddExpense(draft: ExpenseDraft, id: string, date: Instant)
      modifies this
      ensures data.expenses == old(data.expenses) + [Expense(id, draft.amount, draft.category, date, draft.description)]
      ensures data.assets == old(data.assets) && data.incomes == old(data.incomes)
      ensures saved == Some(data)
      ensures CurrentNetWorth() == old(CurrentNetWorth()) - draft.amount
    {
      var newExpense := NewExpense(draft, id, date);
      var newData := WithExpense(data, newExpense);
      NetWorthAfterExpense(data, newExpense);
      data := newData;
      saved := Some(newData);
    }

    method AddIncome(draft: IncomeDraft, id: string, date: Instant)
      modifies this
      ensures data.incomes == old(data.incomes) + [Income(id, draft.source, draft.amount, draft.frequency, date)]
      ensures data.assets == old(data.assets) && data.expenses == old(data.expenses)
      ensures saved == Some(data)
      ensures CurrentNetWorth() == old(CurrentNetWorth()) + draft.amount
    {
      var newIncome := NewIncome(draft, id, date);
      var newData := WithIncome(data, newIncome);
      NetWorthAfterIncome(data, newIncome);
      data := newData;
      saved := Some(newData);
    }
  }

  const OutsideProviderMessage := "useFinance must be used within a FinanceProvider"

  /** `useFinance`: reading the context with no provider above is an error. */
  function UseFinance<C>(context: Option<C>): (r: Result<C, string>)
    ensures r.Ok? <==> context.Some?
    ensures r.Ok? ==> r.value == context.value
    ensures r.Err? ==> r.error == OutsideProviderMessage
  {
    match context
    case Some(c) => Ok(c)
    case None => Err(OutsideProviderMessage)
  }
}
