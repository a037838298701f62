/**
 * The finance tracker's record shapes. Amounts are exact reals; dates are
 * instants in milliseconds (the source stores them as ISO-8601 strings of
 * such instants).
 */
module FinanceTypes {

  type Instant = int

  /** The three kinds of asset; no other value can occur. */
  datatype AssetType = Equity | MutualFund | OtherAsset

  /** The three income frequencies; no other value can occur. */
  datatype Frequency = Monthly | Yearly | OneTime

  /** The string literal the source uses for each asset type. */
  function AssetTypeName(t: AssetType): string
  {
    match t
    case Equity => "equity"
    case MutualFund => "mutualFund"
    case OtherAsset => "other"
  }

  /** The string literal the source uses for each income frequency. */
  function FrequencyName(f: Frequency): string
  {
    match f
    case Monthly => "monthly"
    case Yearly => "yearly"
    case OneTime => "one-time"
  }

  datatype Asset = Asset(id: string, name: string, amount: real, assetType: AssetType, date: Instant)

  /** Category and description are free text. */
  datatype Expense = Expense(id: string, amount: real, category: string, date: Instant, description: string)

  datatype Income = Income(id: string, source: string, amount: real, frequency: Frequency, date: Instant)

  /** The whole ledger: three insertion-ordered sequences and nothing else. */
  datatype FinanceData = FinanceData(assets: seq<Asset>, expenses: seq<Expense>, incomes: seq<Income>)

  /** What a caller hands to an add operation: the record without its id and date. */
  datatype AssetDraft = AssetDraft(name: string, amount: real, assetType: AssetType)

  datatype ExpenseDraft = ExpenseDraft(amount: real, category: string, description: string)

  datatype IncomeDraft = IncomeDraft(source: string, amount: real, frequency: Frequency)

  /** The caller's fields with the generated id and date added. */
  function NewAsset(draft: AssetDraft, id: string, date: Instant): Asset
  {
    Asset(id, draft.name, draft.amount, draft.assetType, date)
  }

  function NewExpense(draft: ExpenseDraft, id: string, date: Instant): Expense
  {
    Expense(id, draft.amount, draft.category, date, draft.description)
  }

  function NewIncome(draft: IncomeDraft, id: string, date: Instant): Income
  {
    Income(id, draft.source, draft.amount, draft.frequency, date)
  }

  /** A record's caller fields: everything but its id and date. */
  function AssetDraftOf(a: Asset): AssetDraft
  {
    AssetDraft(a.name, a.amount, a.assetType)
  }

  function ExpenseDraftOf(e: Expense): ExpenseDraft
  {
    ExpenseDraft(e.amount, e.category, e.description)
  }

  function IncomeDraftOf(i: Income): IncomeDraft
  {
    IncomeDraft(i.source, i.amount, i.frequency)
  }

  /**
   * A new record is exactly the caller's fields plus the supplied id and date,
   * and any record is rebuilt from its draft, id and date.
   */
  lemma NewRecordsKeepDraft(a: AssetDraft, e: ExpenseDraft, i: IncomeDraft, id: string, date: Instant)
    ensures AssetDraftOf(NewAsset(a, id, date)) == a
    ensures NewAsset(a, id, date).id == id && NewAsset(a, id, date).date == date
    ensures ExpenseDraftOf(NewExpense(e, id, date)) == e
    ensures NewExpense(e, id, date).id == id && NewExpense(e, id, date).date == date
    ensures IncomeDraftOf(NewIncome(i, id, date)) == i
    ensures NewIncome(i, id, date).id == id && NewIncome(i, id, date).date == date
  {
  }

  lemma RecordsFromDrafts(a: Asset, e: Expense, i: Income)
    ensures NewAsset(AssetDraftOf(a), a.id, a.date) == a
    ensures NewExpense(ExpenseDraftOf(e), e.id, e.date) == e
    ensures NewIncome(IncomeDraftOf(i), i.id, i.date) == i
  {
  }

  /** The enumerations' literals are pairwise distinct, so the string form loses nothing. */
  lemma NamesDistinct(t: AssetType, u: AssetType, f: Frequency, g: Frequency)
    ensures AssetTypeName(t) == AssetTypeName(u) <==> t == u
    ensures FrequencyName(f) == FrequencyName(g) <==> f == g
  {
  }

  const EmptyLedger: FinanceData := FinanceData([], [], [])
}
