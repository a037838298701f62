/** The "Add New Expense" form. */
module AddExpense {
  import opened Wrappers
  import opened FinanceTypes
  import opened FinanceContext

  /** `EXPENSE_CATEGORIES`, in button order. */
  const ExpenseCategories: seq<string> := [
    "Food & Dining", "Transportation", "Shopping", "Entertainment",
    "Bills & Utilities", "Health", "Education", "Investment",
    "Insurance", "Family", "Travel", "Other"
  ]

  /** Twelve distinct categories, none of them empty, so any button enables submitting. */
  lemma CategoriesWellFormed()
    ensures |ExpenseCategories| == 12
    ensures forall i, j :: 0 <= i < j < |ExpenseCategories| ==> ExpenseCategories[i] != ExpenseCategories[j]
    ensures forall i :: 0 <= i < |ExpenseCategories| ==> ExpenseCategories[i] != ""
  {
  }

  /** The form opens with every field empty, so nothing can be submitted before a category is chosen. */
  class AddExpenseScreen {
    var amount: string
    var description: string
    var category: string
    const finance: FinanceProvider

    constructor (finance: FinanceProvider)
      ensures amount == "" && description == "" && category == ""
      ensures this.finance == finance
    {
      amount := "";
      description := "";
      category := "";
      this.finance := finance;
    }

    method SetAmount(text: string)
      modifies this`amount
      ensures amount == text
    {
      amount := text;
    }

    method SetDescription(text: string)
      modifies this`description
      ensures description == text
    {
      description := text;
    }

    /** The category button at position i selects that listed category. */
    method PressCategory(i: nat)
      requires i < |ExpenseCategories|
      modifies this`category
      ensures category == ExpenseCategories[i] && category in ExpenseCategories && category != ""
    {
      CategoriesWellFormed();
      category := ExpenseCategories[i];
    }

    /**
     * `handleSubmit`: amount and category must be non-empty; the description
     * may be empty and is passed through as it is.
     */
    method HandleSubmit(parseFloat: string -> real, id: string, date: Instant) returns (wentBack: bool)
      modifies finance
      ensures wentBack <==> amount != "" && category != ""
      ensures wentBack ==>
        finance.data == WithExpense(old(finance.data), Expense(id, parseFloat(amount), category, date, description)) &&
        finance.saved == Some(finance.data)
      ensures !wentBack ==> finance.data == old(finance.data) && finance.saved == old(finance.saved)
    {
      wentBack := false;
      if amount != "" && category != "" {
        finance.AddExpense(ExpenseDraft(parseFloat(amount), category, description), id, date);
        wentBack := true;
      }
    }
  }
}
