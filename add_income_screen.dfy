/** The "Add New Income" form. */
module AddIncome {
  import opened Wrappers
  import opened FinanceTypes
  import opened FinanceContext

  /** The form opens with empty fields and the monthly frequency selected. */
  class AddIncomeScreen {
    var source: string
    var amount: string
    var frequency: Frequency
    const finance: FinanceProvider

    constructor (finance: FinanceProvider)
      ensures source == "" && amount == "" && frequency == Monthly
      ensures this.finance == finance
    {
      source := "";
      amount := "";
      frequency := Monthly;
      this.finance := finance;
    }

    method SetSource(text: string)
      modifies this`source
      ensures source == text
    {
      source := text;
    }

    method SetAmount(text: string)
      modifies this`amount
      ensures amount == text
    {
      amount := text;
    }

    /** A frequency button replaces the selection with its own value. */
    method PressFrequencyButton(freq: Frequency)
      modifies this`frequency
      ensures frequency == freq
    {
      frequency := freq;
    }

    /** `handleSubmit`: with a source and an amount, add the income and go back; otherwise do nothing. */
    method HandleSubmit(parseFloat: string -> real, id: string, date: Instant) returns (wentBack: bool)
      modifies finance
      ensures wentBack <==> source != "" && amount != ""
      ensures wentBack ==>
        finance.data == WithIncome(old(finance.data), Income(id, source, parseFloat(amount), frequency, date)) &&
        finance.saved == Some(finance.data)
      ensures !wentBack ==> finance.data == old(finance.data) && finance.saved == old(finance.saved)
    {
      wentBack := false;
      if source != "" && amount != "" {
        finance.AddIncome(IncomeDraft(source, parseFloat(amount), frequency), id, date);
        wentBack := true;
      }
    }
  }
}
