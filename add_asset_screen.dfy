/** The "Add New Asset" form. */
module AddAsset {
  import opened Wrappers
  import opened FinanceTypes
  import opened FinanceContext

  /** The form opens with empty fields and the equity type selected. */
  class AddAssetScreen {
    var name: string
    var amount: string
    var assetType: AssetType
    const finance: FinanceProvider

    constructor (finance: FinanceProvider)
      ensures name == "" && amount == "" && assetType == Equity
      ensures this.finance == finance
    {
      name := "";
      amount := "";
      assetType := Equity;
      this.finance := finance;
    }

    method SetName(text: string)
      modifies this`name
      ensures name == text
    {
      name := text;
    }

    method SetAmount(text: string)
      modifies this`amount
      ensures amount == text
    {
      amount := text;
    }

    /** A type button replaces the selection with its own value. */
    method PressTypeButton(buttonType: AssetType)
      modifies this`assetType
      ensures assetType == buttonType
    {
      assetType := buttonType;
    }

    /**
     * `handleSubmit`: with a name and an amount, add the asset built from the
     * form (the amount as `parseFloat` reads it) and go back; otherwise do
     * nothing. The id and date stand for what the clock gives at that moment.
     */
    method HandleSubmit(parseFloat: string -> real, id: string, date: Instant) returns (wentBack: bool)
      modifies finance
      ensures wentBack <==> name != "" && amount != ""
      ensures wentBack ==>
        finance.data == WithAsset(old(finance.data), Asset(id, name, parseFloat(amount), assetType, date)) &&
        finance.saved == Some(finance.data)
      ensures !wentBack ==> finance.data == old(finance.data) && finance.saved == old(finance.saved)
    {
      wentBack := false;
      if name != "" && amount != "" {
        finance.AddAsset(AssetDraft(name, parseFloat(amount), assetType), id, date);
        wentBack := true;
      }
    }
  }
}
