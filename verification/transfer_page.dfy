/** The Transfer page's submit handler: three checks in a fixed order, the
    first failure reported alone, and a simulated transfer that only flips the
    page's own `isProcessing` flag. The amount arrives already parsed: `None`
    stands for the `NaN` that `parseFloat` gives for text it cannot read. */
module TransferPage {
  import opened Wrappers
  import opened Text
  import opened AuthStore
  import opened Toasts

  datatype TransferForm = TransferForm(recipient: string, amount: string, description: string, isProcessing: bool)

  datatype Refusal = MissingRecipient | InvalidAmount | InsufficientBalance

  datatype TransferResult =
    | Refused(reason: Refusal, form: TransferForm)
    | Processing(amount: real, form: TransferForm)

  /** The toast shown for each refusal: always the error variant, titled
      "Insufficient Balance" for the balance check and "Error" otherwise. */
  function RefusalToast(reason: Refusal): (t: Toast)
    ensures t.destructive
    ensures t.title == (if reason == InsufficientBalance then "Insufficient Balance" else "Error")
    ensures reason == MissingRecipient ==> t.description == "Please enter a recipient matric number or phone number"
    ensures reason == InvalidAmount ==> t.description == "Please enter a valid amount"
    ensures reason == InsufficientBalance ==> t.description == "You don't have enough funds for this transfer"
  {
    match reason
    case MissingRecipient => Toast("Error", "Please enter a recipient matric number or phone number", true)
    case InvalidAmount => Toast("Error", "Please enter a valid amount", true)
    case InsufficientBalance => Toast("Insufficient Balance", "You don't have enough funds for this transfer", true)
  }

  /** The submit handler (`handleTransfer`). A refusal leaves the form as it was; acceptance only
      sets `isProcessing`. The profile is read, never written. */
  function HandleTransfer(form: TransferForm, parsed: Option<real>, profile: Option<Profile>): (r: TransferResult)
    ensures r.Refused? ==> r.form == form
    ensures r.Processing? ==> r.form == form.(isProcessing := true) && Some(r.amount) == parsed
    ensures r.Refused? && r.reason == MissingRecipient <==> AllWhitespace(form.recipient)
    ensures r.Refused? && r.reason == InvalidAmount <==>
      !AllWhitespace(form.recipient) && (parsed.None? || parsed.value <= 0.0)
    ensures r.Refused? && r.reason == InsufficientBalance <==>
      !AllWhitespace(form.recipient) && parsed.Some? && 0.0 < parsed.value && parsed.value > BalanceOrZero(profile)
    ensures r.Processing? <==>
      !AllWhitespace(form.recipient) && parsed.Some? && 0.0 < parsed.value <= BalanceOrZero(profile)
  {
    TrimEmptyIff(form.recipient);
    if Trim(form.recipient) == "" then Refused(MissingRecipient, form)
    else if parsed.None? || parsed.value <= 0.0 then Refused(InvalidAmount, form)
    else if parsed.value > BalanceOrZero(profile) then Refused(InsufficientBalance, form)
    else Processing(parsed.value, form.(isProcessing := true))
  }

  /** Without a profile the balance counts as zero, so every well-formed
      transfer is refused for insufficient funds. */
  lemma NoProfileRefusesEveryAmount(form: TransferForm, amount: real)
    requires !AllWhitespace(form.recipient) && amount > 0.0
    ensures HandleTransfer(form, Some(amount), None) == Refused(InsufficientBalance, form)
  {
  }

  /** The balance check is strict: sending exactly the whole balance passes. */
  lemma WholeBalancePasses(form: TransferForm, p: Profile)
    requires !AllWhitespace(form.recipient) && p.accountBalance > 0.0
    ensures HandleTransfer(form, Some(p.accountBalance), Some(p)).Processing?
  {
  }

  /** The timer callback two seconds later: every field is reset and the
      processing flag dropped. */
  function CompleteTransfer(form: TransferForm): (f: TransferForm)
    ensures f.recipient == "" && f.amount == "" && f.description == "" && !f.isProcessing
  {
    TransferForm("", "", "", false)
  }
}
