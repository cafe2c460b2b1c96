/** The History page: a fixed list of sample transactions, each printed with
    a sign, a magnitude and a colour. Digit grouping (`toLocaleString`) is left
    abstract: the printed amount is the sign and the magnitude it formats. */
module HistoryPage {

  datatype Kind = Received | Sent

  datatype Entry = Entry(id: int, kind: Kind, name: string, description: string, amount: real, date: string)

  /** The page's constant list, in display order. */
  const Entries: seq<Entry> := [
    Entry(1, Received, "Transfer from John", "Monthly allowance", 50000.0, "Today, 2:30 PM"),
    Entry(2, Sent, "POS Payment", "Chicken Republic", -3500.0, "Today, 11:45 AM"),
    Entry(3, Sent, "Airtime Purchase", "MTN ₦1,000", -1000.0, "Yesterday, 6:20 PM"),
    Entry(4, Sent, "Electricity Bill", "IKEDC Prepaid", -5000.0, "Yesterday, 3:15 PM"),
    Entry(5, Received, "Refund", "Online Purchase", 2500.0, "Dec 28, 2024"),
    Entry(6, Sent, "Transfer to Sarah", "Book payment", -8000.0, "Dec 27, 2024")
  ]

  /** A printed amount: its leading sign and the magnitude after the currency symbol. */
  datatype Printed = Printed(sign: char, magnitude: real)

  datatype Colour = Red | Green

  /** `formatAmount`: "-" for a negative amount, "+" otherwise, then |amount|. */
  function FormatAmount(amount: real): (p: Printed)
    ensures p.sign == '-' <==> amount < 0.0
    ensures p.sign == '+' <==> amount >= 0.0
    ensures p.magnitude >= 0.0
    ensures p.magnitude == amount || p.magnitude == -amount
  {
    Printed(if amount < 0.0 then '-' else '+', if amount < 0.0 then -amount else amount)
  }

  /** The amount a reader takes from a printed one. */
  function ReadAmount(p: Printed): (amount: real)
    ensures amount == p.magnitude || amount == -p.magnitude
  {
    if p.sign == '-' then -p.magnitude else p.magnitude
  }

  /** Reading back a printed amount gives the amount, zero included. */
  lemma ReadFormatRoundTrip(amount: real)
    ensures ReadAmount(FormatAmount(amount)) == amount
  {
  }

  /** Two amounts print alike only if they are equal. */
  lemma FormatAmountInjective(a: real, b: real)
    requires FormatAmount(a) == FormatAmount(b)
    ensures a == b
  {
    ReadFormatRoundTrip(a);
    ReadFormatRoundTrip(b);
  }

  /** The colour of the amount: red exactly for negative amounts. */
  function AmountColour(amount: real): (c: Colour)
    ensures c == Red <==> amount < 0.0
  {
    if amount < 0.0 then Red else Green
  }

  /** Colour and sign never disagree. */
  lemma ColourAgreesWithSign(amount: real)
    ensures AmountColour(amount) == Red <==> FormatAmount(amount).sign == '-'
    ensures AmountColour(amount) == Green <==> FormatAmount(amount).sign == '+'
  {
  }

  /** The list is consistent: ids are distinct, sent entries take money out
      and received entries bring it in, so every entry prints with the sign
      of its kind. */
  lemma EntriesConsistent()
    ensures forall i, j :: 0 <= i < j < |Entries| ==> Entries[i].id != Entries[j].id
    ensures forall i :: 0 <= i < |Entries| ==> (Entries[i].kind == Sent <==> Entries[i].amount < 0.0)
    ensures forall i :: 0 <= i < |Entries| ==> (Entries[i].kind == Received <==> Entries[i].amount > 0.0)
    ensures forall i :: 0 <= i < |Entries| ==>
      (FormatAmount(Entries[i].amount).sign == '-' <==> Entries[i].kind == Sent)
  {
  }
}
