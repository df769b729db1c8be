/**
 * The decision chain of validateInvoiceDetails: a pair of invoices (one from
 * the customer, one from the vendor) checked against the agreement they name.
 * The store reads that feed it (the agreement record, whether its billing
 * period was already invoiced) are made by UFAChainCode.Ledger; here they are
 * inputs. The checks run in a fixed order and only the first that fires is
 * reported.
 */
module Reconciliation {
  import opened Wrappers
  import opened JsonCodec
  import opened Numbers

  // The two longer lines are written as two literals so that their characters can be indexed in proofs.
  const MissingInvoiceMsg := "\nInvoice is missing " + "for Customer or Vendor"
  const InvalidUfaMsg := "\nInvalid UFA provided"
  const AmountsDifferMsg := "\nCustomer and Vendor " + "Invoice Amounts are not same"
  const TotalExceededMsg := "\nTotal invoice amount exceded"

  function AlreadyRaisedMsg(billingPeriod: string): string {
    "\nInvoice all already raised for " + billingPeriod
  }

  /** The most that may be invoiced under an agreement: the net charge plus the tolerance percentage of it. */
  function MaxCharge(ufa: Option<Fields>): real {
    var netCharge := ValidateNumber(Field(ufa, "netCharge"));
    netCharge + netCharge * ValidateNumber(Field(ufa, "chargTolrence")) / 100.0
  }

  /** What has been invoiced under the agreement so far. */
  function RaisedTotal(ufa: Option<Fields>): real {
    ValidateNumber(Field(ufa, "raisedInvTotal"))
  }

  function InvoiceAmount(invoice: Option<Fields>): real {
    ValidateNumber(Field(invoice, "invoiceAmt"))
  }

  /** The checks after the agreement has been read, in their order. */
  function CheckPair(first: Option<Fields>, second: Option<Fields>, ufa: Option<Fields>, periodRaised: bool): string {
    if periodRaised then AlreadyRaisedMsg(Field(first, "billingPeriod"))
    else if InvoiceAmount(first) != InvoiceAmount(second) then AmountsDifferMsg
    else if MaxCharge(ufa) < InvoiceAmount(first) + RaisedTotal(ufa) then TotalExceededMsg
    else ""
  }

  /**
   * The message for the decoded `invoices`. `ufaReadFails` is whether the ledger
   * reported an error reading the agreement named by the first invoice, `ufa`
   * that agreement as decoded, and `periodRaised` whether its invoice index
   * already holds an invoice for the first invoice's billing period.
   */
  function ReconcileDecision(invoices: seq<Option<Fields>>, ufaReadFails: bool, ufa: Option<Fields>, periodRaised: bool): (msg: string)
    ensures msg == MissingInvoiceMsg <==> |invoices| < 2
    ensures msg == InvalidUfaMsg <==> |invoices| >= 2 && ufaReadFails
    ensures |invoices| >= 2 && !ufaReadFails ==>
      var amount := InvoiceAmount(invoices[0]);
      && (msg == AlreadyRaisedMsg(Field(invoices[0], "billingPeriod")) <==> periodRaised)
      && (msg == AmountsDifferMsg <==> !periodRaised && amount != InvoiceAmount(invoices[1]))
      && (msg == TotalExceededMsg <==>
            !periodRaised && amount == InvoiceAmount(invoices[1]) && MaxCharge(ufa) < amount + RaisedTotal(ufa))
      && (msg == "" <==>
            !periodRaised && amount == InvoiceAmount(invoices[1]) && amount + RaisedTotal(ufa) <= MaxCharge(ufa))
  {
    if |invoices| < 2 then MissingInvoiceMsg
    else if ufaReadFails then InvalidUfaMsg
    else
      var period := Field(invoices[0], "billingPeriod");
      MessagesDistinct(period);
      CheckPair(invoices[0], invoices[1], ufa, periodRaised)
  }

  /** No two of the five message lines are the same text, whatever the billing period. */
  lemma MessagesDistinct(period: string)
    ensures var raised := AlreadyRaisedMsg(period);
      && raised != MissingInvoiceMsg && raised != InvalidUfaMsg
      && raised != AmountsDifferMsg && raised != TotalExceededMsg
      && MissingInvoiceMsg != InvalidUfaMsg && MissingInvoiceMsg != AmountsDifferMsg
      && InvalidUfaMsg != AmountsDifferMsg
      && TotalExceededMsg != MissingInvoiceMsg && TotalExceededMsg != InvalidUfaMsg
      && TotalExceededMsg != AmountsDifferMsg
  {
    var raised := AlreadyRaisedMsg(period);
    assert raised[1] == 'I' && raised[4] == 'o' && raised[9] == 'a';
    assert MissingInvoiceMsg[1] == 'I' && MissingInvoiceMsg[4] == 'o' && MissingInvoiceMsg[9] == 'i';
    assert AmountsDifferMsg[1] == 'C';
    assert InvalidUfaMsg[1] == 'I' && InvalidUfaMsg[4] == 'a';
    assert TotalExceededMsg[1] == 'T';
  }

  /** Whatever is supplied, the message is empty or exactly one of the five message lines. */
  lemma AtMostOneViolation(invoices: seq<Option<Fields>>, ufaReadFails: bool, ufa: Option<Fields>, periodRaised: bool)
    ensures var msg := ReconcileDecision(invoices, ufaReadFails, ufa, periodRaised);
      || msg == ""
      || msg == MissingInvoiceMsg
      || msg == InvalidUfaMsg
      || (|invoices| >= 2 && msg == AlreadyRaisedMsg(Field(invoices[0], "billingPeriod")))
      || msg == AmountsDifferMsg
      || msg == TotalExceededMsg
  {
  }

  /** Only the first two invoices are consulted. */
  lemma OnlyFirstPairConsulted(invoices: seq<Option<Fields>>, ufaReadFails: bool, ufa: Option<Fields>, periodRaised: bool)
    requires |invoices| >= 2
    ensures ReconcileDecision(invoices, ufaReadFails, ufa, periodRaised)
         == ReconcileDecision(invoices[..2], ufaReadFails, ufa, periodRaised)
  {
  }

  /** Two invoices of different amounts are refused whichever comes first, once the period is free. */
  lemma UnequalAmountsEitherOrder(a: Option<Fields>, b: Option<Fields>, ufa: Option<Fields>)
    requires InvoiceAmount(a) != InvoiceAmount(b)
    ensures ReconcileDecision([a, b], false, ufa, false) == AmountsDifferMsg
    ensures ReconcileDecision([b, a], false, ufa, false) == AmountsDifferMsg
  {
  }

  /**
   * An agreement with net charge 1000 and tolerance 5% and nothing invoiced yet
   * (no raisedInvTotal field, read as -1) accepts a pair of 1040 invoices, and
   * refuses the same pair once the billing period is already in its invoice index.
   */
  lemma ScenarioWithinTolerance(ufa: Fields, first: Fields, second: Fields)
    requires "netCharge" in ufa && ufa["netCharge"] == "1000"
    requires "chargTolrence" in ufa && ufa["chargTolrence"] == "5"
    requires "raisedInvTotal" !in ufa
    requires "invoiceAmt" in first && first["invoiceAmt"] == "1040"
    requires "invoiceAmt" in second && second["invoiceAmt"] == "1040"
    ensures ReconcileDecision([Some(first), Some(second)], false, Some(ufa), false) == ""
    ensures ReconcileDecision([Some(first), Some(second)], false, Some(ufa), true)
         == AlreadyRaisedMsg(Field(Some(first), "billingPeriod"))
  {
    LiteralThousand();
    LiteralFive();
    LiteralThousandForty();
    var u := Some(ufa);
    assert Field(u, "raisedInvTotal") == "";
    assert RaisedTotal(u) == -1.0;
    assert ValidateNumber(Field(u, "netCharge")) == 1000.0;
    assert ValidateNumber(Field(u, "chargTolrence")) == 5.0;
    assert MaxCharge(u) == 1050.0;
    assert InvoiceAmount(Some(first)) == 1040.0 == InvoiceAmount(Some(second));
  }

  lemma LiteralThousand()
    ensures ParseFloat("1000") == Some(1000.0)
  {
    assert "1000"[..3] == "100" && "100"[..2] == "10" && "10"[..1] == "1";
    assert DigitsValue("1000") == 1000;
  }

  lemma LiteralFive()
    ensures ParseFloat("5") == Some(5.0)
  {
    assert "5"[..0] == "";
  }

  lemma LiteralThousandForty()
    ensures ParseFloat("1040") == Some(1040.0)
  {
    assert "1040"[..3] == "104" && "104"[..2] == "10" && "10"[..1] == "1";
    assert DigitsValue("1040") == 1040;
  }

  /**
   * An agreement that does not exist reads as an empty record, not as an error:
   * every number in it is -1, so a pair of invoices whose amounts do not parse
   * passes every check.
   */
  lemma MissingAgreementAccepted(first: Option<Fields>, second: Option<Fields>)
    requires ParseFloat(Field(first, "invoiceAmt")).None?
    requires ParseFloat(Field(second, "invoiceAmt")).None?
    ensures ReconcileDecision([first, second], false, None, false) == ""
  {
    assert ParseFloat("") == None;
    assert MaxCharge(None) == -0.99;
  }
}
