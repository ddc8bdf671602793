/** The M-Pesa page: a list of transactions, an STK-push dialog that prepends a
    new transaction, and a filter dialog that narrows the fixed transaction
    list by phone, amount, receipt and date. */
module Mpesa {
  import opened Collections
  import opened Text
  import opened Web

  datatype MpesaTransaction = MpesaTransaction(
    id: int,
    amount: real,
    phoneNumber: string,
    receiptNumber: string,
    transactionDate: string)

  const MockTransactions: seq<MpesaTransaction> := [
    MpesaTransaction(1, 8500.0, "254712345678", "QHJ8K9L0M1", "2025-01-03T14:30:00"),
    MpesaTransaction(2, 15000.0, "254723456789", "QHJ8K9L0M2", "2025-01-02T10:15:00"),
    MpesaTransaction(3, 12000.0, "254734567890", "QHJ8K9L0M3", "2025-01-01T16:45:00"),
    MpesaTransaction(4, 25000.0, "254745678901", "QHJ8K9L0M4", "2024-12-31T09:20:00")
  ]

  // ---------------------------------------------------------------------------
  // Phone numbers

  /** The display form of a phone number: a leading country code `254`
      becomes the local trunk prefix `0`; any other string is shown as is. */
  function FormatPhone(phone: string): (r: string)
    ensures StartsWith(phone, "254") ==> |r| == |phone| - 2 && r[0] == '0' && r[1..] == phone[3..]
    ensures !StartsWith(phone, "254") ==> r == phone
  {
    if StartsWith(phone, "254") then "0" + phone[3..] else phone
  }

  /** The number an STK push is sent to: a leading `0` or `+254` becomes
      `254`, anything else is kept. */
  function NormalisePhone(phone: string): (r: string)
    ensures StartsWith(phone, "0") ==> r == "254" + phone[1..]
    ensures !StartsWith(phone, "0") && StartsWith(phone, "+254") ==> r == "254" + phone[4..]
    ensures !StartsWith(phone, "0") && !StartsWith(phone, "+254") ==> r == phone
  {
    if StartsWith(phone, "0") then "254" + phone[1..]
    else if StartsWith(phone, "+254") then "254" + phone[4..]
    else phone
  }

  /** A local number survives the round trip through the push form and back
      to its display form. */
  lemma LocalNumberRoundTrip(phone: string)
    requires StartsWith(phone, "0")
    ensures FormatPhone(NormalisePhone(phone)) == phone
  {
    var n := NormalisePhone(phone);
    assert n[..3] == "254";
    assert "0" + n[3..] == "0" + phone[1..];
    assert phone == [phone[0]] + phone[1..];
  }

  /** An international `+254` number is displayed in its local form. */
  lemma InternationalNumberDisplaysLocal(phone: string)
    requires StartsWith(phone, "+254")
    ensures FormatPhone(NormalisePhone(phone)) == "0" + phone[4..]
  {
    var n := NormalisePhone(phone);
    assert !StartsWith(phone, "0") by { assert phone[0] == '+'; }
    assert n[..3] == "254";
    assert n[3..] == phone[4..];
  }

  /** Normalising never leaves a leading `0`, so normalising twice changes nothing. */
  lemma NormaliseIdempotent(phone: string)
    ensures !StartsWith(NormalisePhone(phone), "0")
    ensures NormalisePhone(NormalisePhone(phone)) == NormalisePhone(phone)
  {
    var n := NormalisePhone(phone);
    if StartsWith(phone, "0") || StartsWith(phone, "+254") {
      assert n[0] == '2';
      assert !StartsWith(n, "+254") by { assert n[0] != '+'; }
    }
  }

  /** `sendStkPush` goes ahead when a phone was typed and the amount is positive. */
  predicate StkPushAccepted(phone: string, amount: Option<real>)
  {
    !(phone == "" || amount.None? || amount.value == 0.0 || amount.value <= 0.0)
  }

  /** The guard looks at the untrimmed phone, so a phone of blanks is accepted
      and the push goes to the empty number. */
  lemma BlankPhoneIsAccepted(phone: string, amount: real)
    requires phone != [] && forall k :: 0 <= k < |phone| ==> IsJsWhitespace(phone[k])
    requires amount > 0.0
    ensures StkPushAccepted(phone, Some(amount))
    ensures NormalisePhone(Trim(phone)) == ""
  {
  }

  // ---------------------------------------------------------------------------
  // Filters

  /** The five filter fields of the dialog, as typed. */
  datatype TxFilters = TxFilters(
    phone: string,
    amount: string,
    receipt: string,
    startDate: string,
    endDate: string)

  const NoFilters := TxFilters("", "", "", "", "")

  /** What the page derives from the typed amount and dates before comparing:
      `parseFloat(filterAmount)` (`None` for NaN), and whether a transaction's
      date is on or after the start date, and on or before the end of the end
      date. */
  datatype ParsedFilters = ParsedFilters(
    amount: Option<real>,
    onOrAfterStart: MpesaTransaction -> bool,
    onOrBeforeEnd: MpesaTransaction -> bool)

  /** The phone filter: the typed text occurs in the raw number or in its display form. */
  predicate PhoneMatches(t: MpesaTransaction, query: string)
  {
    Includes(t.phoneNumber, query) || Includes(FormatPhone(t.phoneNumber), query)
  }

  /** The receipt filter: a case-insensitive substring match. */
  predicate ReceiptMatches(t: MpesaTransaction, query: string)
  {
    Includes(ToLower(t.receiptNumber), ToLower(query))
  }

  /** The receipt query ignores case: two queries that lower-case alike give
      the same answer. */
  lemma ReceiptQueryIgnoresCase(t: MpesaTransaction, q1: string, q2: string)
    requires ToLower(q1) == ToLower(q2)
    ensures ReceiptMatches(t, q1) <==> ReceiptMatches(t, q2)
  {
  }

  /** A piece of the receipt number finds the transaction whether it is typed
      as printed or in lower case. */
  lemma ReceiptPieceMatchesInEitherCase(t: MpesaTransaction, piece: string)
    requires Includes(t.receiptNumber, piece)
    ensures ReceiptMatches(t, piece) && ReceiptMatches(t, ToLower(piece))
  {
    IncludesLowered(t.receiptNumber, piece);
    ToLowerIdempotent(piece);
  }

  /** A transaction can be found by typing its number in either form:
      as stored, or as displayed. */
  lemma PhoneFilterFindsBothForms(t: MpesaTransaction)
    ensures PhoneMatches(t, t.phoneNumber)
    ensures PhoneMatches(t, FormatPhone(t.phoneNumber))
  {
    IncludesItsPrefix(t.phoneNumber, t.phoneNumber);
    IncludesItsPrefix(FormatPhone(t.phoneNumber), FormatPhone(t.phoneNumber));
  }

  /** `t` passes every filter whose field is filled in. */
  predicate TxMatches(t: MpesaTransaction, f: TxFilters, parsed: ParsedFilters)
  {
    && (f.phone != "" ==> PhoneMatches(t, f.phone))
    && (f.amount != "" ==> parsed.amount == Some(t.amount))
    && (f.receipt != "" ==> ReceiptMatches(t, f.receipt))
    && (f.startDate != "" ==> parsed.onOrAfterStart(t))
    && (f.endDate != "" ==> parsed.onOrBeforeEnd(t))
  }

  function TxMatcher(f: TxFilters, parsed: ParsedFilters): MpesaTransaction -> bool
  {
    (t: MpesaTransaction) => TxMatches(t, f, parsed)
  }

  // The single filter steps of `applyFilters`.
  function ByPhone(query: string): MpesaTransaction -> bool
  {
    (t: MpesaTransaction) => PhoneMatches(t, query)
  }

  function ByAmount(amount: Option<real>): MpesaTransaction -> bool
  {
    (t: MpesaTransaction) => amount == Some(t.amount)
  }

  function ByReceipt(query: string): MpesaTransaction -> bool
  {
    (t: MpesaTransaction) => ReceiptMatches(t, query)
  }

  ghost predicate TxStepNarrowsTo(txs: seq<MpesaTransaction>, f: TxFilters, g: TxFilters, parsed: ParsedFilters,
                                  step: MpesaTransaction -> bool)
  {
    Filter(Filter(txs, TxMatcher(f, parsed)), step) == Filter(txs, TxMatcher(g, parsed))
  }

  lemma PhoneStep(txs: seq<MpesaTransaction>, f: TxFilters, parsed: ParsedFilters, query: string)
    requires f.phone == "" && query != ""
    ensures TxStepNarrowsTo(txs, f, f.(phone := query), parsed, ByPhone(query))
  {
    FilterTwice(txs, TxMatcher(f, parsed), ByPhone(query), TxMatcher(f.(phone := query), parsed));
  }

  lemma AmountStep(txs: seq<MpesaTransaction>, f: TxFilters, parsed: ParsedFilters, typed: string)
    requires f.amount == "" && typed != ""
    ensures TxStepNarrowsTo(txs, f, f.(amount := typed), parsed, ByAmount(parsed.amount))
  {
    FilterTwice(txs, TxMatcher(f, parsed), ByAmount(parsed.amount), TxMatcher(f.(amount := typed), parsed));
  }

  lemma ReceiptStep(txs: seq<MpesaTransaction>, f: TxFilters, parsed: ParsedFilters, query: string)
    requires f.receipt == "" && query != ""
    ensures TxStepNarrowsTo(txs, f, f.(receipt := query), parsed, ByReceipt(query))
  {
    FilterTwice(txs, TxMatcher(f, parsed), ByReceipt(query), TxMatcher(f.(receipt := query), parsed));
  }

  lemma StartDateStep(txs: seq<MpesaTransaction>, f: TxFilters, parsed: ParsedFilters, typed: string)
    requires f.startDate == "" && typed != ""
    ensures TxStepNarrowsTo(txs, f, f.(startDate := typed), parsed, parsed.onOrAfterStart)
  {
    FilterTwice(txs, TxMatcher(f, parsed), parsed.onOrAfterStart, TxMatcher(f.(startDate := typed), parsed));
  }

  lemma EndDateStep(txs: seq<MpesaTransaction>, f: TxFilters, parsed: ParsedFilters, typed: string)
    requires f.endDate == "" && typed != ""
    ensures TxStepNarrowsTo(txs, f, f.(endDate := typed), parsed, parsed.onOrBeforeEnd)
  {
    FilterTwice(txs, TxMatcher(f, parsed), parsed.onOrBeforeEnd, TxMatcher(f.(endDate := typed), parsed));
  }

  /** With every filter field empty, every transaction is kept. */
  lemma NoFiltersKeepAll(txs: seq<MpesaTransaction>, parsed: ParsedFilters)
    ensures Filter(txs, TxMatcher(NoFilters, parsed)) == txs
  {
    FilterKeepsAll(txs, TxMatcher(NoFilters, parsed));
  }

  /** The filtered list is the matching transactions in their original order. */
  lemma FilteredAreOrderedMatches(txs: seq<MpesaTransaction>, f: TxFilters, parsed: ParsedFilters)
    ensures IsSubsequence(Filter(txs, TxMatcher(f, parsed)), txs)
    ensures forall t :: t in Filter(txs, TxMatcher(f, parsed)) <==> t in txs && TxMatches(t, f, parsed)
  {
    FilterIsSubsequence(txs, TxMatcher(f, parsed));
    forall t ensures t in Filter(txs, TxMatcher(f, parsed)) <==> t in txs && TxMatches(t, f, parsed) {
      FilterMembership(txs, TxMatcher(f, parsed), t);
    }
  }

  /** The filter chain of `applyFilters`: start from every transaction and
      apply, in order, the phone, amount, receipt, start-date and end-date
      filters whose fields are filled in. */
  method FilterTransactions(txs: seq<MpesaTransaction>, f: TxFilters, parsed: ParsedFilters)
    returns (filtered: seq<MpesaTransaction>)
    ensures filtered == Filter(txs, TxMatcher(f, parsed))
  {
    filtered := txs;
    ghost var applied := NoFilters;
    NoFiltersKeepAll(txs, parsed);

    if f.phone != "" {
      PhoneStep(txs, applied, parsed, f.phone);
      filtered := Filter(filtered, ByPhone(f.phone));
    }
    applied := applied.(phone := f.phone);

    if f.amount != "" {
      AmountStep(txs, applied, parsed, f.amount);
      filtered := Filter(filtered, ByAmount(parsed.amount));
    }
    applied := applied.(amount := f.amount);

    if f.receipt != "" {
      ReceiptStep(txs, applied, parsed, f.receipt);
      filtered := Filter(filtered, ByReceipt(f.receipt));
    }
    applied := applied.(receipt := f.receipt);

    if f.startDate != "" {
      StartDateStep(txs, applied, parsed, f.startDate);
      filtered := Filter(filtered, parsed.onOrAfterStart);
    }
    applied := applied.(startDate := f.startDate);

    if f.endDate != "" {
      EndDateStep(txs, applied, parsed, f.endDate);
      filtered := Filter(filtered, parsed.onOrBeforeEnd);
    }
    applied := applied.(endDate := f.endDate);
    assert applied == f;
  }

  // ---------------------------------------------------------------------------
  // The component

  class MpesaPage {
    var isLoading: bool
    var showPaymentDialog: bool
    var showFilterDialog: bool
    var mpesaMessages: seq<MpesaTransaction>

    // Payment dialog fields
    var paymentPhone: string
    var paymentAmount: Option<real>

    // Filter fields
    var filterPhone: string
    var filterAmount: string
    var filterReceipt: string
    var filterStartDate: string
    var filterEndDate: string

    const mockTransactions: seq<MpesaTransaction>

    constructor ()
      ensures mockTransactions == MockTransactions && mpesaMessages == []
      ensures !isLoading && !showPaymentDialog && !showFilterDialog
      ensures paymentPhone == "" && paymentAmount == None
      ensures CurrentFilters() == NoFilters
    {
      mockTransactions := MockTransactions;
      isLoading, showPaymentDialog, showFilterDialog, mpesaMessages := false, false, false, [];
      paymentPhone, paymentAmount := "", None;
      filterPhone, filterAmount, filterReceipt, filterStartDate, filterEndDate := "", "", "", "", "";
    }

    function CurrentFilters(): TxFilters
      reads this
    {
      TxFilters(filterPhone, filterAmount, filterReceipt, filterStartDate, filterEndDate)
    }

    /** `fetchMpesaMessages`, its timer taken as fired at once: show every transaction. */
    method FetchMpesaMessages()
      modifies this`isLoading, this`mpesaMessages
      ensures mpesaMessages == mockTransactions && !isLoading
    {
      isLoading := true;
      mpesaMessages := mockTransactions;
      isLoading := false;
    }

    method OpenPaymentDialog()
      modifies this`showPaymentDialog, this`paymentPhone, this`paymentAmount
      ensures showPaymentDialog && paymentPhone == "" && paymentAmount == None
    {
      showPaymentDialog := true;
      paymentPhone := "";
      paymentAmount := None;
    }

    method ClosePaymentDialog()
      modifies this`showPaymentDialog
      ensures !showPaymentDialog
    {
      showPaymentDialog := false;
    }

    /** `sendStkPush`, its timer taken as fired at once. The new transaction's
        id, the random part of its receipt number and its date are what
        `Date.now()`, `Math.random()` and `new Date()` would give. A refused
        push changes nothing; an accepted one puts exactly one transaction,
        carrying the normalised phone and the entered amount, in front of the
        existing ones and closes the dialog. */
    method SendStkPush(id: int, receiptSuffix: string, now: string) returns (sent: bool, notice: Notice)
      modifies this`mpesaMessages, this`showPaymentDialog
      ensures sent <==> StkPushAccepted(paymentPhone, paymentAmount)
      ensures sent ==> (mpesaMessages ==
                          [MpesaTransaction(id, paymentAmount.value, NormalisePhone(Trim(paymentPhone)),
                                            "QHJ" + receiptSuffix, now)] + old(mpesaMessages))
      ensures sent ==> !showPaymentDialog && notice == Notice("STK push sent successfully!", Success)
      ensures !sent ==> mpesaMessages == old(mpesaMessages) && showPaymentDialog == old(showPaymentDialog)
      ensures !sent ==> notice == Notice("Please enter valid phone number and amount", Warning)
    {
      if paymentPhone == "" || paymentAmount.None? || paymentAmount.value == 0.0 || paymentAmount.value <= 0.0 {
        return false, Notice("Please enter valid phone number and amount", Warning);
      }

      var phone := Trim(paymentPhone);
      if StartsWith(phone, "0") {
        phone := "254" + phone[1..];
      } else if StartsWith(phone, "+254") {
        phone := "254" + phone[4..];
      }

      var newTransaction := MpesaTransaction(id, paymentAmount.value, phone, "QHJ" + receiptSuffix, now);
      mpesaMessages := [newTransaction] + mpesaMessages;
      ClosePaymentDialog();
      sent, notice := true, Notice("STK push sent successfully!", Success);
    }

    method OpenFilterDialog()
      modifies this`showFilterDialog
      ensures showFilterDialog
    {
      showFilterDialog := true;
    }

    method CloseFilterDialog()
      modifies this`showFilterDialog
      ensures !showFilterDialog
    {
      showFilterDialog := false;
    }

    /** `applyFilters`: show the mock transactions that pass every filled-in
        filter, in their original order, and close the dialog. */
    method ApplyFilters(parsed: ParsedFilters)
      modifies this`mpesaMessages, this`showFilterDialog
      ensures mpesaMessages == Filter(mockTransactions, TxMatcher(CurrentFilters(), parsed))
      ensures !showFilterDialog
    {
      var filtered := FilterTransactions(mockTransactions, CurrentFilters(), parsed);
      mpesaMessages := filtered;
      CloseFilterDialog();
    }

    /** `clearFilters`: empty the five filter fields, show every transaction
        again and close the dialog. */
    method ClearFilters()
      modifies this`filterPhone, this`filterAmount, this`filterReceipt, this`filterStartDate,
               this`filterEndDate, this`mpesaMessages, this`showFilterDialog
      ensures CurrentFilters() == NoFilters
      ensures mpesaMessages == mockTransactions
      ensures !showFilterDialog
    {
      filterPhone := "";
      filterAmount := "";
      filterReceipt := "";
      filterStartDate := "";
      filterEndDate := "";
      mpesaMessages := mockTransactions;
      CloseFilterDialog();
    }
  }
}
