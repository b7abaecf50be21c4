/**
 * The wallet screen: the cash/credit ledger, its purchase and withdrawal
 * handlers with their insufficient-funds guards, the modal cell that opens
 * the purchase and withdrawal dialogs, and the classification of ledger rows.
 */
module Wallet {
  import opened Common
  import opened Types
  import JsText

  /** The wallet record: cash balance in dollars, AI credits and the ledger, newest entry first. */
  datatype WalletData = WalletData(balance: real, credits: int, transactions: seq<Transaction>)

  /** Which dialog the wallet screen shows. */
  datatype Modal = Closed | PurchaseOpen | WithdrawBank | WithdrawCrypto

  /** Payment method picked in the purchase dialog. */
  datatype PaymentMethod = Stripe | PayPal

  /** Withdrawal channel of a withdrawal dialog. */
  datatype WithdrawMethod = Bank | Crypto

  function MethodName(m: WithdrawMethod): string {
    match m
    case Bank => "Bank"
    case Crypto => "Crypto"
  }

  // ----- Ledger rows -----

  /** How a ledger row is drawn: sign prefix, colour and arrow, and the unit suffix. */
  datatype RowView = RowView(sign: string, positiveColour: bool, upArrow: bool, unitSuffix: string)

  /** Classification of a transaction row by its type. */
  function TransactionRow(tx: Transaction): (v: RowView)
    ensures v.sign == "+" <==> tx.kind in {Deposit, Payout, Bonus, Tip, CreditPurchase}
    ensures v.sign == "" || v.sign == "+"
    ensures v.positiveColour <==> v.sign == "+"
    ensures v.upArrow <==> v.positiveColour
    ensures v.unitSuffix == "credits" <==> tx.kind in {CreditPurchase, CreditSpend}
    ensures v.unitSuffix == "" || v.unitSuffix == "credits"
  {
    var isCredit := tx.kind == CreditPurchase || tx.kind == CreditSpend;
    var isDeposit := tx.kind == Deposit || tx.kind == Payout || tx.kind == Bonus || tx.kind == Tip || tx.kind == CreditPurchase;
    RowView(if isDeposit then "+" else "", isDeposit, isDeposit, if isCredit then "credits" else "")
  }

  /** Only a credit purchase is both a credit row and a deposit row. */
  lemma CreditPurchaseRowShowsPlus(tx: Transaction)
    ensures (TransactionRow(tx).sign == "+" && TransactionRow(tx).unitSuffix == "credits") <==> tx.kind == CreditPurchase
  {
  }

  // ----- Bonus credits -----

  /** A JavaScript number as far as `parseInt` of digits produces one: an integer or NaN. */
  datatype JsNumber = Finite(value: int) | NaN

  /** `parseInt` applied to a string of decimal digits: NaN for the empty string. */
  function ParseDigits(d: string): (r: JsNumber)
    requires forall i :: 0 <= i < |d| ==> JsText.IsDigit(d[i])
    ensures r.NaN? <==> d == []
    ensures r.Finite? ==> r.value >= 0
  {
    if d == [] then NaN else Finite(JsText.DigitsValue(d))
  }

  /**
   * The bonus term of the purchase handler as written: an absent or empty
   * bonus adds 0, any other bonus adds `parseInt` of its digits, which is
   * NaN when it has none.
   */
  function BonusAsWritten(bonus: Option<string>): (r: JsNumber)
    ensures (bonus.None? || bonus == Some("")) ==> r == Finite(0)
    ensures r.NaN? <==> bonus.Some? && bonus.value != "" && JsText.DigitsOf(bonus.value) == []
  {
    match bonus
    case None => Finite(0)
    case Some(b) => if b == "" then Finite(0) else ParseDigits(JsText.DigitsOf(b))
  }

  /** The credit balance after a purchase as written: NaN poisons the sum. */
  function CreditsAfterPurchaseAsWritten(credits: int, pack: CreditPack): (r: JsNumber)
    ensures r.NaN? <==> BonusAsWritten(pack.bonus).NaN?
    ensures r.Finite? ==> r.value == credits + pack.credits + BonusAsWritten(pack.bonus).value
  {
    match BonusAsWritten(pack.bonus)
    case NaN => NaN
    case Finite(n) => Finite(credits + pack.credits + n)
  }

  /** The 'Basic' pack of the credit store. */
  const BasicPack := CreditPack("pack1", 10, 10.0, Some("Basic"))

  /** Buying the 'Basic' pack as written turns the credit balance into NaN. */
  lemma BasicPackPoisonsCredits(credits: int)
    ensures CreditsAfterPurchaseAsWritten(credits, BasicPack) == NaN
  {
    assert JsText.DigitsOf("Basic") == [];
  }

  /**
   * The bonus credits a pack grants: the number its bonus text's digits form,
   * and 0 when the text has no digit (where the code as written yields NaN).
   */
  function BonusCredits(bonus: Option<string>): (r: nat)
    ensures BonusAsWritten(bonus).Finite? ==> r == BonusAsWritten(bonus).value
    ensures BonusAsWritten(bonus).NaN? ==> r == 0
  {
    match bonus
    case None => 0
    case Some(b) => JsText.DigitsValue(JsText.DigitsOf(b))
  }

  /** Extracting the digits of a concatenation extracts them piecewise. */
  lemma {:induction false} DigitsOfAppend(a: string, b: string)
    ensures JsText.DigitsOf(a + b) == JsText.DigitsOf(a) + JsText.DigitsOf(b)
  {
    if a != [] {
      assert (a + b)[0] == a[0];
      assert (a + b)[1..] == a[1..] + b;
      DigitsOfAppend(a[1..], b);
    } else {
      assert a + b == b;
    }
  }

  /** A string of digits is its own digit extraction. */
  lemma {:induction false} DigitsOfDigits(d: string)
    requires forall i :: 0 <= i < |d| ==> JsText.IsDigit(d[i])
    ensures JsText.DigitsOf(d) == d
  {
    if d != [] {
      DigitsOfDigits(d[1..]);
      assert d == [d[0]] + d[1..];
    }
  }

  /** A string without a digit has no digits to extract. */
  lemma {:induction false} DigitsOfNoDigits(s: string)
    requires forall i :: 0 <= i < |s| ==> !JsText.IsDigit(s[i])
    ensures JsText.DigitsOf(s) == []
  {
    if s != [] {
      DigitsOfNoDigits(s[1..]);
    }
  }

  /** A bonus written '+<n> Credits' grants exactly n credits ('+20 Credits' grants 20). */
  lemma BonusOfPlusCredits(n: nat)
    ensures BonusCredits(Some("+" + JsText.NatToString(n) + " Credits")) == n
  {
    var digits := JsText.NatToString(n);
    var plus, suffix := "+", " Credits";
    DigitsOfNoDigits(plus);
    DigitsOfNoDigits(suffix);
    DigitsOfAppend(plus + digits, suffix);
    DigitsOfAppend(plus, digits);
    DigitsOfDigits(digits);
    assert JsText.DigitsOf(plus + digits + suffix) == digits;
    JsText.NatToStringRoundTrip(n);
  }

  // ----- Ledger operations -----

  /** The outcome of the credit purchase handler on a wallet: the new wallet and the notification shown. */
  function Purchase(w: WalletData, pack: CreditPack, now: nat, today: string): (r: (WalletData, Notice))
    ensures pack.price > w.balance ==>
      r.0 == w && r.1 == Notice("Insufficient funds to purchase credits.", ErrorNotice)
    ensures pack.price <= w.balance ==>
      && r.0.balance == w.balance - pack.price
      && r.0.credits == w.credits + pack.credits + BonusCredits(pack.bonus)
      && |r.0.transactions| == |w.transactions| + 1
      && r.0.transactions[1..] == w.transactions
      && r.0.transactions[0].kind == CreditPurchase
      && r.0.transactions[0].amount == -pack.price
      && r.0.transactions[0].date == today
      && r.0.transactions[0].id == "tx_buy_" + JsText.NatToString(now)
      && r.0.transactions[0].description == JsText.NatToString(pack.credits) + " Credit Pack"
      && r.1 == Notice("Successfully purchased " + JsText.NatToString(pack.credits) + " credits!", SuccessNotice)
  {
    if pack.price > w.balance then
      (w, Notice("Insufficient funds to purchase credits.", ErrorNotice))
    else
      var tx := Transaction("tx_buy_" + JsText.NatToString(now), CreditPurchase,
                            JsText.NatToString(pack.credits) + " Credit Pack", -pack.price, today);
      (WalletData(w.balance - pack.price, w.credits + pack.credits + BonusCredits(pack.bonus), [tx] + w.transactions),
       Notice("Successfully purchased " + JsText.NatToString(pack.credits) + " credits!", SuccessNotice))
  }

  /**
   * `Purchase` uses the corrected bonus: wherever the handler as written
   * yields a number, the two credit counts agree; where it yields NaN, the
   * corrected purchase adds the pack's own credits only.
   */
  lemma PurchaseMatchesAsWritten(w: WalletData, pack: CreditPack, now: nat, today: string)
    requires pack.price <= w.balance
    ensures CreditsAfterPurchaseAsWritten(w.credits, pack).Finite? ==>
      Purchase(w, pack, now, today).0.credits == CreditsAfterPurchaseAsWritten(w.credits, pack).value
    ensures CreditsAfterPurchaseAsWritten(w.credits, pack).NaN? ==>
      Purchase(w, pack, now, today).0.credits == w.credits + pack.credits
  {
  }

  /**
   * The entry a successful purchase records for a priced pack carries a
   * negative dollar amount, yet its ledger row is drawn with '+', the
   * positive colour and the upward arrow.
   */
  lemma PurchaseEntryShowsPlus(w: WalletData, pack: CreditPack, now: nat, today: string)
    requires 0.0 < pack.price <= w.balance
    ensures Purchase(w, pack, now, today).0.transactions[0].amount < 0.0
    ensures TransactionRow(Purchase(w, pack, now, today).0.transactions[0]) == RowView("+", true, true, "credits")
  {
  }

  /**
   * The outcome of the withdrawal handler on a wallet. `amountText` is the
   * amount rendered with two decimals for the notification.
   */
  function Withdraw(w: WalletData, amount: real, methodName: string, now: nat, today: string, amountText: string): (r: (WalletData, Notice))
    ensures amount > w.balance ==>
      r.0 == w && r.1 == Notice("Insufficient funds for withdrawal.", ErrorNotice)
    ensures amount <= w.balance ==>
      && r.0.balance == w.balance - amount
      && r.0.credits == w.credits
      && |r.0.transactions| == |w.transactions| + 1
      && r.0.transactions[1..] == w.transactions
      && r.0.transactions[0].kind == Withdrawal
      && r.0.transactions[0].amount == -amount
      && r.0.transactions[0].description == "Withdrawal to " + methodName
      && r.1 == Notice("Withdrawal of $" + amountText + " initiated!", SuccessNotice)
  {
    if amount > w.balance then
      (w, Notice("Insufficient funds for withdrawal.", ErrorNotice))
    else
      var tx := Transaction("tx_wd_" + JsText.NatToString(now), Withdrawal, "Withdrawal to " + methodName, -amount, today);
      (w.(balance := w.balance - amount, transactions := [tx] + w.transactions),
       Notice("Withdrawal of $" + amountText + " initiated!", SuccessNotice))
  }

  /** Withdrawing the whole balance is allowed and leaves nothing. */
  lemma WithdrawWholeBalance(w: WalletData, methodName: string, now: nat, today: string, amountText: string)
    ensures Withdraw(w, w.balance, methodName, now, today, amountText).0.balance == 0.0
    ensures Withdraw(w, w.balance, methodName, now, today, amountText).1.kind == SuccessNotice
  {
  }

  /** One ledger action with the clock readings it is performed under. */
  datatype LedgerOp =
    | Buy(pack: CreditPack, now: nat, today: string)
    | Cashout(amount: real, methodName: string, now: nat, today: string, amountText: string)

  function Apply(w: WalletData, op: LedgerOp): (WalletData, Notice) {
    match op
    case Buy(pack, now, today) => Purchase(w, pack, now, today)
    case Cashout(amount, m, now, today, text) => Withdraw(w, amount, m, now, today, text)
  }

  /** The wallet after performing the actions in order. */
  function Run(w: WalletData, ops: seq<LedgerOp>): WalletData
    decreases |ops|
  {
    if ops == [] then w else Run(Apply(w, ops[0]).0, ops[1..])
  }

  /** How many of the actions succeed when performed in order. */
  function Successes(w: WalletData, ops: seq<LedgerOp>): nat
    decreases |ops|
  {
    if ops == [] then 0
    else
      var step := Apply(w, ops[0]);
      (if step.1.kind == SuccessNotice then 1 else 0) + Successes(step.0, ops[1..])
  }

  /**
   * From a non-negative balance every sequence of purchases and withdrawals
   * keeps the balance non-negative; each successful action adds exactly one
   * transaction and the older ledger stays, in order, at the end.
   */
  lemma {:induction false} RunKeepsLedgerSound(w: WalletData, ops: seq<LedgerOp>)
    requires w.balance >= 0.0
    ensures Run(w, ops).balance >= 0.0
    ensures |Run(w, ops).transactions| == |w.transactions| + Successes(w, ops)
    ensures Run(w, ops).transactions[Successes(w, ops)..] == w.transactions
    decreases |ops|
  {
    if ops != [] {
      var next := Apply(w, ops[0]).0;
      RunKeepsLedgerSound(next, ops[1..]);
      var k := Successes(next, ops[1..]);
      var fin := Run(next, ops[1..]);
      assert Run(w, ops) == fin;
      if Apply(w, ops[0]).1.kind == SuccessNotice {
        assert next.transactions[1..] == w.transactions;
        assert fin.transactions[k + 1..] == fin.transactions[k..][1..];
      } else {
        assert next == w;
      }
    }
  }

  /** The wallet screen's state cells: the wallet record it is handed and its modal cell. */
  class WalletState {
    var wallet: WalletData
    var modal: Modal

    /** The balance never drops below zero. */
    predicate Valid()
      reads this
    {
      wallet.balance >= 0.0
    }

    constructor (initial: WalletData)
      requires initial.balance >= 0.0
      ensures Valid()
      ensures wallet == initial && modal == Closed
    {
      wallet := initial;
      modal := Closed;
    }

    /** Opening or closing a dialog only changes the modal cell. */
    method SetModal(m: Modal)
      modifies this
      ensures modal == m && wallet == old(wallet)
    {
      modal := m;
    }

    /** `handlePurchaseCredits`: the guarded purchase; success also closes the dialog. */
    method HandlePurchaseCredits(pack: CreditPack, now: nat, today: string) returns (notice: Notice)
      requires Valid()
      modifies this
      ensures Valid()
      ensures (wallet, notice) == Purchase(old(wallet), pack, now, today)
      ensures modal == (if pack.price > old(wallet).balance then old(modal) else Closed)
    {
      if pack.price > wallet.balance {
        notice := Notice("Insufficient funds to purchase credits.", ErrorNotice);
        return;
      }
      var tx := Transaction("tx_buy_" + JsText.NatToString(now), CreditPurchase,
                            JsText.NatToString(pack.credits) + " Credit Pack", -pack.price, today);
      wallet := WalletData(wallet.balance - pack.price,
                           wallet.credits + pack.credits + BonusCredits(pack.bonus),
                           [tx] + wallet.transactions);
      notice := Notice("Successfully purchased " + JsText.NatToString(pack.credits) + " credits!", SuccessNotice);
      modal := Closed;
    }

    /** `handleWithdraw`: the guarded withdrawal; it leaves credits and the modal cell alone. */
    method HandleWithdraw(amount: real, methodName: string, now: nat, today: string, amountText: string) returns (notice: Notice)
      requires Valid()
      modifies this
      ensures Valid()
      ensures (wallet, notice) == Withdraw(old(wallet), amount, methodName, now, today, amountText)
      ensures modal == old(modal)
    {
      if amount > wallet.balance {
        notice := Notice("Insufficient funds for withdrawal.", ErrorNotice);
        return;
      }
      var tx := Transaction("tx_wd_" + JsText.NatToString(now), Withdrawal, "Withdrawal to " + methodName, -amount, today);
      wallet := wallet.(balance := wallet.balance - amount, transactions := [tx] + wallet.transactions);
      notice := Notice("Withdrawal of $" + amountText + " initiated!", SuccessNotice);
    }

    /**
     * The purchase dialog's confirm button: nothing happens unless both a pack
     * and a payment method are chosen; otherwise the purchase handler runs.
     */
    method ConfirmPurchase(selected: Option<CreditPack>, payment: Option<PaymentMethod>, now: nat, today: string)
      returns (notice: Option<Notice>)
      requires Valid()
      modifies this
      ensures Valid()
      ensures (selected.None? || payment.None?) ==> notice.None? && wallet == old(wallet) && modal == old(modal)
      ensures selected.Some? && payment.Some? ==>
        notice.Some? && (wallet, notice.value) == Purchase(old(wallet), selected.value, now, today)
    {
      if selected.None? || payment.None? {
        notice := None;
        return;
      }
      var n := HandlePurchaseCredits(selected.value, now, today);
      notice := Some(n);
    }

    /**
     * The withdrawal dialog's confirm button. `parsed` is `parseFloat` of the
     * typed amount (None for NaN). Only a positive amount triggers the
     * withdrawal handler, after which the dialog closes whatever the outcome.
     */
    method ConfirmWithdraw(parsed: Option<real>, m: WithdrawMethod, now: nat, today: string, amountText: string)
      returns (notice: Option<Notice>)
      requires Valid()
      modifies this
      ensures Valid()
      ensures !(parsed.Some? && parsed.value > 0.0) ==> notice.None? && wallet == old(wallet) && modal == old(modal)
      ensures parsed.Some? && parsed.value > 0.0 ==>
        && notice.Some?
        && (wallet, notice.value) == Withdraw(old(wallet), parsed.value, MethodName(m), now, today, amountText)
        && modal == Closed
    {
      if !(parsed.Some? && parsed.value > 0.0) {
        notice := None;
        return;
      }
      var n := HandleWithdraw(parsed.value, MethodName(m), now, today, amountText);
      notice := Some(n);
      modal := Closed;
    }
  }
}
