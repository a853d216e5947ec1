/** A customer account: the balance, the PIN, the card lock, the alerts
    setting, the security question and the append-only history, with the
    guarded operations that change them. */
module Account {
  import opened Ledger

  /** Largest amount one deposit may add. */
  const MaxDeposit: real := 50000.0
  /** Largest amount one withdrawal may take. */
  const MaxWithdrawal: real := 20000.0
  /** The PIN that MakePayment passes to MakeWithdrawal in place of the holder's. */
  const PaymentPin: string := "0000"

  /** How a withdrawal ends; every value but Withdrawn is a refusal. */
  datatype WithdrawalOutcome =
    | Withdrawn
    | InvalidPin
    | LockedCard
    | InvalidAmount
    | InsufficientFunds
    | Cancelled      // above 70% of the balance and not confirmed

  /** A withdrawal of more than 70% of the balance asks for confirmation. */
  predicate IsLargeWithdrawal(amount: real, balance: real) {
    amount > balance * 0.7
  }

  /** The rules a withdrawal passes, in the order they are checked: the first
      rule that fails decides the outcome. */
  function WithdrawalDecision(pinOk: bool, locked: bool, amount: real, balance: real, confirmed: bool)
    : (r: WithdrawalOutcome)
    // it succeeds exactly when every rule holds
    ensures r == Withdrawn <==>
              pinOk && !locked && 0.0 < amount <= MaxWithdrawal && amount <= balance &&
              (confirmed || 10.0 * amount <= 7.0 * balance)
    // a wrong PIN is reported whatever else is wrong, and a locked card before any amount problem
    ensures r == InvalidPin <==> !pinOk
    ensures r == LockedCard <==> pinOk && locked
    // the amount is checked against the ceiling before it is checked against the balance
    ensures r == InvalidAmount <==> pinOk && !locked && !(0.0 < amount <= MaxWithdrawal)
    ensures r == InsufficientFunds <==> pinOk && !locked && 0.0 < amount <= MaxWithdrawal && amount > balance
    // only an affordable amount within the ceiling ever reaches the confirmation question
    ensures r == Cancelled <==>
              pinOk && !locked && 0.0 < amount <= MaxWithdrawal && amount <= balance &&
              10.0 * amount > 7.0 * balance && !confirmed
    // a success never takes the balance below zero
    ensures r == Withdrawn ==> 0.0 <= balance - amount < balance
  {
    if !pinOk then InvalidPin
    else if locked then LockedCard
    else if amount <= 0.0 || amount > MaxWithdrawal then InvalidAmount
    else if amount > balance then InsufficientFunds
    else if IsLargeWithdrawal(amount, balance) && !confirmed then Cancelled
    else Withdrawn
  }

  /** The boundary of the confirmation question on a balance of 1000: 700 is
      paid out unasked, 701 is paid out only when confirmed. */
  lemma ConfirmationBoundary()
    ensures WithdrawalDecision(true, false, 700.0, 1000.0, false) == Withdrawn
    ensures WithdrawalDecision(true, false, 701.0, 1000.0, false) == Cancelled
    ensures WithdrawalDecision(true, false, 701.0, 1000.0, true) == Withdrawn
  {
  }

  class CustomerAccount {
    const accountNumber: string
    var fullName: string
    var pin: string
    var balance: real
    var history: seq<Entry>
    var studentId: string
    var university: string
    var securityQuestion: string
    var securityAnswer: string
    var cardLocked: bool
    var alertsEnabled: bool

    /** The history opens with the one creation entry and the balance is
        the running sum of the history, as each entry reports it. */
    ghost predicate Valid()
      reads this
    {
      && |history| > 0
      && history[0].AccountCreated?
      && (forall i :: 0 < i < |history| ==> !history[i].AccountCreated?)
      && balance == Net(history)
      && RecordsAgree(history)
    }

    constructor (accNum: string, name: string, accountPin: string, initialDeposit: real)
      ensures Valid()
      ensures accountNumber == accNum && fullName == name && pin == accountPin
      ensures balance == initialDeposit && history == [AccountCreated(initialDeposit)]
      ensures studentId == "2442130258" && university == "Nantong University"
      ensures securityQuestion == "" && securityAnswer == ""
      ensures !cardLocked && alertsEnabled
    {
      accountNumber := accNum;
      fullName := name;
      pin := accountPin;
      balance := initialDeposit;
      studentId := "2442130258";
      university := "Nantong University";
      securityQuestion := "";
      securityAnswer := "";
      cardLocked := false;
      alertsEnabled := true;
      history := [AccountCreated(initialDeposit)];
      NetAppend([], AccountCreated(initialDeposit));
      RecordsAgreeAppend([], AccountCreated(initialDeposit));
    }

    /** Exact comparison with the stored PIN; failures are not counted. */
    predicate CheckPin(inputPin: string)
      reads this
    {
      inputPin == pin
    }

    /** Exact comparison with the stored answer. */
    predicate VerifySecurityAnswer(answer: string)
      reads this
    {
      answer == securityAnswer
    }

    /** Replaces the PIN and logs it only when the old PIN is right; it
        reports nothing either way. */
    method ChangePin(oldPin: string, newPin: string)
      requires Valid()
      modifies this`pin, this`history
      ensures Valid()
      ensures old(pin) == oldPin ==> pin == newPin && history == old(history) + [PinChanged]
      ensures old(pin) != oldPin ==> pin == old(pin) && history == old(history)
      // with the right old PIN the new one opens the account and a different old one no longer does;
      // with a wrong one every PIN is accepted or refused as before
      ensures old(CheckPin(oldPin)) ==> CheckPin(newPin) && (oldPin != newPin ==> !CheckPin(oldPin))
      ensures !old(CheckPin(oldPin)) ==> forall p :: CheckPin(p) == old(CheckPin(p))
    {
      if oldPin == pin {
        NetAppend(history, PinChanged);
        RecordsAgreeAppend(history, PinChanged);
        pin := newPin;
        history := history + [PinChanged];
      }
    }

    /** Overwrites the question and the answer, unconditionally and unlogged. */
    method SetSecurityQuestion(question: string, answer: string)
      modifies this`securityQuestion, this`securityAnswer
      ensures securityQuestion == question && securityAnswer == answer
      ensures VerifySecurityAnswer(answer)
    {
      securityQuestion := question;
      securityAnswer := answer;
    }

    /** Sets the lock flag and always logs it, even when it already had that value. */
    method ToggleCardLock(lockCard: bool)
      requires Valid()
      modifies this`cardLocked, this`history
      ensures Valid()
      ensures cardLocked == lockCard && history == old(history) + [CardLock(lockCard)]
    {
      NetAppend(history, CardLock(lockCard));
      RecordsAgreeAppend(history, CardLock(lockCard));
      cardLocked := lockCard;
      history := history + [CardLock(lockCard)];
    }

    /** Sets the alerts flag; nothing is logged. */
    method ToggleTransactionAlerts(enable: bool)
      modifies this`alertsEnabled
      ensures alertsEnabled == enable
    {
      alertsEnabled := enable;
    }

    /** A deposit is refused, changing nothing, unless 0 < amount <= 50,000;
        otherwise the balance grows by the amount and one entry reports it. */
    method MakeDeposit(amount: real) returns (ok: bool)
      requires Valid()
      modifies this`balance, this`history
      ensures Valid()
      ensures ok <==> 0.0 < amount <= MaxDeposit
      ensures ok ==> balance == old(balance) + amount && history == old(history) + [Deposit(amount, balance)]
      ensures !ok ==> balance == old(balance) && history == old(history)
    {
      if amount <= 0.0 || amount > MaxDeposit {
        return false;
      }
      var e := Deposit(amount, balance + amount);
      NetAppend(history, e);
      RecordsAgreeAppend(history, e);
      balance := balance + amount;
      history := history + [e];
      return true;
    }

    /** The withdrawal rules of WithdrawalDecision, checked one after the
        other; `confirmed` is the holder's answer to the large-withdrawal
        question, which is asked only when that rule is reached. */
    method MakeWithdrawal(amount: real, enteredPin: string, confirmed: bool) returns (outcome: WithdrawalOutcome)
      requires Valid()
      modifies this`balance, this`history
      ensures Valid()
      ensures outcome == WithdrawalDecision(CheckPin(enteredPin), cardLocked, amount, old(balance), confirmed)
      ensures outcome == Withdrawn ==>
                balance == old(balance) - amount && history == old(history) + [Withdrawal(amount, balance)]
      ensures outcome != Withdrawn ==> balance == old(balance) && history == old(history)
    {
      if !CheckPin(enteredPin) {
        return InvalidPin;
      }
      if cardLocked {
        return LockedCard;
      }
      if amount <= 0.0 || amount > MaxWithdrawal {
        return InvalidAmount;
      }
      if amount > balance {
        return InsufficientFunds;
      }
      if IsLargeWithdrawal(amount, balance) && !confirmed {
        return Cancelled;
      }
      var e := Withdrawal(amount, balance - amount);
      NetAppend(history, e);
      RecordsAgreeAppend(history, e);
      balance := balance - amount;
      history := history + [e];
      return Withdrawn;
    }

    /** The credit side of a transfer: no bound on the amount is checked. */
    method ReceiveTransfer(amount: real, senderName: string)
      requires Valid()
      modifies this`balance, this`history
      ensures Valid()
      ensures balance == old(balance) + amount
      ensures history == old(history) + [TransferReceived(amount, senderName, balance)]
    {
      var e := TransferReceived(amount, senderName, balance + amount);
      NetAppend(history, e);
      RecordsAgreeAppend(history, e);
      balance := balance + amount;
      history := history + [e];
    }

    /** A withdrawal authorised with the fixed PaymentPin rather than the
        holder's PIN, followed, when it succeeds, by a Payment entry. */
    method MakePayment(amount: real, serviceType: string, reference: string, confirmed: bool) returns (ok: bool)
      requires Valid()
      modifies this`balance, this`history
      ensures Valid()
      ensures ok <==> WithdrawalDecision(pin == PaymentPin, cardLocked, amount, old(balance), confirmed) == Withdrawn
      ensures ok ==> pin == PaymentPin
      ensures ok ==> balance == old(balance) - amount &&
                     history == old(history) + [Withdrawal(amount, balance), Payment(amount, serviceType, reference)]
      ensures !ok ==> balance == old(balance) && history == old(history)
    {
      var outcome := MakeWithdrawal(amount, PaymentPin, confirmed);
      if outcome != Withdrawn {
        return false;
      }
      var e := Payment(amount, serviceType, reference);
      NetAppend(history, e);
      RecordsAgreeAppend(history, e);
      history := history + [e];
      return true;
    }

    /** The whole history, oldest first; it always opens with the creation entry. */
    method GetTransactionHistory() returns (h: seq<Entry>)
      requires Valid()
      ensures h == history
      ensures |h| > 0 && h[0].AccountCreated?
      ensures Net(h) == balance
    {
      h := history;
    }
  }

  /** A holder with 1000 asks for 701, declines the confirmation, then asks
      again and confirms: the first request changes nothing, the second
      leaves 299. */
  method LargeWithdrawalScenario() returns (first: WithdrawalOutcome, second: WithdrawalOutcome,
                                            remaining: real)
    ensures first == Cancelled && second == Withdrawn
    ensures remaining == 299.0
  {
    var account := new CustomerAccount("ABS-2024-100", "Holder", "1234", 1000.0);
    first := account.MakeWithdrawal(701.0, "1234", false);
    assert account.balance == 1000.0;
    second := account.MakeWithdrawal(701.0, "1234", true);
    remaining := account.balance;
  }

  /** Between any two states of an account whose later history extends the
      earlier one, the balance moved by the signed sum of the new entries. */
  lemma {:induction false} BalanceChangeIsNetOfNewEntries(before: seq<Entry>, after: seq<Entry>,
                                                           balanceBefore: real, balanceAfter: real)
    requires balanceBefore == Net(before) && balanceAfter == Net(after)
    requires before <= after
    ensures balanceAfter - balanceBefore == Net(after[|before|..])
  {
    assert after == before + after[|before|..];
    NetConcat(before, after[|before|..]);
  }
}
