/** The bank's directory of accounts and the operations of the menu program
    that act on it: logging in, opening an account and transferring money. */
module Bank {
  import opened Ledger
  import opened Account
  import opened AccountNumbers

  /** How a transfer ends; every value but Transferred is a refusal. */
  datatype TransferOutcome =
    | RecipientInvalid                         // unknown number, or the sender's own
    | PinRejected
    | AmountRejected                           // not above zero
    | WithdrawalRefused(reason: WithdrawalOutcome)
    | Transferred

  /** The checks of a transfer in the order they are made: the recipient,
      the PIN, the amount, then the sender's own withdrawal rules. */
  function TransferDecision(recipientOk: bool, pinOk: bool, locked: bool, amount: real, balance: real,
                            confirmed: bool): (r: TransferOutcome)
    ensures r == Transferred <==>
              recipientOk && pinOk && WithdrawalDecision(true, locked, amount, balance, confirmed) == Withdrawn
    ensures r == RecipientInvalid <==> !recipientOk
    ensures r == PinRejected <==> recipientOk && !pinOk
    ensures r == AmountRejected <==> recipientOk && pinOk && amount <= 0.0
    // an amount above zero is then judged by the sender's own withdrawal rules
    ensures r.WithdrawalRefused? <==>
              recipientOk && pinOk && 0.0 < amount &&
              WithdrawalDecision(true, locked, amount, balance, confirmed) != Withdrawn
    ensures r.WithdrawalRefused? ==> r.reason == WithdrawalDecision(true, locked, amount, balance, confirmed)
    ensures r == Transferred ==> 0.0 < amount <= balance && amount <= MaxWithdrawal
    ensures r.WithdrawalRefused? ==> r.reason != Withdrawn && r.reason != InvalidPin
  {
    if !recipientOk then RecipientInvalid
    else if !pinOk then PinRejected
    else if amount <= 0.0 then AmountRejected
    else
      var w := WithdrawalDecision(pinOk, locked, amount, balance, confirmed);
      if w == Withdrawn then Transferred else WithdrawalRefused(w)
  }

  /** One of the accounts the program starts with. */
  datatype Sample = Sample(number: string, name: string, pin: string, deposit: real)

  const Samples: seq<Sample> := [
    Sample("ABS-2024-058", "MD Abdullah", "2003", 5500.0),
    Sample("ABS-2024-057", "Ajwad Safin", "2257", 3500.0),
    Sample("ABS-2024-049", "Rishad Khan", "1234", 4000.0),
    Sample("ABS-2024-059", "MD Rohid", "5678", 9999.0),
    Sample("ABS-2024-060", "Arnab Mondal", "1760", 2500.0),
    Sample("ABS-2024-011", "MD Nasim", "1111", 5500.0),
    Sample("ABS-2024-065", "Redoy Hawladar", "6666", 3000.0),
    Sample("ABS-2024-010", "Eduerdo", "1013", 70.0),
    Sample("ABS-2024-001", "Haochen Wang", "4444", 150000.0),
    Sample("ABS-2024-047", "Rudra Thalapati", "8271", 4500.0),
    Sample("ABS-2024-022", "Arko Day", "2222", 5000.0)
  ]

  /** No sample account has the PIN that MakePayment authorises with, so a
      payment from any of them is refused at the PIN check. */
  lemma NoSampleHasPaymentPin()
    ensures forall i :: 0 <= i < |Samples| ==> Samples[i].pin != PaymentPin
  {
  }

  /** The counts each sample number would be minted from. */
  const SampleCounts: seq<nat> := [58, 57, 49, 59, 60, 11, 65, 10, 1, 47, 22]

  /** Every sample number is one that account creation can mint. */
  lemma {:induction false} SamplesAreMintable()
    ensures |SampleCounts| == |Samples|
    ensures forall i :: 0 <= i < |Samples| ==> Samples[i].number == AccountNumberFor(SampleCounts[i])
  {
    assert Digits(1) == "1";
    assert Digits(10) == "10";
    assert Digits(11) == "11";
    assert Digits(22) == "22";
    assert Digits(47) == "47";
    assert Digits(49) == "49";
    assert Digits(57) == "57";
    assert Digits(58) == "58";
    assert Digits(59) == "59";
    assert Digits(60) == "60";
    assert Digits(65) == "65";
  }

  /** Numbering from the size of the directory repeats a sample number as
      soon as the directory holds 21 accounts (ten created after the eleven
      samples): the 22nd account is numbered ABS-2024-022, which the last
      sample already holds. The ten created before it get fresh numbers. */
  lemma {:induction false} FirstRepeatedNumber()
    ensures AccountNumberFor(|Samples| + 10 + 1) == Samples[10].number == "ABS-2024-022"
    ensures forall n: nat :: |Samples| + 1 <= n < |Samples| + 10 + 1 ==>
              forall i :: 0 <= i < |Samples| ==> AccountNumberFor(n) != Samples[i].number
  {
    SamplesAreMintable();
    forall n: nat, i | |Samples| + 1 <= n < |Samples| + 10 + 1 && 0 <= i < |Samples|
      ensures AccountNumberFor(n) != Samples[i].number
    {
      AccountNumberInjective(n, SampleCounts[i]);
    }
  }

  /** The account holds the number, holder, PIN and balance of the sample. */
  ghost predicate Describes(sample: Sample, c: CustomerAccount)
    reads c
  {
    c.accountNumber == sample.number && c.fullName == sample.name &&
    c.pin == sample.pin && c.balance == sample.deposit
  }

  /** No sample before the last one holds the last one's number. */
  lemma OnlyLastSampleHoldsItsNumber()
    ensures forall i :: 0 <= i < |Samples| - 1 ==> Samples[i].number != Samples[|Samples| - 1].number
  {
  }

  /** The first account in the directory holds the number. */
  ghost predicate FirstWithNumber(cs: seq<CustomerAccount>, k: int, number: string) {
    && 0 <= k < |cs|
    && cs[k].accountNumber == number
    && forall j :: 0 <= j < k ==> cs[j].accountNumber != number
  }

  /** The first account in the directory holds both the number and the PIN. */
  ghost predicate FirstWithCredentials(cs: seq<CustomerAccount>, k: int, number: string, pin: string)
    reads set i | 0 <= i < |cs| :: cs[i]
  {
    && 0 <= k < |cs|
    && cs[k].accountNumber == number && cs[k].CheckPin(pin)
    && forall j :: 0 <= j < k ==> !(cs[j].accountNumber == number && cs[j].CheckPin(pin))
  }

  /** The program's list of all accounts, in the order they were added. */
  class Directory {
    var customers: seq<CustomerAccount>

    ghost predicate Valid()
      reads this, set i | 0 <= i < |customers| :: customers[i]
    {
      forall i :: 0 <= i < |customers| ==> customers[i].Valid()
    }

    constructor ()
      ensures Valid() && customers == []
    {
      customers := [];
    }

    /** Creates the account a sample describes and appends it to the list. */
    method AddSample(sample: Sample) returns (c: CustomerAccount)
      requires Valid()
      modifies this
      ensures Valid() && customers == old(customers) + [c]
      ensures fresh(c) && Describes(sample, c)
    {
      c := new CustomerAccount(sample.number, sample.name, sample.pin, sample.deposit);
      customers := customers + [c];
    }

    /** Adds the eleven sample accounts, one after the other in the order of Samples. */
    method InitializeSampleData()
      requires Valid()
      modifies this
      ensures Valid()
      ensures |customers| == |old(customers)| + |Samples| && customers[..|old(customers)|] == old(customers)
      ensures forall i :: 0 <= i < |Samples| ==>
                fresh(customers[|old(customers)| + i]) && Describes(Samples[i], customers[|old(customers)| + i])
    {
      ghost var added: seq<CustomerAccount> := [];
      for k := 0 to |Samples|
        invariant Valid()
        invariant customers == old(customers) + added && |added| == k
        invariant forall i :: 0 <= i < k ==> fresh(added[i]) && Describes(Samples[i], added[i])
      {
        var c := AddSample(Samples[k]);
        added := added + [c];
      }
      assert customers[..|old(customers)|] == old(customers);
    }

    /** The recipient search of a transfer: the first account with the
        number, or null when there is none. */
    method FindAccount(number: string) returns (found: CustomerAccount?)
      ensures found == null <==> forall i :: 0 <= i < |customers| ==> customers[i].accountNumber != number
      ensures found != null ==> exists k :: FirstWithNumber(customers, k, number) && customers[k] == found
    {
      found := null;
      var i := 0;
      while i < |customers|
        invariant 0 <= i <= |customers|
        invariant forall j :: 0 <= j < i ==> customers[j].accountNumber != number
      {
        if customers[i].accountNumber == number {
          found := customers[i];
          assert FirstWithNumber(customers, i, number);
          break;
        }
        i := i + 1;
      }
    }

    /** The login search: the first account whose number and PIN both match
        the entries, or null. A wrong PIN and an unknown number give the
        same null. */
    method Login(number: string, pin: string) returns (found: CustomerAccount?)
      ensures found == null <==>
                forall i :: 0 <= i < |customers| ==> !(customers[i].accountNumber == number && customers[i].CheckPin(pin))
      ensures found != null ==> exists k :: FirstWithCredentials(customers, k, number, pin) && customers[k] == found
    {
      found := null;
      var i := 0;
      while i < |customers|
        invariant 0 <= i <= |customers|
        invariant forall j :: 0 <= j < i ==> !(customers[j].accountNumber == number && customers[j].CheckPin(pin))
      {
        var c := customers[i];
        if c.accountNumber == number && c.CheckPin(pin) {
          found := c;
          assert FirstWithCredentials(customers, i, number, pin);
          break;
        }
        i := i + 1;
      }
    }

    /** Opens an account unless the deposit is negative. Its number comes
        from the size of the directory and is not checked against the
        numbers already held (see FirstRepeatedNumber). */
    method CreateNewAccount(name: string, pin: string, deposit: real) returns (created: bool)
      requires Valid()
      modifies this
      ensures Valid()
      ensures created <==> deposit >= 0.0
      ensures !created ==> customers == old(customers)
      ensures created ==>
                |customers| == |old(customers)| + 1 && customers[..|old(customers)|] == old(customers) &&
                var a := customers[|old(customers)|];
                fresh(a) && a.accountNumber == AccountNumberFor(|old(customers)| + 1) &&
                a.fullName == name && a.pin == pin && a.balance == deposit &&
                a.history == [AccountCreated(deposit)] && !a.cardLocked
    {
      if deposit < 0.0 {
        return false;
      }
      var newNumber := |customers| + 1;
      var newAccount := new CustomerAccount(AccountNumberFor(newNumber), name, pin, deposit);
      customers := customers + [newAccount];
      return true;
    }

    /** Moves `amount` from the sender to the account holding
        `recipientNumber`: the sender's withdrawal comes first, and the
        recipient is credited only when it succeeds. */
    method ProcessTransfer(sender: CustomerAccount, recipientNumber: string, pin: string, amount: real,
                           confirmed: bool)
      returns (outcome: TransferOutcome, recipient: CustomerAccount?)
      requires Valid() && sender.Valid()
      // only balances and histories change: names, PINs, locks, alerts and security answers are framed out
      modifies sender`balance, sender`history,
               (set i | 0 <= i < |customers| :: customers[i])`balance,
               (set i | 0 <= i < |customers| :: customers[i])`history
      ensures Valid() && sender.Valid()
      ensures recipient == null <==> forall i :: 0 <= i < |customers| ==> customers[i].accountNumber != recipientNumber
      ensures recipient != null ==> exists k :: FirstWithNumber(customers, k, recipientNumber) && customers[k] == recipient
      ensures outcome == TransferDecision(recipient != null && recipient.accountNumber != sender.accountNumber,
                                          old(sender.CheckPin(pin)), old(sender.cardLocked), amount,
                                          old(sender.balance), confirmed)
      ensures outcome == Transferred ==>
                && recipient != null && recipient != sender
                && sender.balance == old(sender.balance) - amount
                && sender.history == old(sender.history) + [Withdrawal(amount, sender.balance)]
                && recipient.balance == old(recipient.balance) + amount
                && recipient.history == old(recipient.history) + [TransferReceived(amount, sender.fullName, recipient.balance)]
      ensures outcome != Transferred ==> unchanged(sender) && (recipient != null ==> unchanged(recipient))
      ensures recipient != null ==> sender.balance + recipient.balance == old(sender.balance) + old(recipient.balance)
      ensures forall i :: 0 <= i < |customers| && customers[i] != sender && customers[i] != recipient ==>
                unchanged(customers[i])
    {
      recipient := FindAccount(recipientNumber);
      if recipient == null || recipient.accountNumber == sender.accountNumber {
        return RecipientInvalid, recipient;
      }
      if !sender.CheckPin(pin) {
        return PinRejected, recipient;
      }
      if amount <= 0.0 {
        return AmountRejected, recipient;
      }
      var w := sender.MakeWithdrawal(amount, pin, confirmed);
      if w == Withdrawn {
        recipient.ReceiveTransfer(amount, sender.fullName);
        outcome := Transferred;
      } else {
        outcome := WithdrawalRefused(w);
      }
    }
  }

  /** The directory starts with the sample accounts, in order. */
  ghost predicate StartsWithSamples(cs: seq<CustomerAccount>) {
    |cs| >= |Samples| && forall i :: 0 <= i < |Samples| ==> cs[i].accountNumber == Samples[i].number
  }

  /** While the samples lead the directory, the recipient search for the last
      sample's number stops at that sample, whatever was added after it. */
  lemma SampleShadowsLaterNumber(cs: seq<CustomerAccount>)
    requires StartsWithSamples(cs)
    ensures FirstWithNumber(cs, |Samples| - 1, "ABS-2024-022")
  {
  }

  /** Opening ten accounts after the samples and then one more: the last one
      is numbered ABS-2024-022 like the last sample, and the recipient search
      of a transfer to that number finds the sample, never the new account. */
  method RepeatedNumberScenario() returns (sample: CustomerAccount, created: CustomerAccount, payee: CustomerAccount?)
    ensures sample != created
    ensures sample.accountNumber == created.accountNumber == "ABS-2024-022"
    ensures payee == sample
  {
    var bank := new Directory();
    bank.InitializeSampleData();
    ghost var samples := bank.customers;
    assert forall i :: 0 <= i < |Samples| ==> Describes(Samples[i], samples[i]);
    assert StartsWithSamples(samples);
    for k := 0 to 10
      invariant bank.Valid() && |bank.customers| == |Samples| + k
      invariant bank.customers[..|Samples|] == samples
    {
      var ok := bank.CreateNewAccount("New Holder", "2024", 0.0);
    }
    var ok := bank.CreateNewAccount("New Holder", "2024", 0.0);
    FirstRepeatedNumber();
    assert StartsWithSamples(bank.customers);
    SampleShadowsLaterNumber(bank.customers);
    sample := bank.customers[10];
    created := bank.customers[21];
    payee := bank.FindAccount("ABS-2024-022");
  }
}
