/** The transaction history of one customer account.

    The source keeps the history as formatted text lines, each stamped with
    the time of the event. Here every line is an `Entry` that carries the
    data the line prints (amounts, the balance it reports, names), without
    the timestamp. */
module Ledger {

  /** One history line, by the kind of event it records. */
  datatype Entry =
    | AccountCreated(amount: real)                                   // "ACCOUNT CREATED. Initial Deposit: …"
    | Deposit(amount: real, newBalance: real)                        // "DEPOSIT: +… New Balance: …"
    | Withdrawal(amount: real, newBalance: real)                     // "WITHDRAWAL: -… New Balance: …"
    | TransferReceived(amount: real, senderName: string, newBalance: real)
    | Payment(amount: real, serviceType: string, reference: string) // follows the Withdrawal it annotates
    | PinChanged
    | CardLock(locked: bool)                                         // "CARD LOCKED" / "CARD UNLOCKED"

  /** True for the entries that report the balance after the event. */
  predicate ReportsBalance(e: Entry) {
    e.Deposit? || e.Withdrawal? || e.TransferReceived?
  }

  /** The change an entry makes to the balance. A Payment line repeats the
      amount of the Withdrawal line just before it, so it moves nothing. */
  function Signed(e: Entry): real {
    match e
    case AccountCreated(a) => a
    case Deposit(a, _) => a
    case Withdrawal(a, _) => -a
    case TransferReceived(a, _, _) => a
    case _ => 0.0
  }

  /** The running sum of the signed amounts of a history. */
  function Net(h: seq<Entry>): real {
    if h == [] then 0.0 else Net(h[..|h| - 1]) + Signed(h[|h| - 1])
  }

  /** Every entry that reports a balance reports the running sum up to and
      including itself. */
  predicate RecordsAgree(h: seq<Entry>) {
    h == [] ||
    (RecordsAgree(h[..|h| - 1]) &&
     (ReportsBalance(h[|h| - 1]) ==> h[|h| - 1].newBalance == Net(h)))
  }

  /** Appending one entry moves the running sum by that entry's signed amount. */
  lemma {:induction false} NetAppend(h: seq<Entry>, e: Entry)
    ensures Net(h + [e]) == Net(h) + Signed(e)
  {
  }

  /** Appending keeps the recorded balances in agreement exactly when the new
      entry, if it reports a balance, reports the new running sum. */
  lemma {:induction false} RecordsAgreeAppend(h: seq<Entry>, e: Entry)
    ensures RecordsAgree(h + [e]) <==>
            RecordsAgree(h) && (ReportsBalance(e) ==> e.newBalance == Net(h) + Signed(e))
  {
  }

  /** The running sum of a history is the sum over every one of its entries:
      it does not depend on where the history was split. */
  lemma {:induction false} NetConcat(h: seq<Entry>, k: seq<Entry>)
    ensures Net(h + k) == Net(h) + Net(k)
    decreases |k|
  {
    if k == [] {
      assert h + k == h;
    } else {
      var k' := k[..|k| - 1];
      var last := k[|k| - 1];
      assert k == k' + [last];
      assert h + k == (h + k') + [last];
      NetConcat(h, k');
      NetAppend(h + k', last);
      NetAppend(k', last);
    }
  }
}
