/** The transaction record (model/Transaction.java), the ledger of saved records, the
    translation of gateway status strings into internal statuses, and the signed balance
    change a completed transaction stands for. */
module Ledger {
  import opened Wrappers
  import opened Text

  /** The statuses the services assign. */
  datatype TxStatus = Pending | Processing | Completed | Failed

  datatype TxType = Deposit | Withdrawal | Transfer

  /** A COMPLETED or FAILED record is never changed by the monitor again. */
  predicate IsTerminal(s: TxStatus) {
    s == Completed || s == Failed
  }

  /** `Enum.name()` of a status, as it appears in notification types. */
  function StatusName(s: TxStatus): string {
    match s
    case Pending => "PENDING"
    case Processing => "PROCESSING"
    case Completed => "COMPLETED"
    case Failed => "FAILED"
  }

  /** One saved transaction. Timestamps are clock readings in milliseconds; `None` stands
      for a field the creating code never set. */
  datatype Transaction = Transaction(
    id: string,
    userId: string,
    recipientId: Option<string>,
    recipientPhone: Option<string>,
    txType: TxType,
    amount: int,
    description: Option<string>,
    status: TxStatus,
    reference: string,
    externalReference: Option<string>,
    provider: Option<string>,
    createdAt: Option<nat>,
    updatedAt: Option<nat>)

  /** Saved records, keyed by their internal reference. */
  type Ledger = map<string, Transaction>

  /** Every record sits under its own reference. */
  predicate Keyed(ledger: Ledger) {
    forall k :: k in ledger ==> ledger[k].reference == k
  }

  /** `repository.save`: inserts or replaces the record under its reference. */
  function Save(ledger: Ledger, tx: Transaction): (r: Ledger)
    ensures Keyed(ledger) ==> Keyed(r)
    ensures tx.reference in r && r[tx.reference] == tx
    ensures r.Keys == ledger.Keys + {tx.reference}
    ensures forall k :: k in ledger && k != tx.reference ==> k in r && r[k] == ledger[k]
  {
    ledger[tx.reference := tx]
  }

  /** Saving under a reference again replaces the earlier save completely. */
  lemma SaveAgainReplaces(ledger: Ledger, first: Transaction, second: Transaction)
    requires first.reference == second.reference
    ensures Save(Save(ledger, first), second) == Save(ledger, second)
  {
  }

  /** `generateReference`: "TXN" followed by the clock value. */
  function ClockReference(now: nat): (r: string)
    ensures StartsWith(r, "TXN") && AllDigits(r[3..]) && |r| >= 4
  {
    "TXN" + Decimal(now)
  }

  /** The clock value can be read back from a generated reference. */
  lemma ClockReferenceRoundTrip(now: nat)
    ensures DecimalValue(ClockReference(now)[3..]) == now
  {
    assert ClockReference(now)[3..] == Decimal(now);
    DecimalRoundTrip(now);
  }

  /** Two generated references coincide only when the clock readings do. */
  lemma ClockReferenceInjective(a: nat, b: nat)
    requires ClockReference(a) == ClockReference(b)
    ensures a == b
  {
    ClockReferenceRoundTrip(a);
    ClockReferenceRoundTrip(b);
  }

  /** The four-argument constructor `Transaction(userId, type, amount, description)`; the
      UUID id is supplied by the caller. */
  function NewTransaction(id: string, userId: string, t: TxType, amount: int,
                          description: Option<string>, now: nat): (r: Transaction)
    ensures r.status == Pending
    ensures r.createdAt == Some(now) && r.updatedAt == Some(now)
    ensures r.reference == ClockReference(now)
    ensures r.userId == userId && r.txType == t && r.amount == amount && r.description == description
    ensures r.recipientId.None? && r.recipientPhone.None? && r.externalReference.None? && r.provider.None?
  {
    Transaction(id, userId, None, None, t, amount, description, Pending,
                ClockReference(now), None, None, Some(now), Some(now))
  }

  /** `setStatus`: the status and the update time change, nothing else. */
  function SetStatus(tx: Transaction, s: TxStatus, now: nat): (r: Transaction)
    ensures r.status == s && r.updatedAt == Some(now)
    ensures r.(status := tx.status, updatedAt := tx.updatedAt) == tx
  {
    tx.(status := s, updatedAt := Some(now))
  }

  /** `updateTimestamp`: only the update time changes. */
  function UpdateTimestamp(tx: Transaction, now: nat): (r: Transaction)
    ensures r.updatedAt == Some(now)
    ensures r.(updatedAt := tx.updatedAt) == tx
  {
    tx.(updatedAt := Some(now))
  }

  /** A later `setStatus` overrides an earlier one completely, and re-setting the current
      status at the recorded time restores the record. */
  lemma SetStatusLastWins(tx: Transaction, s1: TxStatus, s2: TxStatus, t1: nat, t2: nat)
    ensures SetStatus(SetStatus(tx, s1, t1), s2, t2) == SetStatus(tx, s2, t2)
    ensures tx.updatedAt.Some? ==> SetStatus(tx, tx.status, tx.updatedAt.value) == tx
  {
  }

  /** `mapCampayStatus`: null means PENDING; otherwise the upper-cased text is matched
      against the gateway's vocabulary, and anything unrecognised becomes PROCESSING. */
  function MapGatewayStatus(s: Option<string>): (r: TxStatus)
    ensures s.None? ==> r == Pending
  {
    match s
    case None => Pending
    case Some(text) =>
      var u := Upper(text);
      if u == "SUCCESSFUL" || u == "SUCCESS" || u == "COMPLETED" then Completed
      else if u == "PENDING" then Pending
      else if u == "FAILED" || u == "FAILURE" then Failed
      else Processing
  }

  /** The gateway words for each internal status, after upper-casing. */
  predicate NamesCompleted(u: string) {
    u in {"SUCCESSFUL", "SUCCESS", "COMPLETED"}
  }

  predicate NamesFailed(u: string) {
    u in {"FAILED", "FAILURE"}
  }

  /** Each status is reached by exactly its own words; every other text, "PROCESSING"
      included, lands on PROCESSING. */
  lemma MapGatewayStatusCases(text: string)
    ensures MapGatewayStatus(Some(text)) == Completed <==> NamesCompleted(Upper(text))
    ensures MapGatewayStatus(Some(text)) == Failed <==> NamesFailed(Upper(text))
    ensures MapGatewayStatus(Some(text)) == Pending <==> Upper(text) == "PENDING"
    ensures MapGatewayStatus(Some(text)) == Processing <==>
              !NamesCompleted(Upper(text)) && !NamesFailed(Upper(text)) && Upper(text) != "PENDING"
  {
  }

  /** The mapping ignores the case of ASCII letters. */
  lemma MapGatewayStatusCaseInsensitive(text: string)
    ensures MapGatewayStatus(Some(text)) == MapGatewayStatus(Some(Upper(text)))
  {
    UpperIdempotent(text);
  }

  /** Every internal status is recovered from its own name, in any letter case. */
  lemma MapGatewayStatusOfName(s: TxStatus)
    ensures MapGatewayStatus(Some(StatusName(s))) == s
  {
    var n := StatusName(s);
    assert Upper(n) == n;
  }

  /** The gateway's own word for a finished payment maps to COMPLETED. */
  lemma SuccessfulIsCompleted()
    ensures MapGatewayStatus(Some("SUCCESSFUL")) == Completed
  {
    assert Upper("SUCCESSFUL") == "SUCCESSFUL";
  }

  /** The signed change of the owner's balance when a transaction completes
      (`updateBalanceForCompletedTransaction`): deposits add, withdrawals subtract, transfers
      are settled elsewhere and add nothing. */
  function BalanceDelta(t: TxType, amount: int): (d: int)
    ensures t == Transfer ==> d == 0
    ensures t != Transfer ==> (d == amount || d == -amount)
  {
    match t
    case Deposit => amount
    case Withdrawal => -amount
    case Transfer => 0
  }

  /** A deposit and a withdrawal of the same amount cancel. */
  lemma DepositWithdrawalCancel(amount: int)
    ensures BalanceDelta(Deposit, amount) + BalanceDelta(Withdrawal, amount) == 0
    ensures BalanceDelta(Deposit, amount) > 0 <==> amount > 0
  {
  }
}
