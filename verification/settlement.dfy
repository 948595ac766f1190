/** Deposits, withdrawals and the manual status refresh of TransactionService: the balance
    change a completed record brings, the notifications sent on completion and failure,
    the two funding flows through the payment gateway, and `updateTransactionStatus`. */
module Settlement {
  import opened Wrappers
  import opened Text
  import opened Ledger
  import opened Users
  import opened Notifications
  import opened Transfers
  import opened Gateway
  import opened Sanitizers

  // ---- completion ----

  /** The owner once a completed record's delta is applied at clock `now`: only the balance
      and the update time change. */
  function Credited(user: User, tx: Transaction, now: nat): (u: User)
    ensures u.balance == user.balance + BalanceDelta(tx.txType, tx.amount)
    ensures u.(balance := user.balance, updatedAt := user.updatedAt) == user
  {
    user.(balance := user.balance + BalanceDelta(tx.txType, tx.amount), updatedAt := now)
  }

  /** `updateBalanceForCompletedTransaction`: the owner's balance moves by the record's
      delta through an absolute write; a missing owner is logged and ignored. The user is
      written back under the id it was found by. */
  function ApplyCompletion(users: Users, tx: Transaction, now: nat): (r: Users)
    ensures (WellFormed(users) ==> WellFormed(r)) && r.Keys == users.Keys
    ensures tx.userId !in users ==> r == users
    ensures tx.userId in users ==> r == users[tx.userId := Credited(users[tx.userId], tx, now)]
  {
    match FindById(users, tx.userId)
    case None => users
    case Some(user) =>
      UpdateBalance(users, tx.userId, user.balance + BalanceDelta(tx.txType, tx.amount), now).value
  }

  /** The sum of all balances moves by exactly the record's delta when its owner exists,
      and not at all otherwise. */
  lemma ApplyCompletionTotal(users: Users, tx: Transaction, now: nat)
    ensures Total(ApplyCompletion(users, tx, now)) ==
              Total(users) + (if tx.userId in users then BalanceDelta(tx.txType, tx.amount) else 0)
  {
    if tx.userId in users {
      var r := ApplyCompletion(users, tx, now);
      assert r == users[tx.userId := r[tx.userId]];
      TotalUpdate(users, tx.userId, r[tx.userId]);
    }
  }

  /** `sendCompletionNotification`: transfers get none. */
  function CompletionNotices(user: User, tx: Transaction): (n: seq<Notice>)
    ensures tx.txType == Transfer <==> n == []
    ensures |n| <= 1 && forall i :: 0 <= i < |n| ==> n[i].phone == user.phoneNumber
    ensures tx.txType == Deposit ==> |n| == 1 && n[0].kind == "DEPOSIT_COMPLETED"
    ensures tx.txType == Withdrawal ==> |n| == 1 && n[0].kind == "WITHDRAWAL_COMPLETED"
  {
    match tx.txType
    case Deposit => [DepositNotice(user.phoneNumber, "COMPLETED")]
    case Withdrawal => [WithdrawalNotice(user.phoneNumber, "COMPLETED")]
    case Transfer => []
  }

  /** `sendFailureNotification`: transfers get the generic failure notice. */
  function FailureNotices(user: User, tx: Transaction): (n: seq<Notice>)
    ensures |n| == 1 && n[0].phone == user.phoneNumber
    ensures tx.txType == Transfer <==> n[0].kind == "TRANSACTION_FAILED"
    ensures tx.txType == Deposit <==> n[0].kind == "DEPOSIT_FAILED"
    ensures tx.txType == Withdrawal <==> n[0].kind == "WITHDRAWAL_FAILED"
  {
    match tx.txType
    case Deposit => [DepositNotice(user.phoneNumber, "FAILED")]
    case Withdrawal => [WithdrawalNotice(user.phoneNumber, "FAILED")]
    case Transfer => [Notice(user.phoneNumber, "TRANSACTION_FAILED")]
  }

  /** The guard of `startTransactionMonitoring`. */
  predicate ShouldMonitor(tx: Transaction) {
    !IsTerminal(tx.status) && tx.externalReference.Some?
  }

  // ---- deposit and withdrawal ----

  /** The deposit and withdrawal request bodies; `provider` is the provider constant's name. */
  datatype FundingRequest = FundingRequest(amount: int, provider: Option<string>, pin: string)

  /** The state after a deposit or withdrawal, its outcome, the notifications sent and
      whether background monitoring was started. */
  datatype Funding = Funding(bank: Bank, client: Client, result: Result<Transaction, string>,
                             notices: seq<Notice>, monitored: bool)

  function Label(kind: TxType): string {
    if kind == Deposit then "Deposit" else "Withdrawal"
  }

  function FundingNotice(kind: TxType, phone: string, status: string): Notice {
    if kind == Deposit then DepositNotice(phone, status) else WithdrawalNotice(phone, status)
  }

  /** The gateway request: a collect for a deposit, a payout for a withdrawal. The amount
      travels as `Double.toString` of the amount. */
  function GatewayRequest(kind: TxType, amount: int, phone: string, ref: string): Call {
    if kind == Deposit then CollectCall(WholeDoubleText(amount), phone, "Deposit to wallet", ref)
    else DisburseCall(NewDisburseRequest(Some(WholeDoubleText(amount)), Some(phone),
                                         Some("Withdrawal from wallet"), Some(ref)))
  }

  /** The checks made before any record exists: the user, the PIN and, for a withdrawal,
      the balance. */
  predicate FundingAccepted(kind: TxType, users: Users, phone: Option<string>, req: FundingRequest,
                            matches: (string, string) -> bool)
    requires WellFormed(users)
  {
    var u := FindByPhone(users, phone);
    u.Some? && matches(req.pin, u.value.pin) && (kind == Withdrawal ==> u.value.balance >= req.amount)
  }

  /** The PENDING record `deposit` and `withdraw` build with the no-argument constructor:
      its creation time is never set, and `setStatus` stamps the update time. */
  function FundingRecord(kind: TxType, user: User, req: FundingRequest, ref: string, txId: string,
                         now: nat): Transaction {
    Transaction(txId, user.id, None, None, kind, req.amount,
                Some(Label(kind) + " via " + OptionText(req.provider)), Pending, ref, None, req.provider,
                None, Some(now))
  }

  /** The part of `deposit` and `withdraw` after the checks: the PENDING record is saved
      and announced, then the gateway's reply (or failure message) is written into it. */
  function SettleFunding(bank: Bank, cl: Client, pending: Transaction, phone: string,
                         reply: Result<GatewayResponse, string>, now: nat): (r: Funding)
    requires WellFormed(bank.users) && Keyed(bank.ledger) && pending.reference !in bank.ledger
    requires pending.status == Pending && pending.txType != Transfer && pending.externalReference.None?
    ensures WellFormed(r.bank.users) && Keyed(r.bank.ledger) && r.bank.users.Keys == bank.users.Keys
    ensures r.client == cl && pending.reference in r.bank.ledger
    ensures var ref := pending.reference;
            var kind := pending.txType;
            var saved := r.bank.ledger[ref];
            && r.bank.ledger.Keys == bank.ledger.Keys + {ref}
            && (forall k :: k in bank.ledger ==> r.bank.ledger[k] == bank.ledger[k])
            && saved.(status := Pending, externalReference := None, updatedAt := pending.updatedAt) == pending
            && saved.updatedAt == Some(now)
            && |r.notices| >= 1 && r.notices[0] == FundingNotice(kind, phone, "PENDING")
            && (reply.Err? ==>
                  && saved.status == Failed
                  && r.bank.users == bank.users
                  && r.result == Err(Label(kind) + " failed: " + reply.error)
                  && !r.monitored
                  && r.notices == [FundingNotice(kind, phone, "PENDING"), FundingNotice(kind, phone, "FAILED")])
            && (reply.Ok? ==>
                  && saved.status == MapGatewayStatus(reply.value.status)
                  && saved.externalReference == reply.value.reference
                  && r.result == Ok(saved)
                  && r.monitored == ShouldMonitor(saved)
                  && (saved.status == Completed ==> r.bank.users == ApplyCompletion(bank.users, saved, now))
                  && (saved.status != Completed ==> r.bank.users == bank.users))
  {
    var kind := pending.txType;
    var ledger1 := Save(bank.ledger, pending);
    var first := FundingNotice(kind, phone, "PENDING");
    match reply
    case Err(msg) =>
      var failed := SetStatus(pending, Failed, now);
      Funding(Bank(bank.users, Save(ledger1, failed)), cl, Err(Label(kind) + " failed: " + msg),
              [first, FundingNotice(kind, phone, "FAILED")], false)
    case Ok(resp) =>
      var updated := SetStatus(pending.(externalReference := resp.reference), MapGatewayStatus(resp.status), now);
      var ledger2 := Save(ledger1, updated);
      if updated.status == Completed then
        Funding(Bank(ApplyCompletion(bank.users, updated, now), ledger2), cl, Ok(updated),
                [first, FundingNotice(kind, phone, "COMPLETED")], ShouldMonitor(updated))
      else
        Funding(Bank(bank.users, ledger2), cl, Ok(updated), [first], ShouldMonitor(updated))
  }

  /** `deposit` (kind DEPOSIT) and `withdraw` (kind WITHDRAWAL). A missing user is reported
      through the outer handler ("... failed: "), a bad PIN or short balance directly; none of
      these writes anything. Otherwise the record is saved PENDING, a PENDING notice goes out
      and the gateway is called. Its reply sets the external reference and the mapped status,
      starts monitoring when the guard allows, and applies the balance change at once if the
      status is already COMPLETED. A gateway failure marks the record FAILED. `ref` and
      `txId` are the generated reference and id. */
  function Fund(kind: TxType, bank: Bank, cl: Client, o: Oracle, cfg: Config, phone: Option<string>,
                req: FundingRequest, ref: string, txId: string, now: nat,
                matches: (string, string) -> bool): (r: Funding)
    requires kind != Transfer && WellFormed(bank.users) && Keyed(bank.ledger) && ref !in bank.ledger
    requires WireOracle(o)
    ensures WellFormed(r.bank.users) && Keyed(r.bank.ledger) && r.bank.users.Keys == bank.users.Keys
    ensures FindByPhone(bank.users, phone).None? ==>
              r == Funding(bank, cl, Err(Label(kind) + " failed: User not found with phone: " + OptionText(phone)),
                           [], false)
    ensures var u := FindByPhone(bank.users, phone);
            u.Some? && !matches(req.pin, u.value.pin) ==> r == Funding(bank, cl, Err("Invalid PIN"), [], false)
    ensures var u := FindByPhone(bank.users, phone);
            (kind == Withdrawal && u.Some? && matches(req.pin, u.value.pin) && u.value.balance < req.amount) ==>
              r == Funding(bank, cl, Err("Insufficient balance. Current balance: " + WholeDoubleText(u.value.balance)),
                           [], false)
    ensures !FundingAccepted(kind, bank.users, phone, req, matches) ==>
              r.bank == bank && r.result.Err? && r.notices == [] && !r.monitored
    ensures FundingAccepted(kind, bank.users, phone, req, matches) ==>
              var user := FindByPhone(bank.users, phone).value;
              var reply := GatewayCall(cl, o, cfg, now, GatewayRequest(kind, req.amount, user.phoneNumber, ref));
              r == SettleFunding(bank, reply.0, FundingRecord(kind, user, req, ref, txId, now), user.phoneNumber,
                                 reply.1, now)
  {
    match FindByPhone(bank.users, phone)
    case None =>
      Funding(bank, cl, Err(Label(kind) + " failed: User not found with phone: " + OptionText(phone)), [], false)
    case Some(user) =>
      if !matches(req.pin, user.pin) then Funding(bank, cl, Err("Invalid PIN"), [], false)
      else if kind == Withdrawal && user.balance < req.amount then
        Funding(bank, cl, Err("Insufficient balance. Current balance: " + WholeDoubleText(user.balance)), [], false)
      else
        var pending := FundingRecord(kind, user, req, ref, txId, now);
        var reply := GatewayCall(cl, o, cfg, now, GatewayRequest(kind, req.amount, user.phoneNumber, ref));
        SettleFunding(bank, reply.0, pending, user.phoneNumber, reply.1, now)
  }

  /** Money enters or leaves the wallet only when the gateway reports the payment complete in
      its first reply, and then by exactly the amount; a refusal or a gateway failure leaves
      every balance as it was. A record that completes at once is never monitored. */
  lemma FundingBalances(kind: TxType, bank: Bank, cl: Client, o: Oracle, cfg: Config, phone: Option<string>,
                        req: FundingRequest, ref: string, txId: string, now: nat,
                        matches: (string, string) -> bool)
    requires kind != Transfer && WellFormed(bank.users) && Keyed(bank.ledger) && ref !in bank.ledger
    requires WireOracle(o)
    ensures var r := Fund(kind, bank, cl, o, cfg, phone, req, ref, txId, now, matches);
            && (r.result.Err? ==> r.bank.users == bank.users && !r.monitored)
            && (r.result.Ok? && r.result.value.status == Completed ==>
                  Total(r.bank.users) == Total(bank.users) + BalanceDelta(kind, req.amount) && !r.monitored)
            && (r.result.Ok? && r.result.value.status != Completed ==> Total(r.bank.users) == Total(bank.users))
  {
    if FundingAccepted(kind, bank.users, phone, req, matches) {
      var user := FindByPhone(bank.users, phone).value;
      var reply := GatewayCall(cl, o, cfg, now, GatewayRequest(kind, req.amount, user.phoneNumber, ref));
      SettleBalances(bank, reply.0, FundingRecord(kind, user, req, ref, txId, now), user.phoneNumber, reply.1, now);
    }
  }

  /** The balance part of `FundingBalances`, for the steps after the checks. */
  lemma SettleBalances(bank: Bank, cl: Client, pending: Transaction, phone: string,
                       reply: Result<GatewayResponse, string>, now: nat)
    requires WellFormed(bank.users) && Keyed(bank.ledger) && pending.reference !in bank.ledger
    requires pending.status == Pending && pending.txType != Transfer && pending.externalReference.None?
    requires pending.userId in bank.users
    ensures var r := SettleFunding(bank, cl, pending, phone, reply, now);
            && (r.result.Err? ==> r.bank.users == bank.users && !r.monitored)
            && (r.result.Ok? && r.result.value.status == Completed ==>
                  Total(r.bank.users) == Total(bank.users) + BalanceDelta(pending.txType, pending.amount)
                  && !r.monitored)
            && (r.result.Ok? && r.result.value.status != Completed ==> Total(r.bank.users) == Total(bank.users))
  {
    var r := SettleFunding(bank, cl, pending, phone, reply, now);
    if r.result.Ok? && r.result.value.status == Completed {
      ApplyCompletionTotal(bank.users, r.result.value, now);
    }
  }

  // ---- manual status refresh ----

  /** Keys of the records with the given external reference. */
  function ExternalMatches(ledger: Ledger, x: string): (s: set<string>)
    ensures forall k :: k in s <==> k in ledger && ledger[k].externalReference == Some(x)
  {
    set k | k in ledger && ledger[k].externalReference == Some(x)
  }

  /** The store's refusal when a single-result query finds several records. */
  const NonUniqueResult := "Query did not return a unique result"

  /** A one-element set has no two different members. */
  lemma SingletonUnique(s: set<string>)
    requires |s| == 1
    ensures forall a, b :: a in s && b in s ==> a == b
  {
    var k :| k in s;
    assert |s - {k}| == 0;
    forall a, b | a in s && b in s
      ensures a == b
    {
      assert a !in s - {k} && b !in s - {k};
    }
  }

  /** `findByReference(reference).or(findByExternalReference(reference))`. */
  function FindForRefresh(ledger: Ledger, reference: string): (r: Result<Transaction, string>)
    requires Keyed(ledger)
    ensures reference in ledger ==> r == Ok(ledger[reference])
    ensures reference !in ledger && ExternalMatches(ledger, reference) == {} ==>
              r == Err("Transaction not found with reference: " + reference)
    ensures r.Ok? ==> r.value.reference in ledger && ledger[r.value.reference] == r.value
    ensures r.Ok? && reference !in ledger ==>
              r.value.externalReference == Some(reference) && ExternalMatches(ledger, reference) == {r.value.reference}
  {
    if reference in ledger then Ok(ledger[reference])
    else
      var s := ExternalMatches(ledger, reference);
      if |s| == 0 then Err("Transaction not found with reference: " + reference)
      else if |s| == 1 then
        SingletonUnique(s);
        var k :| k in s;
        Ok(ledger[k])
      else Err(NonUniqueResult)
  }

  datatype Applied = Applied(bank: Bank, tx: Transaction, notices: seq<Notice>)

  /** The effect of one gateway status reply on a record, as `updateTransactionStatus`
      writes it: the mapped status overwrites the stored one whatever it was, and the balance
      changes when the record moves from any status other than COMPLETED to COMPLETED. */
  function ApplyStatusReply(bank: Bank, tx: Transaction, status: Option<string>, now: nat): (r: Applied)
    ensures (WellFormed(bank.users) ==> WellFormed(r.bank.users)) && r.bank.users.Keys == bank.users.Keys
    ensures r.tx == SetStatus(tx, MapGatewayStatus(status), now)
    ensures r.bank.ledger == bank.ledger[tx.reference := r.tx]
    ensures var credited := tx.status != Completed && r.tx.status == Completed;
            && (tx.userId in bank.users ==>
                  r.bank.users[tx.userId].balance ==
                    bank.users[tx.userId].balance + (if credited then BalanceDelta(tx.txType, tx.amount) else 0))
            && (!credited ==> r.bank.users == bank.users && r.notices == [])
    ensures forall k :: k in bank.users && k != tx.userId ==> r.bank.users[k] == bank.users[k]
  {
    var updated := SetStatus(tx, MapGatewayStatus(status), now);
    if tx.status != Completed && updated.status == Completed then
      var users := ApplyCompletion(bank.users, updated, now);
      var notices := match FindById(users, updated.userId)
                     case None => []
                     case Some(u) => CompletionNotices(u, updated);
      Applied(Bank(users, Save(bank.ledger, updated)), updated, notices)
    else
      Applied(Bank(bank.users, Save(bank.ledger, updated)), updated, [])
  }

  /** Refreshing a record that is already COMPLETED never changes a balance, whatever the
      gateway now says. */
  lemma RefreshOfCompletedKeepsBalances(bank: Bank, tx: Transaction, status: Option<string>, now: nat)
    requires tx.status == Completed
    ensures ApplyStatusReply(bank, tx, status, now).bank.users == bank.users
  {
  }

  datatype Refresh = Refresh(bank: Bank, client: Client, result: Result<Transaction, string>, notices: seq<Notice>)

  /** `updateTransactionStatus`. A record without an external reference is returned as
      stored. Otherwise the gateway is asked for the status and `ApplyStatusReply` writes it;
      every failure is reported as "Failed to update transaction status: ...". */
  function RefreshStatus(bank: Bank, cl: Client, o: Oracle, cfg: Config, reference: string, now: nat): (r: Refresh)
    requires WellFormed(bank.users) && Keyed(bank.ledger) && WireOracle(o)
    ensures WellFormed(r.bank.users) && Keyed(r.bank.ledger)
    ensures FindForRefresh(bank.ledger, reference).Err? ==>
              r == Refresh(bank, cl, Err("Failed to update transaction status: " +
                                         FindForRefresh(bank.ledger, reference).error), [])
    ensures FindForRefresh(bank.ledger, reference).Ok? ==>
              var tx := FindForRefresh(bank.ledger, reference).value;
              && (tx.externalReference.None? ==> r == Refresh(bank, cl, Ok(tx), []))
              && (tx.externalReference.Some? ==>
                    var reply := GatewayCall(cl, o, cfg, now, StatusCall(tx.externalReference.value));
                    && r.client == reply.0
                    && (reply.1.Err? ==>
                          r == Refresh(bank, reply.0, Err("Failed to update transaction status: " + reply.1.error), []))
                    && (reply.1.Ok? ==>
                          var a := ApplyStatusReply(bank, tx, reply.1.value.status, now);
                          r == Refresh(a.bank, reply.0, Ok(a.tx), a.notices)))
    ensures r.result.Err? ==> r.bank == bank && StartsWith(r.result.error, "Failed to update transaction status: ")
  {
    match FindForRefresh(bank.ledger, reference)
    case Err(msg) => Refresh(bank, cl, Err("Failed to update transaction status: " + msg), [])
    case Ok(tx) =>
      match tx.externalReference
      case None => Refresh(bank, cl, Ok(tx), [])
      case Some(x) =>
        var reply := GatewayCall(cl, o, cfg, now, StatusCall(x));
        match reply.1
        case Err(msg) => Refresh(bank, reply.0, Err("Failed to update transaction status: " + msg), [])
        case Ok(resp) =>
          var a := ApplyStatusReply(bank, tx, resp.status, now);
          Refresh(a.bank, reply.0, Ok(a.tx), a.notices)
  }

  /** Because the stored status is overwritten unconditionally, a COMPLETED deposit that the
      gateway later reports as still processing is credited a second time when it is
      reported complete again. */
  lemma RefreshCreditsTwice(bank: Bank, tx: Transaction, t1: nat, t2: nat, t3: nat)
    requires tx.userId in bank.users
    requires tx.status == Pending && tx.txType == Deposit
    ensures var a1 := ApplyStatusReply(bank, tx, Some("SUCCESSFUL"), t1);
            var a2 := ApplyStatusReply(a1.bank, a1.tx, Some("PROCESSING"), t2);
            var a3 := ApplyStatusReply(a2.bank, a2.tx, Some("SUCCESSFUL"), t3);
            && a3.tx.status == Completed
            && a3.bank.users[tx.userId].balance == bank.users[tx.userId].balance + 2 * tx.amount
  {
    SuccessfulIsCompleted();
    MapGatewayStatusOfName(Processing);
  }

  /** The corrected refresh step: a COMPLETED record is left exactly as it is, so the
      balance change of its completion cannot be applied again. */
  function ApplyStatusReplyGuarded(bank: Bank, tx: Transaction, status: Option<string>, now: nat): (r: Applied)
    ensures (WellFormed(bank.users) ==> WellFormed(r.bank.users)) && r.bank.users.Keys == bank.users.Keys
    ensures tx.status == Completed ==> r == Applied(bank, tx, [])
    ensures tx.status != Completed ==> r == ApplyStatusReply(bank, tx, status, now)
  {
    if tx.status == Completed then Applied(bank, tx, [])
    else ApplyStatusReply(bank, tx, status, now)
  }

  /** Replays a series of gateway replies through the corrected step. */
  function ReplayGuarded(bank: Bank, tx: Transaction, replies: seq<Option<string>>, now: nat): (r: Applied)
    ensures (WellFormed(bank.users) ==> WellFormed(r.bank.users)) && r.bank.users.Keys == bank.users.Keys
    ensures r.tx.userId == tx.userId && r.tx.txType == tx.txType && r.tx.amount == tx.amount
    decreases |replies|
  {
    if |replies| == 0 then Applied(bank, tx, [])
    else
      var a := ApplyStatusReplyGuarded(bank, tx, replies[0], now);
      var rest := ReplayGuarded(a.bank, a.tx, replies[1..], now);
      Applied(rest.bank, rest.tx, a.notices + rest.notices)
  }

  /** With the guard, any series of refreshes changes the owner's balance at most once: by
      the record's delta if it ends COMPLETED having not started so, and otherwise not at
      all. Once COMPLETED it stays COMPLETED. */
  lemma {:induction false} GuardedCreditsOnce(bank: Bank, tx: Transaction, replies: seq<Option<string>>, now: nat)
    requires tx.userId in bank.users
    ensures var r := ReplayGuarded(bank, tx, replies, now);
            && (tx.status == Completed ==> r.tx.status == Completed)
            && r.bank.users[tx.userId].balance ==
                 bank.users[tx.userId].balance +
                 (if tx.status != Completed && r.tx.status == Completed then BalanceDelta(tx.txType, tx.amount) else 0)
    decreases |replies|
  {
    if |replies| > 0 {
      var a := ApplyStatusReplyGuarded(bank, tx, replies[0], now);
      GuardedCreditsOnce(a.bank, a.tx, replies[1..], now);
    }
  }
}
