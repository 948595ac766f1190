/** Wallet-to-wallet transfers. Two services implement them: TransferService.processTransfer
    and TransactionService.transfer. Both make the same five checks in the same order and
    move the money the same way; they differ in their error texts, in the order in which
    the ledger record is written, in its timestamps and in the default description. */
module Transfers {
  import opened Wrappers
  import opened Text
  import opened PhoneNumbers
  import opened Ledger
  import opened Users
  import opened Notifications

  /** The request body; `amount` is in whole francs. */
  datatype TransferRequest = TransferRequest(
    recipientPhone: Option<string>,
    amount: int,
    pin: string,
    description: Option<string>)

  /** The persistent state a transfer touches. */
  datatype Bank = Bank(users: Users, ledger: Ledger)

  /** The reasons a transfer is refused, in the order they are checked. */
  datatype Rejection = SenderNotFound | RecipientNotFound | InvalidPin | InsufficientBalance | SelfTransfer

  datatype Parties = Parties(sender: User, recipient: User)

  /** The five checks, each made only when the ones before it passed. `matches` is the
      password encoder's comparison of a raw PIN with the stored encoding. */
  function CheckTransfer(store: Users, senderPhone: Option<string>, req: TransferRequest,
                         matches: (string, string) -> bool): (r: Result<Parties, Rejection>)
    requires WellFormed(store)
    ensures var s := FindByPhone(store, senderPhone);
            var t := FindByPhone(store, req.recipientPhone);
            && (r.Ok? <==> s.Some? && t.Some? && matches(req.pin, s.value.pin) &&
                           s.value.balance >= req.amount && s.value.id != t.value.id)
            && (r.Ok? ==> r.value == Parties(s.value, t.value))
            && (s.None? ==> r == Err(SenderNotFound))
            && (s.Some? && t.None? ==> r == Err(RecipientNotFound))
            && (s.Some? && t.Some? && !matches(req.pin, s.value.pin) ==> r == Err(InvalidPin))
            && (s.Some? && t.Some? && matches(req.pin, s.value.pin) && s.value.balance < req.amount ==>
                  r == Err(InsufficientBalance))
            && (r == Err(SelfTransfer) <==>
                  s.Some? && t.Some? && matches(req.pin, s.value.pin) &&
                  s.value.balance >= req.amount && s.value.id == t.value.id)
  {
    match FindByPhone(store, senderPhone)
    case None => Err(SenderNotFound)
    case Some(sender) =>
      match FindByPhone(store, req.recipientPhone)
      case None => Err(RecipientNotFound)
      case Some(recipient) =>
        if !matches(req.pin, sender.pin) then Err(InvalidPin)
        else if sender.balance < req.amount then Err(InsufficientBalance)
        else if sender.id == recipient.id then Err(SelfTransfer)
        else Ok(Parties(sender, recipient))
  }

  /** The two parties as the checks found them: distinct, and as stored. */
  predicate Found(store: Users, p: Parties) {
    && p.sender.id in store && p.recipient.id in store && p.sender.id != p.recipient.id
    && store[p.sender.id] == p.sender && store[p.recipient.id] == p.recipient
  }

  /** Debit the sender and credit the recipient, each by an absolute balance write computed
      from the balances read before either write. */
  function MoveFunds(store: Users, p: Parties, amount: int, now: nat): (r: Users)
    requires Found(store, p)
    ensures (WellFormed(store) ==> WellFormed(r)) && r.Keys == store.Keys
    ensures r[p.sender.id] == p.sender.(balance := p.sender.balance - amount, updatedAt := now)
    ensures r[p.recipient.id] == p.recipient.(balance := p.recipient.balance + amount, updatedAt := now)
    ensures forall k :: k in store && k != p.sender.id && k != p.recipient.id ==> r[k] == store[k]
    ensures r[p.sender.id].balance + r[p.recipient.id].balance == p.sender.balance + p.recipient.balance
  {
    var debited := UpdateBalance(store, p.sender.id, p.sender.balance - amount, now).value;
    UpdateBalance(debited, p.recipient.id, p.recipient.balance + amount, now).value
  }

  /** Moving funds between two accounts leaves the sum of all balances unchanged. */
  lemma MoveFundsConserves(store: Users, p: Parties, amount: int, now: nat)
    requires Found(store, p)
    ensures Total(MoveFunds(store, p, amount, now)) == Total(store)
  {
    var s := p.sender.id;
    var t := p.recipient.id;
    var debited := UpdateBalance(store, s, p.sender.balance - amount, now).value;
    var credited := MoveFunds(store, p, amount, now);
    SamePointUpdate(store, debited, s);
    TotalUpdate(store, s, debited[s]);
    SamePointUpdate(debited, credited, t);
    TotalUpdate(debited, t, credited[t]);
  }

  /** Two stores that differ at most at `k` are related by one update at `k`. */
  lemma SamePointUpdate(a: Users, b: Users, k: string)
    requires k in b && a.Keys == b.Keys
    requires forall j :: j in a && j != k ==> a[j] == b[j]
    ensures b == a[k := b[k]]
  {
  }

  /** TransferService's texts for each refusal. */
  function TransferServiceMessage(k: Rejection, senderPhone: Option<string>, req: TransferRequest,
                                  balance: int): string {
    match k
    case SenderNotFound => "User not found with phone number: " + OptionText(senderPhone)
    case RecipientNotFound => "User not found with phone number: " + OptionText(req.recipientPhone)
    case InvalidPin => "Invalid PIN provided"
    case InsufficientBalance =>
      "Insufficient balance. Required: " + TwoDecimals(req.amount) + ", Available: " + TwoDecimals(balance)
    case SelfTransfer => "Cannot transfer money to yourself"
  }

  /** TransactionService's texts for each refusal. */
  function TransactionServiceMessage(k: Rejection, senderPhone: Option<string>, req: TransferRequest,
                                     balance: int): string {
    match k
    case SenderNotFound => "Sender not found with phone: " + OptionText(senderPhone)
    case RecipientNotFound => "Recipient not found with phone: " + OptionText(req.recipientPhone)
    case InvalidPin => "Invalid PIN"
    case InsufficientBalance => "Insufficient balance. Current balance: " + WholeDoubleText(balance)
    case SelfTransfer => "Cannot transfer to yourself"
  }

  /** The sender's balance as read at the moment of refusal, for the message. */
  function SenderBalance(store: Users, senderPhone: Option<string>): int
    requires WellFormed(store)
  {
    match FindByPhone(store, senderPhone)
    case None => 0
    case Some(u) => u.balance
  }

  /** A completed transfer: the new state, the saved record and the notifications sent. */
  datatype Done = Done(bank: Bank, tx: Transaction, notices: seq<Notice>)

  /** What a successful transfer leaves behind, common to both services: exactly the two
      balances move, by the amount in opposite directions, and exactly one COMPLETED
      TRANSFER record is added under the fresh reference. */
  predicate Settled(bank: Bank, p: Parties, req: TransferRequest, ref: string, d: Done) {
    && WellFormed(d.bank.users)
    && d.bank.users.Keys == bank.users.Keys
    && p.sender.id in d.bank.users && p.recipient.id in d.bank.users
    && d.bank.users[p.sender.id].balance == p.sender.balance - req.amount
    && d.bank.users[p.recipient.id].balance == p.recipient.balance + req.amount
    && (forall k :: k in bank.users && k != p.sender.id && k != p.recipient.id ==> d.bank.users[k] == bank.users[k])
    && d.bank.ledger == bank.ledger[ref := d.tx]
    && d.tx.reference == ref && d.tx.status == Completed && d.tx.txType == Transfer
    && d.tx.userId == p.sender.id && d.tx.amount == req.amount
    && d.tx.recipientId == Some(p.recipient.id) && d.tx.recipientPhone == Some(p.recipient.phoneNumber)
  }

  /** `TransferService.processTransfer`. The record is first saved PENDING, the balances are
      moved, and the record is saved again as COMPLETED. Notification failures are caught
      and never reach the caller. `ref` and `txId` are the generated reference and id. */
  function ProcessTransfer(bank: Bank, senderPhone: Option<string>, req: TransferRequest, ref: string,
                           txId: string, now: nat, matches: (string, string) -> bool): (r: Result<Done, string>)
    requires WellFormed(bank.users) && ref !in bank.ledger
    ensures var c := CheckTransfer(bank.users, senderPhone, req, matches);
            && (r.Ok? <==> c.Ok?)
            && (c.Err? ==> r == Err("Transfer failed: " +
                                    TransferServiceMessage(c.error, senderPhone, req, SenderBalance(bank.users, senderPhone))))
            && (r.Ok? ==> Settled(bank, c.value, req, ref, r.value))
            && (r.Ok? ==> r.value.tx.description ==
                            Some(req.description.GetOr("Transfer to " + c.value.recipient.phoneNumber)))
            && (r.Ok? ==> r.value.tx.createdAt == Some(now) && r.value.tx.updatedAt == Some(now))
  {
    match CheckTransfer(bank.users, senderPhone, req, matches)
    case Err(k) =>
      Err("Transfer failed: " + TransferServiceMessage(k, senderPhone, req, SenderBalance(bank.users, senderPhone)))
    case Ok(p) => Ok(PendingThenCompleted(bank, p, req, ref, txId, now))
  }

  /** The accepted branch of `processTransfer`: the PENDING record is saved, the balances
      move, and the record is saved again COMPLETED under the same reference. */
  function PendingThenCompleted(bank: Bank, p: Parties, req: TransferRequest, ref: string, txId: string,
                                now: nat): (d: Done)
    requires WellFormed(bank.users) && ref !in bank.ledger && Found(bank.users, p)
    ensures Settled(bank, p, req, ref, d)
    ensures d.tx.description == Some(req.description.GetOr("Transfer to " + p.recipient.phoneNumber))
    ensures d.tx.createdAt == Some(now) && d.tx.updatedAt == Some(now)
  {
    var description := req.description.GetOr("Transfer to " + p.recipient.phoneNumber);
    var pending := Transaction(txId, p.sender.id, Some(p.recipient.id), Some(p.recipient.phoneNumber),
                               Transfer, req.amount, Some(description), Pending, ref, None, None,
                               Some(now), Some(now));
    var ledger1 := Save(bank.ledger, pending);
    var users := MoveFunds(bank.users, p, req.amount, now);
    var completed := SetStatus(pending, Completed, now);
    var ledger2 := Save(ledger1, completed);
    SaveAgainReplaces(bank.ledger, pending, completed);
    Done(Bank(users, ledger2), completed,
         [Notice(p.sender.phoneNumber, "TRANSFER_SENT"), Notice(p.recipient.phoneNumber, "TRANSFER_RECEIVED")])
  }

  /** `TransactionService.transfer`, which saves the record as soon as the checks pass. The record is built with the no-argument constructor,
      so its creation time is never set; it is saved COMPLETED before the balances move,
      and its default description quotes the recipient number as the request spelled it. */
  function ImmediateTransfer(bank: Bank, senderPhone: Option<string>, req: TransferRequest, ref: string,
                    txId: string, now: nat, matches: (string, string) -> bool): (r: Result<Done, string>)
    requires WellFormed(bank.users) && ref !in bank.ledger
    ensures var c := CheckTransfer(bank.users, senderPhone, req, matches);
            && (r.Ok? <==> c.Ok?)
            && (c.Err? ==> r == Err("Transfer failed: " +
                                    TransactionServiceMessage(c.error, senderPhone, req, SenderBalance(bank.users, senderPhone))))
            && (r.Ok? ==> Settled(bank, c.value, req, ref, r.value))
            && (r.Ok? ==> r.value.tx.description ==
                            Some(req.description.GetOr("Transfer to " + OptionText(req.recipientPhone))))
            && (r.Ok? ==> r.value.tx.createdAt.None?)
  {
    match CheckTransfer(bank.users, senderPhone, req, matches)
    case Err(k) =>
      Err("Transfer failed: " + TransactionServiceMessage(k, senderPhone, req, SenderBalance(bank.users, senderPhone)))
    case Ok(p) => Ok(CompletedThenMoved(bank, p, req, ref, txId, now))
  }

  /** The accepted branch of `transfer`: the record is saved COMPLETED at once, then the
      balances move. */
  function CompletedThenMoved(bank: Bank, p: Parties, req: TransferRequest, ref: string, txId: string,
                              now: nat): (d: Done)
    requires WellFormed(bank.users) && ref !in bank.ledger && Found(bank.users, p)
    ensures Settled(bank, p, req, ref, d)
    ensures d.tx.description == Some(req.description.GetOr("Transfer to " + OptionText(req.recipientPhone)))
    ensures d.tx.createdAt.None?
  {
    var description := req.description.GetOr("Transfer to " + OptionText(req.recipientPhone));
    var blank := Transaction(txId, p.sender.id, Some(p.recipient.id), Some(p.recipient.phoneNumber),
                             Transfer, req.amount, Some(description), Pending, ref, None, None, None, None);
    var completed := SetStatus(blank, Completed, now);
    var ledger := Save(bank.ledger, completed);
    var users := MoveFunds(bank.users, p, req.amount, now);
    Done(Bank(users, ledger), completed,
         [Notice(p.sender.phoneNumber, "TRANSFER_SENT"), Notice(p.recipient.phoneNumber, "TRANSFER_RECEIVED"),
          Notice(p.sender.phoneNumber, "BALANCE_UPDATE"), Notice(p.recipient.phoneNumber, "BALANCE_UPDATE")])
  }

  /** Neither service creates or destroys money: the sum of all balances is unchanged. */
  lemma TransferConserves(bank: Bank, senderPhone: Option<string>, req: TransferRequest, ref: string,
                          txId: string, now: nat, matches: (string, string) -> bool)
    requires WellFormed(bank.users) && ref !in bank.ledger
    ensures var r := ProcessTransfer(bank, senderPhone, req, ref, txId, now, matches);
            r.Ok? ==> Total(r.value.bank.users) == Total(bank.users)
    ensures var r := ImmediateTransfer(bank, senderPhone, req, ref, txId, now, matches);
            r.Ok? ==> Total(r.value.bank.users) == Total(bank.users)
  {
    var c := CheckTransfer(bank.users, senderPhone, req, matches);
    if c.Ok? {
      MoveFundsConserves(bank.users, c.value, req.amount, now);
    }
  }

  /** The two services accept exactly the same transfers and leave the same balances. */
  lemma ServicesAgree(bank: Bank, senderPhone: Option<string>, req: TransferRequest, ref: string,
                      txId: string, now: nat, matches: (string, string) -> bool)
    requires WellFormed(bank.users) && ref !in bank.ledger
    ensures var a := ProcessTransfer(bank, senderPhone, req, ref, txId, now, matches);
            var b := ImmediateTransfer(bank, senderPhone, req, ref, txId, now, matches);
            && (a.Ok? <==> b.Ok?)
            && (a.Ok? ==> a.value.bank.users == b.value.bank.users)
            && (a.Ok? ==> a.value.bank.ledger.Keys == b.value.bank.ledger.Keys)
  {
  }

  /** The balance check is strict, so the whole balance may be sent; the sender ends at 0. */
  lemma FullBalanceTransfer(bank: Bank, senderPhone: Option<string>, req: TransferRequest, ref: string,
                            txId: string, now: nat, matches: (string, string) -> bool)
    requires WellFormed(bank.users) && ref !in bank.ledger
    requires FindByPhone(bank.users, senderPhone).Some? && FindByPhone(bank.users, req.recipientPhone).Some?
    requires var s := FindByPhone(bank.users, senderPhone).value;
             matches(req.pin, s.pin) && req.amount == s.balance &&
             s.id != FindByPhone(bank.users, req.recipientPhone).value.id
    ensures var r := ProcessTransfer(bank, senderPhone, req, ref, txId, now, matches);
            r.Ok? && r.value.bank.users[FindByPhone(bank.users, senderPhone).value.id].balance == 0
  {
  }

  /** A transfer to oneself is refused whatever spelling of the own number is used, and
      only once every earlier check has passed. */
  lemma SelfTransferRefused(bank: Bank, l: string, req: TransferRequest, matches: (string, string) -> bool)
    requires WellFormed(bank.users)
    requires IsLocalNumber(l) && !StartsWith(l, "237")
    requires req.recipientPhone == Some("237" + l)
    requires FindByPhone(bank.users, Some(l)).Some?
    requires var s := FindByPhone(bank.users, Some(l)).value; matches(req.pin, s.pin) && s.balance >= req.amount
    ensures CheckTransfer(bank.users, Some(l), req, matches) == Err(SelfTransfer)
  {
    FormsFindSameUser(bank.users, l);
  }
}
