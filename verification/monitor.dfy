/** The background monitor of TransactionService (`startTransactionMonitoring` and
    `monitorTransactionStatus`), written as a recursion over the attempts. The gateway's
    answers to the status queries are a sequence with one entry per attempt, and so are the
    clock readings the attempts stamp their writes with; on schedule, the reading at attempt
    k is the start time plus `Elapsed(k)`, the pauses slept before it.

    The loop re-reads the record at every attempt and reads its owner when it completes or
    fails it. Nothing but the loop writes either of them, so each read gives what the loop
    last saved: the recursion carries the record and the owner from attempt to attempt, and
    `StartMonitoring` writes them back into the bank. */
module Monitor {
  import opened Wrappers
  import opened Text
  import opened Ledger
  import opened Users
  import opened Notifications
  import opened Transfers
  import opened Settlement

  const MaxAttempts: nat := 10

  /** The pauses, in milliseconds. */
  const Delays: seq<nat> := [5000, 10000, 15000, 30000, 60000, 120000, 300000, 600000, 900000, 1800000]

  /** The pause before attempt `k` (none before the first): `delays[min(k - 1, 9)]`. */
  function DelayBefore(k: nat): (d: nat)
    requires k >= 1
    ensures 5000 <= d <= 1800000
  {
    Delays[if k - 1 < |Delays| - 1 then k - 1 else |Delays| - 1]
  }

  /** Milliseconds slept before attempt `k` starts. */
  function Elapsed(k: nat): nat {
    if k == 0 then 0 else Elapsed(k - 1) + DelayBefore(k)
  }

  /** Within the ten attempts the index never reaches the last delay, so the 30-minute
      pause is never taken, and the pauses grow strictly. */
  lemma DelaySchedule(k: nat)
    requires 1 <= k < MaxAttempts
    ensures DelayBefore(k) == Delays[k - 1] && DelayBefore(k) < Delays[|Delays| - 1]
    ensures k >= 2 ==> DelayBefore(k - 1) < DelayBefore(k)
  {
  }

  /** The last attempt starts 2,040,000 ms (34 minutes) after the first. */
  lemma MonitoringSpan()
    ensures Elapsed(MaxAttempts - 1) == 2040000
  {
    assert Elapsed(1) == 5000;
    assert Elapsed(2) == 15000;
    assert Elapsed(3) == 30000;
    assert Elapsed(4) == 60000;
    assert Elapsed(5) == 120000;
    assert Elapsed(6) == 240000;
    assert Elapsed(7) == 540000;
    assert Elapsed(8) == 1140000;
  }

  /** One gateway answer to a status query: a response carrying a status (possibly null),
      an empty response, or an exception. */
  datatype Poll = Answer(status: Option<string>) | NoAnswer | Throws

  /** What one attempt leads to: go on with the next attempt, carrying the record as it
      now stands, or leave the loop. Only a stopping attempt changes the owner; `forced`
      marks the FAILED written by the last attempt's exception handler. */
  datatype Outcome =
    | Continue(tx: Transaction)
    | Stop(tx: Transaction, owner: Option<User>, notices: seq<Notice>, forced: bool)

  /** One attempt on a non-terminal record `cur` whose owner is `owner`, at clock `now`;
      `last` says whether it is the tenth. Whatever the gateway says, the record keeps its
      reference, owner, type and amount, and the owner changes only when the attempt
      completes the record, by exactly the record's delta. `AttemptCases` states what each
      answer does. */
  function Attempt(cur: Transaction, owner: Option<User>, poll: Poll, last: bool, now: nat): (r: Outcome)
    requires !IsTerminal(cur.status)
    ensures && r.tx.reference == cur.reference && r.tx.userId == cur.userId
            && r.tx.txType == cur.txType && r.tx.amount == cur.amount
    ensures r.Stop? && r.owner != owner ==>
              && owner.Some? && r.tx.status == Completed
              && r.owner == Some(Credited(owner.value, cur, now))
    ensures r.Stop? && r.forced ==> poll == Throws && last && r.tx.status == Failed
  {
    match poll
    case Throws =>
      if !last then Continue(cur)
      else if cur.status == Pending then
        var failed := SetStatus(cur, Failed, now);
        Stop(failed, owner, if owner.Some? then FailureNotices(owner.value, failed) else [], true)
      else Stop(cur, owner, [], false)
    case NoAnswer => Continue(cur)
    case Answer(s) =>
      var status := MapGatewayStatus(s);
      if status == cur.status then Continue(cur)
      else
        var updated := SetStatus(cur, status, now);
        match owner
        case None => Continue(updated)
        case Some(user) =>
          if status == Completed then
            Stop(updated, Some(Credited(user, cur, now)), CompletionNotices(user, updated), false)
          else if status == Failed then Stop(updated, owner, FailureNotices(user, updated), false)
          else Continue(updated)
  }

  /** What each answer does. No answer, an unchanged status or an early exception change
      nothing and go on. A changed status is saved; with the owner present, COMPLETED credits
      the owner and stops and FAILED stops. An exception on the last attempt stops, forcing a
      PENDING record to FAILED. */
  lemma AttemptCases(cur: Transaction, owner: Option<User>, poll: Poll, last: bool, now: nat)
    requires !IsTerminal(cur.status)
    ensures var r := Attempt(cur, owner, poll, last, now);
            && (poll == NoAnswer ==> r == Continue(cur))
            && (poll.Answer? && MapGatewayStatus(poll.status) == cur.status ==> r == Continue(cur))
            && (poll == Throws && !last ==> r == Continue(cur))
            && (poll == Throws && last && cur.status != Pending ==> r == Stop(cur, owner, [], false))
            && (poll == Throws && last && cur.status == Pending ==>
                  r.Stop? && r.forced && r.owner == owner && r.tx == SetStatus(cur, Failed, now))
    ensures var r := Attempt(cur, owner, poll, last, now);
            poll.Answer? && MapGatewayStatus(poll.status) != cur.status ==>
              var status := MapGatewayStatus(poll.status);
              && r.tx == SetStatus(cur, status, now)
              && (owner.Some? && status == Completed ==>
                    r.Stop? && !r.forced && r.owner == Some(Credited(owner.value, cur, now)))
              && (owner.Some? && status == Failed ==> r.Stop? && !r.forced && r.owner == owner)
              && (!(owner.Some? && IsTerminal(status)) ==> r.Continue?)
  {
  }

  /** Where the loop leaves the record and its owner, the notifications it sent, the number
      of attempts it made, and whether it forced the record to FAILED after the last attempt
      failed. */
  datatype Track = Track(tx: Transaction, owner: Option<User>, notices: seq<Notice>, attempts: nat, forced: bool)

  /** The loop from attempt `attempt` on. `clocks[k]` is the time read at attempt `k`. The
      loop stops when the record is terminal, when an attempt says so, or after the tenth
      attempt. */
  function Run(cur: Transaction, owner: Option<User>, replies: seq<Poll>, clocks: seq<nat>, attempt: nat): (r: Track)
    requires attempt <= MaxAttempts && |replies| == MaxAttempts && |clocks| == MaxAttempts
    ensures && r.tx.reference == cur.reference && r.tx.userId == cur.userId
            && r.tx.txType == cur.txType && r.tx.amount == cur.amount
    ensures attempt < MaxAttempts ==> 1 <= r.attempts
    ensures r.attempts <= MaxAttempts - attempt
    ensures IsTerminal(cur.status) ==> r == Track(cur, owner, [], if attempt < MaxAttempts then 1 else 0, false)
    ensures r.owner != owner ==>
              && owner.Some? && r.owner.Some? && cur.status != Completed && r.tx.status == Completed
              && r.owner.value.balance == owner.value.balance + BalanceDelta(cur.txType, cur.amount)
              && r.owner.value.(balance := owner.value.balance, updatedAt := owner.value.updatedAt) == owner.value
    decreases MaxAttempts - attempt
  {
    if attempt == MaxAttempts then Track(cur, owner, [], 0, false)
    else if IsTerminal(cur.status) then Track(cur, owner, [], 1, false)
    else
      match Attempt(cur, owner, replies[attempt], attempt == MaxAttempts - 1, clocks[attempt])
      case Stop(t, o, n, forced) => Track(t, o, n, 1, forced)
      case Continue(t) =>
        var rest := Run(t, owner, replies, clocks, attempt + 1);
        rest.(attempts := rest.attempts + 1)
  }

  /** A record is forced to FAILED only by an exception on the tenth attempt, and only after
      all ten attempts were made. */
  lemma {:induction false} ForcedOnlyAtEnd(cur: Transaction, owner: Option<User>, replies: seq<Poll>,
                                           clocks: seq<nat>, attempt: nat)
    requires attempt <= MaxAttempts && |replies| == MaxAttempts && |clocks| == MaxAttempts
    ensures var r := Run(cur, owner, replies, clocks, attempt);
            r.forced ==> replies[MaxAttempts - 1] == Throws && r.attempts == MaxAttempts - attempt && r.tx.status == Failed
    decreases MaxAttempts - attempt
  {
    if attempt < MaxAttempts && !IsTerminal(cur.status) {
      var o := Attempt(cur, owner, replies[attempt], attempt == MaxAttempts - 1, clocks[attempt]);
      if o.Continue? {
        ForcedOnlyAtEnd(o.tx, owner, replies, clocks, attempt + 1);
      }
    }
  }

  /** Once PROCESSING, answers of "PROCESSING" change nothing at all and use every
      remaining attempt. */
  lemma {:induction false} ProcessingStays(cur: Transaction, owner: Option<User>, replies: seq<Poll>,
                                           clocks: seq<nat>, attempt: nat)
    requires attempt <= MaxAttempts && |replies| == MaxAttempts && |clocks| == MaxAttempts
    requires forall k :: 0 <= k < MaxAttempts ==> replies[k] == Answer(Some("PROCESSING"))
    requires cur.status == Processing
    ensures Run(cur, owner, replies, clocks, attempt) == Track(cur, owner, [], MaxAttempts - attempt, false)
    decreases MaxAttempts - attempt
  {
    if attempt < MaxAttempts {
      MapGatewayStatusOfName(Processing);
      assert replies[attempt] == Answer(Some("PROCESSING"));
      AttemptCases(cur, owner, replies[attempt], attempt == MaxAttempts - 1, clocks[attempt]);
      ProcessingStays(cur, owner, replies, clocks, attempt + 1);
    }
  }

  /** The tenth attempt on a PENDING or PROCESSING record throws: a PENDING record is forced
      to FAILED, a PROCESSING one is left alone, and the owner is untouched. */
  lemma LastAttemptThrows(cur: Transaction, owner: Option<User>, replies: seq<Poll>, clocks: seq<nat>)
    requires |replies| == MaxAttempts && |clocks| == MaxAttempts && replies[MaxAttempts - 1] == Throws
    requires cur.status == Pending || cur.status == Processing
    ensures var r := Run(cur, owner, replies, clocks, MaxAttempts - 1);
            && r.owner == owner && r.attempts == 1
            && r.forced == (cur.status == Pending)
            && r.tx.status == (if cur.status == Pending then Failed else Processing)
  {
    AttemptCases(cur, owner, Throws, true, clocks[MaxAttempts - 1]);
  }

  /** Empty answers before the last attempt change nothing: the run is the tenth attempt's,
      with the earlier attempts added to the count. */
  lemma {:induction false} SilentUntilLast(cur: Transaction, owner: Option<User>, replies: seq<Poll>,
                                           clocks: seq<nat>, attempt: nat)
    requires attempt < MaxAttempts && |replies| == MaxAttempts && |clocks| == MaxAttempts
    requires !IsTerminal(cur.status)
    requires forall k :: 0 <= k < MaxAttempts - 1 ==> replies[k] == NoAnswer
    ensures var last := Run(cur, owner, replies, clocks, MaxAttempts - 1);
            Run(cur, owner, replies, clocks, attempt) == last.(attempts := last.attempts + (MaxAttempts - 1 - attempt))
    decreases MaxAttempts - attempt
  {
    if attempt < MaxAttempts - 1 {
      assert replies[attempt] == NoAnswer;
      AttemptCases(cur, owner, replies[attempt], false, clocks[attempt]);
      SilentUntilLast(cur, owner, replies, clocks, attempt + 1);
    }
  }

  /** The forced FAILED: a PENDING record whose status queries all come back empty, the last
      one with an exception, ends FAILED after ten attempts with the owner untouched. A
      PROCESSING record in the same situation is left PROCESSING. */
  lemma SilentGatewayFails(cur: Transaction, owner: Option<User>, replies: seq<Poll>, clocks: seq<nat>)
    requires |replies| == MaxAttempts && |clocks| == MaxAttempts
    requires forall k :: 0 <= k < MaxAttempts - 1 ==> replies[k] == NoAnswer
    requires replies[MaxAttempts - 1] == Throws
    requires cur.status == Pending || cur.status == Processing
    ensures var r := Run(cur, owner, replies, clocks, 0);
            && r.owner == owner && r.attempts == MaxAttempts
            && r.forced == (cur.status == Pending)
            && r.tx.status == (if cur.status == Pending then Failed else Processing)
  {
    SilentUntilLast(cur, owner, replies, clocks, 0);
    LastAttemptThrows(cur, owner, replies, clocks);
  }

  /** The bank the monitor leaves, the notifications it sent, the number of attempts it made,
      and whether it forced the record to FAILED. */
  datatype Watch = Watch(bank: Bank, notices: seq<Notice>, attempts: nat, forcedFailed: bool)

  /** What a monitoring run may do to the bank: it touches only the watched record and its
      owner, keeps the record's owner, type and amount, and changes a balance only by
      completing the record, with exactly the record's delta. */
  predicate Confined(before: Bank, reference: string, after: Bank) {
    && after.users.Keys == before.users.Keys && after.ledger.Keys == before.ledger.Keys
    && (forall k :: k in before.ledger && k != reference ==> after.ledger[k] == before.ledger[k])
    && (reference in before.ledger ==>
          var tx := before.ledger[reference];
          var done := after.ledger[reference];
          && done.userId == tx.userId && done.txType == tx.txType && done.amount == tx.amount
          && (forall k :: k in before.users && k != tx.userId ==> after.users[k] == before.users[k]))
    && (reference in before.ledger && after.users != before.users ==>
          var tx := before.ledger[reference];
          && tx.userId in before.users && tx.status != Completed
          && after.users[tx.userId].balance == before.users[tx.userId].balance + BalanceDelta(tx.txType, tx.amount)
          && after.ledger[reference].status == Completed)
  }

  /** `startTransactionMonitoring`: no loop at all for a COMPLETED or FAILED record or one
      without an external reference; a record missing from the store ends the loop at its
      first attempt. Otherwise the loop runs on the stored record and its owner, and their
      final states are saved. */
  function StartMonitoring(bank: Bank, tx: Transaction, replies: seq<Poll>, clocks: seq<nat>): (r: Watch)
    requires Keyed(bank.ledger) && |replies| == MaxAttempts && |clocks| == MaxAttempts
    ensures !ShouldMonitor(tx) ==> r == Watch(bank, [], 0, false)
    ensures ShouldMonitor(tx) ==> 1 <= r.attempts <= MaxAttempts
    ensures ShouldMonitor(tx) && tx.reference !in bank.ledger ==> r == Watch(bank, [], 1, false)
    ensures Keyed(r.bank.ledger) && Confined(bank, tx.reference, r.bank)
  {
    if !ShouldMonitor(tx) then Watch(bank, [], 0, false)
    else if tx.reference !in bank.ledger then Watch(bank, [], 1, false)
    else
      var stored := bank.ledger[tx.reference];
      var owner := FindById(bank.users, stored.userId);
      var t := Run(stored, owner, replies, clocks, 0);
      var users := if t.owner != owner then bank.users[stored.userId := t.owner.value] else bank.users;
      Watch(Bank(users, Save(bank.ledger, t.tx)), t.notices, t.attempts, t.forced)
  }

  /** A gateway that keeps answering "PROCESSING" moves a monitored PENDING record to
      PROCESSING on the first attempt, then uses all ten attempts and never touches a
      balance. */
  lemma ProcessingForever(bank: Bank, tx: Transaction, replies: seq<Poll>, clocks: seq<nat>)
    requires Keyed(bank.ledger) && |replies| == MaxAttempts && |clocks| == MaxAttempts
    requires forall k :: 0 <= k < MaxAttempts ==> replies[k] == Answer(Some("PROCESSING"))
    requires ShouldMonitor(tx) && tx.reference in bank.ledger && bank.ledger[tx.reference].status == Pending
    ensures var r := StartMonitoring(bank, tx, replies, clocks);
            && r.bank.users == bank.users
            && r.attempts == MaxAttempts
            && r.bank.ledger[tx.reference] == SetStatus(bank.ledger[tx.reference], Processing, clocks[0])
            && !r.forcedFailed
  {
    var stored := bank.ledger[tx.reference];
    var owner := FindById(bank.users, stored.userId);
    MapGatewayStatusOfName(Processing);
    assert replies[0] == Answer(Some("PROCESSING"));
    AttemptCases(stored, owner, replies[0], false, clocks[0]);
    ProcessingStays(SetStatus(stored, Processing, clocks[0]), owner, replies, clocks, 1);
  }

  /** Over a whole monitoring run the sum of all balances moves at most once, by the
      record's delta, and only when the run completed the record. */
  lemma MonitoringMovesTotalOnce(bank: Bank, tx: Transaction, replies: seq<Poll>, clocks: seq<nat>)
    requires Keyed(bank.ledger) && |replies| == MaxAttempts && |clocks| == MaxAttempts
    requires tx.reference in bank.ledger
    ensures var r := StartMonitoring(bank, tx, replies, clocks);
            var stored := bank.ledger[tx.reference];
            || Total(r.bank.users) == Total(bank.users)
            || (&& Total(r.bank.users) == Total(bank.users) + BalanceDelta(stored.txType, stored.amount)
                && stored.status != Completed && r.bank.ledger[tx.reference].status == Completed)
  {
    var r := StartMonitoring(bank, tx, replies, clocks);
    var stored := bank.ledger[tx.reference];
    if r.bank.users != bank.users {
      var id := stored.userId;
      SamePointUpdate(bank.users, r.bank.users, id);
      TotalUpdate(bank.users, id, r.bank.users[id]);
    }
  }
}
