/** TransferController: the HTTP face of TransferService. `sendMoney` turns the service's
    error text into a status code by looking for key phrases; `validateRecipient` reports
    whether a number is registered and, if so, who holds it. */
module TransferApi {
  import opened Wrappers
  import opened Text
  import opened PhoneNumbers
  import opened Ledger
  import opened Users
  import opened Transfers

  const StatusOk := 200
  const StatusBadRequest := 400
  const StatusUnauthorized := 401
  const StatusNotFound := 404

  /** A response: its status code, the envelope's message and, on success, the record. */
  datatype Reply = Reply(status: int, message: string, tx: Option<Transaction>)

  /** The status `sendMoney` picks for a failure message; the first phrase found wins. */
  function ErrorStatus(msg: string): (code: int)
    ensures code == StatusNotFound <==> Contains(msg, "not found")
    ensures !Contains(msg, "not found") && Contains(msg, "Insufficient balance") ==> code == StatusBadRequest
    ensures code == StatusUnauthorized <==>
              !Contains(msg, "not found") && !Contains(msg, "Insufficient balance") && Contains(msg, "Invalid PIN")
    ensures code in {StatusBadRequest, StatusUnauthorized, StatusNotFound}
  {
    if Contains(msg, "not found") then StatusNotFound
    else if Contains(msg, "Insufficient balance") then StatusBadRequest
    else if Contains(msg, "Invalid PIN") then StatusUnauthorized
    else StatusBadRequest
  }

  /** `sendMoney` for the authenticated `sender`. The service's message, which already starts
      with "Transfer failed: ", is prefixed once more. */
  function SendMoney(bank: Bank, sender: string, req: TransferRequest, ref: string, txId: string, now: nat,
                     matches: (string, string) -> bool): (r: (Bank, Reply))
    requires WellFormed(bank.users) && ref !in bank.ledger
    ensures var outcome := ProcessTransfer(bank, Some(sender), req, ref, txId, now, matches);
            && (r.1.status == StatusOk <==> outcome.Ok?)
            && (outcome.Ok? ==> r == (outcome.value.bank, Reply(StatusOk, "Transfer completed successfully",
                                                                Some(outcome.value.tx))))
            && (outcome.Err? ==> r.0 == bank && r.1.tx.None?
                                 && r.1.message == "Transfer failed: " + outcome.error
                                 && r.1.status == ErrorStatus(outcome.error))
  {
    match ProcessTransfer(bank, Some(sender), req, ref, txId, now, matches)
    case Ok(done) => (done.bank, Reply(StatusOk, "Transfer completed successfully", Some(done.tx)))
    case Err(e) => (bank, Reply(ErrorStatus(e), "Transfer failed: " + e, None))
  }

  /** The status each refusal is meant to produce. */
  function RejectionStatus(k: Rejection): int {
    match k
    case SenderNotFound => StatusNotFound
    case RecipientNotFound => StatusNotFound
    case InvalidPin => StatusUnauthorized
    case InsufficientBalance => StatusBadRequest
    case SelfTransfer => StatusBadRequest
  }

  /** A refusal for an unknown party mentions "not found" and so answers 404. */
  lemma NotFoundStatus(who: string)
    ensures ErrorStatus("Transfer failed: " + ("User not found with phone number: " + who)) == StatusNotFound
  {
    var m := "Transfer failed: " + ("User not found with phone number: " + who);
    assert m == "Transfer failed: User " + "not found" + (" with phone number: " + who);
    ContainsJoin("Transfer failed: User ", "not found", " with phone number: " + who);
  }

  lemma InvalidPinStatus()
    ensures ErrorStatus("Transfer failed: " + "Invalid PIN provided") == StatusUnauthorized
  {
    var m := "Transfer failed: " + "Invalid PIN provided";
    LacksConcat("Transfer failed: ", "Invalid PIN provided", 'u');
    LacksConcat("Transfer failed: ", "Invalid PIN provided", 'b');
    MissingCharExcludes(m, "not found", 6);
    MissingCharExcludes(m, "Insufficient balance", 13);
    assert "Invalid PIN provided"[..11] == "Invalid PIN";
    ContainsInSuffix("Transfer failed: ", "Invalid PIN provided", "Invalid PIN");
  }

  /** The amounts quoted in the insufficient-balance text cannot make it look like
      "not found": neither they nor the fixed text contain an "o". */
  lemma InsufficientStatus(amount: int, balance: int)
    ensures ErrorStatus("Transfer failed: " + ("Insufficient balance. Required: " + TwoDecimals(amount) +
                                               ", Available: " + TwoDecimals(balance))) == StatusBadRequest
  {
    InsufficientTextLacksO(amount, balance);
    MissingCharExcludes("Transfer failed: " + ("Insufficient balance. Required: " + TwoDecimals(amount) +
                                               ", Available: " + TwoDecimals(balance)), "not found", 1);
    InsufficientTextNamesItself(amount, balance);
  }

  lemma InsufficientTextNamesItself(amount: int, balance: int)
    ensures Contains("Transfer failed: " + ("Insufficient balance. Required: " + TwoDecimals(amount) +
                                            ", Available: " + TwoDecimals(balance)), "Insufficient balance")
  {
    var x1 := "Insufficient balance. Required: " + TwoDecimals(amount);
    assert "Insufficient balance. Required: "[..20] == "Insufficient balance";
    ContainsInPrefix("Insufficient balance. Required: ", TwoDecimals(amount), "Insufficient balance");
    ContainsInPrefix(x1, ", Available: ", "Insufficient balance");
    ContainsInPrefix(x1 + ", Available: ", TwoDecimals(balance), "Insufficient balance");
    ContainsInSuffix("Transfer failed: ", x1 + ", Available: " + TwoDecimals(balance), "Insufficient balance");
  }

  lemma InsufficientTextLacksO(amount: int, balance: int)
    ensures Lacks("Transfer failed: " + ("Insufficient balance. Required: " + TwoDecimals(amount) +
                                         ", Available: " + TwoDecimals(balance)), 'o')
  {
    InsufficientPartsLackO();
    NumberTextLacks(amount, 'o');
    NumberTextLacks(balance, 'o');
    var x1 := "Insufficient balance. Required: " + TwoDecimals(amount);
    LacksConcat("Insufficient balance. Required: ", TwoDecimals(amount), 'o');
    LacksConcat(x1, ", Available: ", 'o');
    LacksConcat(x1 + ", Available: ", TwoDecimals(balance), 'o');
    LacksConcat("Transfer failed: ", x1 + ", Available: " + TwoDecimals(balance), 'o');
  }

  /** The fixed pieces of the insufficient-balance text have no "o". */
  lemma InsufficientPartsLackO()
    ensures Lacks("Transfer failed: ", 'o') && Lacks("Insufficient balance. Required: ", 'o')
    ensures Lacks(", Available: ", 'o')
  {
  }

  /** The self-transfer text has no "not found": its only "d"s sit in the prefix, which has
      no "o", so no occurrence can end there, nor straddle the join. */
  lemma SelfTransferNotFound(a: string, b: string)
    requires a == "Transfer failed: " && b == "Cannot transfer money to yourself"
    ensures !Contains(a + b, "not found")
  {
    MissingCharExcludes(a, "not found", 1);
    ConcatExcludes(a, b, "not found");
  }

  /** Nor does it contain a capital "I", which both other phrases start with. */
  lemma SelfTransferOtherPhrases(a: string, b: string)
    requires a == "Transfer failed: " && b == "Cannot transfer money to yourself"
    ensures !Contains(a + b, "Insufficient balance") && !Contains(a + b, "Invalid PIN")
  {
    LacksConcat(a, b, 'I');
    MissingCharExcludes(a + b, "Insufficient balance", 0);
    MissingCharExcludes(a + b, "Invalid PIN", 0);
  }

  lemma SelfTransferStatus()
    ensures ErrorStatus("Transfer failed: " + "Cannot transfer money to yourself") == StatusBadRequest
  {
    SelfTransferNotFound("Transfer failed: ", "Cannot transfer money to yourself");
    SelfTransferOtherPhrases("Transfer failed: ", "Cannot transfer money to yourself");
  }

  /** The phrase matching classifies every refusal of TransferService as intended: the
      texts never trip an earlier phrase by accident. */
  lemma MessageStatus(k: Rejection, senderPhone: Option<string>, req: TransferRequest, balance: int)
    ensures ErrorStatus("Transfer failed: " + TransferServiceMessage(k, senderPhone, req, balance)) == RejectionStatus(k)
  {
    match k
    case SenderNotFound => NotFoundStatus(OptionText(senderPhone));
    case RecipientNotFound => NotFoundStatus(OptionText(req.recipientPhone));
    case InvalidPin => InvalidPinStatus();
    case InsufficientBalance => InsufficientStatus(req.amount, balance);
    case SelfTransfer => SelfTransferStatus();
  }

  /** End to end: a refused transfer answers with the status its refusal calls for and
      changes nothing; an accepted one answers 200. */
  lemma SendMoneyStatus(bank: Bank, sender: string, req: TransferRequest, ref: string, txId: string, now: nat,
                        matches: (string, string) -> bool)
    requires WellFormed(bank.users) && ref !in bank.ledger
    ensures var c := CheckTransfer(bank.users, Some(sender), req, matches);
            var r := SendMoney(bank, sender, req, ref, txId, now, matches);
            && (c.Ok? ==> r.1.status == StatusOk)
            && (c.Err? ==> r.1.status == RejectionStatus(c.error) && r.0 == bank)
  {
    var c := CheckTransfer(bank.users, Some(sender), req, matches);
    if c.Err? {
      MessageStatus(c.error, Some(sender), req, SenderBalance(bank.users, Some(sender)));
    }
  }

  /** The body of `validateRecipient`. `recipientName` is assigned twice, first and last
      name, so the last name is what the response carries. */
  datatype RecipientCheck = RecipientCheck(valid: bool, recipientName: Option<string>,
                                           recipientPhone: Option<string>, message: string)

  /** `validateRecipient`: always 200; the envelope message tells the two outcomes apart. */
  function ValidateRecipient(users: Users, phone: Option<string>): (r: (string, RecipientCheck))
    requires WellFormed(users)
    ensures r.1.valid <==> ExistsByPhone(users, phone)
    ensures r.1.valid ==>
              var u := FindByPhone(users, phone).value;
              && r.1.recipientName == Some(u.lastName)
              && r.1.recipientPhone == Some(u.phoneNumber)
              && r.0 == "Recipient validated successfully"
    ensures !r.1.valid ==>
              r == ("Validation completed",
                    RecipientCheck(false, None, None, "Recipient phone number not found in our system"))
  {
    ExistsIffFound(users, phone);
    if ExistsByPhone(users, phone) then
      var u := FindByPhone(users, phone).value;
      ("Recipient validated successfully",
       RecipientCheck(true, Some(u.lastName), Some(u.phoneNumber), "Recipient found and ready to receive transfer"))
    else
      ("Validation completed", RecipientCheck(false, None, None, "Recipient phone number not found in our system"))
  }

  /** A recipient the validation accepts is never refused as unknown by the transfer, and
      one it rejects always is, with 404, once the sender is known. */
  lemma ValidationPredictsTransfer(bank: Bank, sender: string, req: TransferRequest, ref: string, txId: string,
                                   now: nat, matches: (string, string) -> bool)
    requires WellFormed(bank.users) && ref !in bank.ledger
    requires FindByPhone(bank.users, Some(sender)).Some?
    ensures var v := ValidateRecipient(bank.users, req.recipientPhone).1;
            var c := CheckTransfer(bank.users, Some(sender), req, matches);
            && (v.valid ==> c != Err(RecipientNotFound))
            && (!v.valid ==> c == Err(RecipientNotFound)
                             && SendMoney(bank, sender, req, ref, txId, now, matches).1.status == StatusNotFound)
  {
    ExistsIffFound(bank.users, req.recipientPhone);
    SendMoneyStatus(bank, sender, req, ref, txId, now, matches);
  }
}
