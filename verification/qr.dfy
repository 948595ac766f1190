/** QRCodeService: the payment data a user's QR code carries, the checks applied to data
    read back from a scanned code, and the recipient check. JSON serialisation is taken to
    round-trip the four fields, so a code is modelled by its data; the image is not. */
module QrCodes {
  import opened Wrappers
  import opened Text
  import opened PhoneNumbers
  import opened Users
  import opened Transfers

  const TransferType := "gpay_transfer"
  const QrVersion := "1.0"

  /** `QRCodeData`; a `None` field is a JSON null or a missing property. */
  datatype QrData = QrData(kind: Option<string>, phone: Option<string>, name: Option<string>,
                           version: Option<string>)

  /** A field that is null or only whitespace after `trim()`. */
  predicate Missing(field: Option<string>) {
    field.None? || IsBlank(field.value)
  }

  const NotTransferMessage := "Invalid QR code format. Not a GPay transfer QR code."
  const MissingPhoneMessage := "Invalid QR code: Missing phone number"
  const MissingNameMessage := "Invalid QR code: Missing user name"

  /** The checks of `parseQRCode`, in order: the type, then the phone, then the name. */
  function CheckQrData(data: QrData): (r: Option<string>)
    ensures r.None? <==> data.kind == Some(TransferType) && !Missing(data.phone) && !Missing(data.name)
    ensures data.kind != Some(TransferType) ==> r == Some(NotTransferMessage)
    ensures data.kind == Some(TransferType) && Missing(data.phone) ==> r == Some(MissingPhoneMessage)
    ensures data.kind == Some(TransferType) && !Missing(data.phone) && Missing(data.name) ==>
              r == Some(MissingNameMessage)
  {
    if data.kind != Some(TransferType) then Some(NotTransferMessage)
    else if Missing(data.phone) then Some(MissingPhoneMessage)
    else if Missing(data.name) then Some(MissingNameMessage)
    else None
  }

  /** `parseQRCode`. `decoded` is what the JSON reader produced, or the reader's error
      message; every failure, the checks' own included, comes back behind one prefix. */
  function ParseQr(decoded: Result<QrData, string>): (r: Result<QrData, string>)
    ensures decoded.Err? ==> r == Err("Invalid QR code format: " + decoded.error)
    ensures r.Ok? <==> decoded.Ok? && CheckQrData(decoded.value).None?
    ensures r.Ok? ==> r.value == decoded.value
    ensures decoded.Ok? && CheckQrData(decoded.value).Some? ==>
              r == Err("Invalid QR code format: " + CheckQrData(decoded.value).value)
  {
    match decoded
    case Err(e) => Err("Invalid QR code format: " + e)
    case Ok(data) =>
      match CheckQrData(data)
      case Some(e) => Err("Invalid QR code format: " + e)
      case None => Ok(data)
  }

  /** The data of `generateUserQRCode` for the user found under `phone`. */
  function GenerateQrData(users: Users, phone: Option<string>): (r: Result<QrData, string>)
    requires WellFormed(users)
    ensures FindByPhone(users, phone).None? ==>
              r == Err("Failed to generate QR code: User not found with phone: " + OptionText(phone))
    ensures r.Ok? <==> FindByPhone(users, phone).Some?
    ensures r.Ok? ==>
              var u := FindByPhone(users, phone).value;
              && r.value.kind == Some(TransferType) && r.value.version == Some(QrVersion)
              && r.value.phone == Some(u.phoneNumber)
              && r.value.name == Some(u.firstName + " " + u.lastName)
  {
    match FindByPhone(users, phone)
    case None => Err("Failed to generate QR code: User not found with phone: " + OptionText(phone))
    case Some(user) =>
      Ok(QrData(Some(TransferType), Some(user.phoneNumber), Some(user.firstName + " " + user.lastName),
                Some(QrVersion)))
  }

  /** `validateQRRecipient`: whether a user is registered under the code's phone number. */
  function ValidateQrRecipient(users: Users, data: QrData): (b: bool)
    requires WellFormed(users)
    ensures b <==> data.phone.Some? && HasPhone(users, Normalize(data.phone).value)
  {
    FindByPhone(users, data.phone).Some?
  }

  /** Scanning a generated code gives back its data exactly, unless the user's stored phone
      or the composed name is blank, which the checks then reject. */
  lemma GenerateThenParse(users: Users, phone: Option<string>)
    requires WellFormed(users)
    requires GenerateQrData(users, phone).Ok?
    ensures var data := GenerateQrData(users, phone).value;
            var u := FindByPhone(users, phone).value;
            ParseQr(Ok(data)).Ok? <==> !IsBlank(u.phoneNumber) && !IsBlank(u.firstName + " " + u.lastName)
    ensures var data := GenerateQrData(users, phone).value;
            ParseQr(Ok(data)).Ok? ==> ParseQr(Ok(data)) == Ok(data)
  {
  }

  /** A generated code always names a registered recipient: the stored number finds the
      user it was generated for. */
  lemma GeneratedRecipientValid(users: Users, phone: Option<string>)
    requires WellFormed(users)
    requires GenerateQrData(users, phone).Ok?
    ensures ValidateQrRecipient(users, GenerateQrData(users, phone).value)
    ensures FindByPhone(users, GenerateQrData(users, phone).value.phone) == FindByPhone(users, phone)
  {
    var u := FindByPhone(users, phone).value;
    NormalizeIdempotent(phone);
    assert Normalize(Some(u.phoneNumber)) == Some(u.phoneNumber);
    assert HasPhone(users, u.phoneNumber);
  }
}
