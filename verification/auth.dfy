/** The OTP login flow of AuthService: `requestLoginOTP`, `verifyLoginOTP` and
    `authenticateWithOTP`, over the user store and the OTP store. The password encoder's
    check (`matches`) and the JWT issuer (`jwt`, applied to the user's stored phone number)
    are parameters, as are the random draw, the clock and whether the SMS carrier fails. */
module Auth {
  import opened Wrappers
  import opened Text
  import opened PhoneNumbers
  import opened Users
  import opened Notifications
  import opened Transfers

  /** The body of an OTP request; a `None` password skips the password check. */
  datatype OtpRequest = OtpRequest(phoneNumber: Option<string>, password: Option<string>)

  /** The OTP store after a request, and the reply or the error message. */
  datatype OtpIssued = OtpIssued(otps: OtpStore, result: Result<string, string>)

  /** `AuthResponse`: the token and the user it was issued for. */
  datatype Login = Login(token: string, user: User)

  /** The OTP store after a verification, and the login or the error message. */
  datatype LoginAttempt = LoginAttempt(otps: OtpStore, result: Result<Login, string>)

  const InvalidOtpMessage := "Invalid or expired OTP"

  /** `requestLoginOTP`: an unknown number is refused first, then a supplied password that
      does not match; only then is a code generated, under the number as the user record
      stores it. A failed SMS still leaves the new code stored. */
  function RequestLoginOtp(users: Users, otps: OtpStore, req: OtpRequest, draw: nat, now: nat,
                           smsFails: bool, matches: (string, string) -> bool): (r: OtpIssued)
    requires WellFormed(users) && draw < OtpBound
    ensures FindByPhone(users, req.phoneNumber).None? ==>
              r == OtpIssued(otps, Err("User not found with phone: " + OptionText(req.phoneNumber)))
    ensures var u := FindByPhone(users, req.phoneNumber);
            u.Some? && req.password.Some? && !matches(req.password.value, u.value.password) ==>
              r == OtpIssued(otps, Err("Invalid password"))
    ensures var u := FindByPhone(users, req.phoneNumber);
            u.Some? && (req.password.None? || matches(req.password.value, u.value.password)) ==>
              && r.otps == GenerateOtp(otps, u.value.phoneNumber, draw, now, smsFails).store
              && r.otps[u.value.phoneNumber] == OtpEntry(FormatOtp(draw), now + OtpExpiryMillis)
              && r.result == (if smsFails then Err("Failed to send OTP")
                              else Ok("OTP sent successfully to " + u.value.phoneNumber))
    ensures r.otps != otps ==> FindByPhone(users, req.phoneNumber).Some?
  {
    match FindByPhone(users, req.phoneNumber)
    case None => OtpIssued(otps, Err("User not found with phone: " + OptionText(req.phoneNumber)))
    case Some(user) =>
      if req.password.Some? && !matches(req.password.value, user.password) then
        OtpIssued(otps, Err("Invalid password"))
      else
        var sent := GenerateOtp(otps, user.phoneNumber, draw, now, smsFails);
        match sent.outcome
        case Err(e) => OtpIssued(sent.store, Err(e))
        case Ok(_) => OtpIssued(sent.store, Ok("OTP sent successfully to " + user.phoneNumber))
  }

  /** `verifyLoginOTP`: the user is looked up first; the code is then checked (and consumed
      or expired) under the stored number, and a good code yields a token for that number. */
  function VerifyLoginOtp(users: Users, otps: OtpStore, phone: Option<string>, otp: Option<string>, now: nat,
                          jwt: string -> string): (r: LoginAttempt)
    requires WellFormed(users)
    ensures FindByPhone(users, phone).None? ==>
              r == LoginAttempt(otps, Err("User not found with phone: " + OptionText(phone)))
    ensures var u := FindByPhone(users, phone);
            u.Some? ==>
              var checked := VerifyOtp(otps, u.value.phoneNumber, otp, now);
              && r.otps == checked.store
              && (checked.valid <==> r.result.Ok?)
              && (!checked.valid ==> r.result == Err(InvalidOtpMessage))
    ensures r.result.Ok? ==>
              && FindByPhone(users, phone) == Some(r.result.value.user)
              && r.result.value.token == jwt(r.result.value.user.phoneNumber)
  {
    match FindByPhone(users, phone)
    case None => LoginAttempt(otps, Err("User not found with phone: " + OptionText(phone)))
    case Some(user) =>
      var checked := VerifyOtp(otps, user.phoneNumber, otp, now);
      if !checked.valid then LoginAttempt(checked.store, Err(InvalidOtpMessage))
      else LoginAttempt(checked.store, Ok(Login(jwt(user.phoneNumber), user)))
  }

  /** `authenticateWithOTP`: the password is checked before the code, so a wrong password
      leaves the stored code untouched. */
  function AuthenticateWithOtp(users: Users, otps: OtpStore, phone: Option<string>, password: string,
                               otp: Option<string>, now: nat, matches: (string, string) -> bool,
                               jwt: string -> string): (r: LoginAttempt)
    requires WellFormed(users)
    ensures FindByPhone(users, phone).None? ==> r == LoginAttempt(otps, Err("User not found"))
    ensures var u := FindByPhone(users, phone);
            u.Some? && !matches(password, u.value.password) ==> r == LoginAttempt(otps, Err("Invalid password"))
    ensures var u := FindByPhone(users, phone);
            u.Some? && matches(password, u.value.password) ==>
              var checked := VerifyOtp(otps, u.value.phoneNumber, otp, now);
              && r.otps == checked.store
              && (checked.valid <==> r.result.Ok?)
              && (!checked.valid ==> r.result == Err(InvalidOtpMessage))
    ensures r.result.Ok? ==>
              && FindByPhone(users, phone) == Some(r.result.value.user)
              && matches(password, r.result.value.user.password)
              && r.result.value.token == jwt(r.result.value.user.phoneNumber)
  {
    match FindByPhone(users, phone)
    case None => LoginAttempt(otps, Err("User not found"))
    case Some(user) =>
      if !matches(password, user.password) then LoginAttempt(otps, Err("Invalid password"))
      else
        var checked := VerifyOtp(otps, user.phoneNumber, otp, now);
        if !checked.valid then LoginAttempt(checked.store, Err(InvalidOtpMessage))
        else LoginAttempt(checked.store, Ok(Login(jwt(user.phoneNumber), user)))
  }

  /** The three spellings of one number lead to the same OTP entry: requesting a code with
      any of them writes the same store and, on success, the same reply. */
  lemma SpellingsShareOtp(users: Users, otps: OtpStore, l: string, password: Option<string>,
                          draw: nat, now: nat, smsFails: bool, matches: (string, string) -> bool)
    requires WellFormed(users) && draw < OtpBound
    requires IsLocalNumber(l) && !StartsWith(l, "237")
    ensures var a := RequestLoginOtp(users, otps, OtpRequest(Some(l), password), draw, now, smsFails, matches);
            var b := RequestLoginOtp(users, otps, OtpRequest(Some("237" + l), password), draw, now, smsFails, matches);
            var c := RequestLoginOtp(users, otps, OtpRequest(Some("+237" + l), password), draw, now, smsFails, matches);
            && a.otps == b.otps == c.otps
            && (a.result.Ok? ==> b.result == a.result && c.result == a.result)
  {
    FormsFindSameUser(users, l);
  }

  /** A code requested under one spelling of a number logs the user in under another, until
      it expires; the code is then gone. */
  lemma RequestThenVerify(users: Users, otps: OtpStore, l: string, draw: nat, now: nat,
                          later: nat, matches: (string, string) -> bool, jwt: string -> string)
    requires WellFormed(users) && draw < OtpBound
    requires IsLocalNumber(l) && !StartsWith(l, "237")
    requires RequestLoginOtp(users, otps, OtpRequest(Some(l), None), draw, now, false, matches).result.Ok?
    ensures var issued := RequestLoginOtp(users, otps, OtpRequest(Some(l), None), draw, now, false, matches);
            var v := VerifyLoginOtp(users, issued.otps, Some("+237" + l), Some(FormatOtp(draw)), later, jwt);
            && (v.result.Ok? <==> later <= now + OtpExpiryMillis)
            && (v.result.Ok? ==> v.result.value.user == FindByPhone(users, Some(l)).value)
            && (v.result.Ok? ==> FindByPhone(users, Some(l)).value.phoneNumber !in v.otps)
  {
    FormsFindSameUser(users, l);
    var issued := RequestLoginOtp(users, otps, OtpRequest(Some(l), None), draw, now, false, matches);
    var user := FindByPhone(users, Some(l)).value;
    GenerateThenVerify(otps, user.phoneNumber, draw, now, false, later);
  }

  /** A wrong password never consumes a code: the stored entry survives for the next try. */
  lemma WrongPasswordKeepsOtp(users: Users, otps: OtpStore, phone: Option<string>, password: string,
                              otp: Option<string>, now: nat, matches: (string, string) -> bool,
                              jwt: string -> string)
    requires WellFormed(users)
    requires FindByPhone(users, phone).Some? && !matches(password, FindByPhone(users, phone).value.password)
    ensures AuthenticateWithOtp(users, otps, phone, password, otp, now, matches, jwt).otps == otps
    ensures AuthenticateWithOtp(users, otps, phone, password, otp, now, matches, jwt).result.Err?
  {
  }

  /** The two-step and the one-step logins agree once the password is right. */
  lemma CombinedAgreesWithTwoStep(users: Users, otps: OtpStore, phone: Option<string>, password: string,
                                  otp: Option<string>, now: nat, matches: (string, string) -> bool,
                                  jwt: string -> string)
    requires WellFormed(users)
    requires FindByPhone(users, phone).Some? && matches(password, FindByPhone(users, phone).value.password)
    ensures AuthenticateWithOtp(users, otps, phone, password, otp, now, matches, jwt)
            == VerifyLoginOtp(users, otps, phone, otp, now, jwt)
  {
  }
}
