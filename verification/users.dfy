/** The user store behind UserService: registration, look-up by phone number, balance
    and PIN updates. The repository is a map from user id to record; Mongo's unique
    indexes on phone number and e-mail become the `WellFormed` invariant. */
module Users {
  import opened Wrappers
  import opened Text
  import opened PhoneNumbers

  datatype User = User(
    id: string,
    firstName: string,
    lastName: string,
    email: string,
    phoneNumber: string,
    password: string,
    pin: string,
    balance: int,
    isActive: bool,
    isVerified: bool,
    createdAt: nat,
    updatedAt: nat,
    roles: seq<string>)

  type Users = map<string, User>

  /** Records sit under their own id, and no two share a phone number or an e-mail. */
  predicate WellFormed(store: Users) {
    && (forall id :: id in store ==> store[id].id == id)
    && (forall a, b :: a in store && b in store && store[a].phoneNumber == store[b].phoneNumber ==> a == b)
    && (forall a, b :: a in store && b in store && store[a].email == store[b].email ==> a == b)
  }

  predicate HasPhone(store: Users, phone: string) {
    exists id :: id in store && store[id].phoneNumber == phone
  }

  predicate HasEmail(store: Users, email: string) {
    exists id :: id in store && store[id].email == email
  }

  /** `userRepository.findByPhoneNumber`: an exact match on the stored phone number. */
  function FindByStoredPhone(store: Users, phone: string): (r: Option<User>)
    requires WellFormed(store)
    ensures r.Some? <==> HasPhone(store, phone)
    ensures r.Some? ==> r.value.id in store && store[r.value.id] == r.value && r.value.phoneNumber == phone
  {
    if HasPhone(store, phone) then
      var id :| id in store && store[id].phoneNumber == phone;
      Some(store[id])
    else None
  }

  /** `findByPhoneNumber`: the repository is asked for the normalised form of the input. */
  function FindByPhone(store: Users, p: Option<string>): (r: Option<User>)
    requires WellFormed(store)
    ensures r.Some? ==> p.Some? && r.value.id in store && store[r.value.id] == r.value
    ensures r.Some? ==> r.value.phoneNumber == Normalize(p).value
    ensures p.Some? && HasPhone(store, Normalize(p).value) ==> r.Some?
  {
    match ForLookup(p)
    case None => None
    case Some(key) =>
      LookupIsNormalize(p);
      FindByStoredPhone(store, key)
  }

  /** `existsByPhoneNumber`: asks the same question with the same normalisation. */
  function ExistsByPhone(store: Users, p: Option<string>): (b: bool)
    requires WellFormed(store)
    ensures b <==> p.Some? && HasPhone(store, Normalize(p).value)
  {
    match ForLookup(p)
    case None => false
    case Some(key) =>
      LookupIsNormalize(p);
      HasPhone(store, key)
  }

  /** The existence check agrees with the look-up on every input. */
  lemma ExistsIffFound(store: Users, p: Option<string>)
    requires WellFormed(store)
    ensures ExistsByPhone(store, p) <==> FindByPhone(store, p).Some?
  {
  }

  /** The local, the "237"-prefixed and the "+237"-prefixed spelling of one number find
      the same user. */
  lemma FormsFindSameUser(store: Users, l: string)
    requires WellFormed(store)
    requires IsLocalNumber(l) && !StartsWith(l, "237")
    ensures FindByPhone(store, Some(l)) == FindByPhone(store, Some("237" + l))
    ensures FindByPhone(store, Some(l)) == FindByPhone(store, Some("+237" + l))
  {
    FormsAgree(l);
    LookupIsNormalize(Some(l));
    LookupIsNormalize(Some("237" + l));
    LookupIsNormalize(Some("+237" + l));
  }

  function FindById(store: Users, id: string): (r: Option<User>)
    ensures r.Some? <==> id in store
    ensures r.Some? ==> r.value == store[id]
  {
    if id in store then Some(store[id]) else None
  }

  /** The fields of a registration request. */
  datatype RegisterRequest = RegisterRequest(
    firstName: string,
    lastName: string,
    email: string,
    phoneNumber: Option<string>,
    password: string,
    pin: string)

  datatype Registered = Registered(store: Users, user: User)

  /** `registerUser`. The number is normalised and then validated (validation normalises
      once more); a taken number is refused before a taken e-mail. `encode` is the password
      encoder, `newId` the id the repository assigns. */
  function RegisterUser(store: Users, req: RegisterRequest, newId: string, now: nat,
                        encode: string -> string): (r: Result<Registered, string>)
    requires WellFormed(store) && newId !in store
    ensures !IsValidCameroon(req.phoneNumber) ==> r == Err("Invalid Cameroon phone number format")
    ensures IsValidCameroon(req.phoneNumber) && HasPhone(store, Normalize(req.phoneNumber).value) ==>
              r == Err("Phone number already exists")
    ensures (IsValidCameroon(req.phoneNumber) && !HasPhone(store, Normalize(req.phoneNumber).value) &&
             HasEmail(store, req.email)) ==> r == Err("Email already exists")
    ensures r.Ok? <==> IsValidCameroon(req.phoneNumber) && !HasPhone(store, Normalize(req.phoneNumber).value) &&
                       !HasEmail(store, req.email)
    ensures r.Ok? ==>
              && WellFormed(r.value.store)
              && r.value.store == store[newId := r.value.user]
              && r.value.user.id == newId
              && r.value.user.phoneNumber == Normalize(req.phoneNumber).value
              && IsFullNumber(r.value.user.phoneNumber)
              && r.value.user.firstName == req.firstName
              && r.value.user.lastName == req.lastName
              && r.value.user.email == req.email
              && r.value.user.roles == ["USER"]
              && r.value.user.balance == 0
              && r.value.user.password == encode(req.password)
              && r.value.user.pin == encode(req.pin)
  {
    var normalized := Normalize(req.phoneNumber);
    NormalizeIdempotent(req.phoneNumber);
    if !IsValidCameroon(normalized) then Err("Invalid Cameroon phone number format")
    else if HasPhone(store, normalized.value) then Err("Phone number already exists")
    else if HasEmail(store, req.email) then Err("Email already exists")
    else
      var user := User(newId, req.firstName, req.lastName, req.email, normalized.value,
                       encode(req.password), encode(req.pin), 0, true, false, now, now, ["USER"]);
      var s := store[newId := user];
      assert WellFormed(s);
      Ok(Registered(s, user))
  }

  /** A successful registration can be found again under any spelling of the number. */
  lemma RegisterThenFind(store: Users, req: RegisterRequest, newId: string, now: nat,
                         encode: string -> string)
    requires WellFormed(store) && newId !in store
    requires RegisterUser(store, req, newId, now, encode).Ok?
    ensures var reg := RegisterUser(store, req, newId, now, encode).value;
            FindByPhone(reg.store, req.phoneNumber) == Some(reg.user)
  {
    var reg := RegisterUser(store, req, newId, now, encode).value;
    assert reg.store[newId].phoneNumber == Normalize(req.phoneNumber).value;
    assert HasPhone(reg.store, Normalize(req.phoneNumber).value);
  }

  /** Two stores with the same ids and the same phone number under each id. */
  predicate SamePhones(a: Users, b: Users) {
    a.Keys == b.Keys && forall k :: k in a ==> a[k].phoneNumber == b[k].phoneNumber
  }

  /** `updateBalance`: overwrites the balance with an absolute value and stamps the time. */
  function UpdateBalance(store: Users, id: string, newBalance: int, now: nat): (r: Result<Users, string>)
    ensures id !in store <==> r == Err("User not found")
    ensures r.Ok? ==>
              && (WellFormed(store) ==> WellFormed(r.value))
              && r.value.Keys == store.Keys
              && r.value[id] == store[id].(balance := newBalance, updatedAt := now)
              && (forall k :: k in store && k != id ==> r.value[k] == store[k])
              && SamePhones(store, r.value)
  {
    if id !in store then Err("User not found")
    else Ok(store[id := store[id].(balance := newBalance, updatedAt := now)])
  }

  /** Balance writes are absolute: the second of two writes wins outright. */
  lemma UpdateBalanceLastWins(store: Users, id: string, b1: int, b2: int, t1: nat, t2: nat)
    requires id in store
    ensures UpdateBalance(store, id, b1, t1).Ok?
    ensures UpdateBalance(UpdateBalance(store, id, b1, t1).value, id, b2, t2) == UpdateBalance(store, id, b2, t2)
  {
    var s1 := UpdateBalance(store, id, b1, t1).value;
    assert s1[id := s1[id].(balance := b2, updatedAt := t2)] == store[id := store[id].(balance := b2, updatedAt := t2)];
  }

  /** `updatePin`: stores the encoded PIN and stamps the time; nothing else changes. */
  function UpdatePin(store: Users, id: string, newPin: string, now: nat,
                     encode: string -> string): (r: Result<Users, string>)
    requires WellFormed(store)
    ensures id !in store <==> r == Err("User not found")
    ensures id in store <==> r.Ok?
    ensures r.Ok? ==>
              && WellFormed(r.value)
              && r.value.Keys == store.Keys
              && r.value[id] == store[id].(pin := encode(newPin), updatedAt := now)
              && (forall k :: k in store && k != id ==> r.value[k] == store[k])
              && SamePhones(store, r.value)
  {
    if id !in store then Err("User not found")
    else Ok(store[id := store[id].(pin := encode(newPin), updatedAt := now)])
  }

  /** A balance or PIN update keeps everyone reachable by phone exactly as before. */
  lemma UpdatesKeepPhoneLookup(store: Users, id: string, b: int, pin: string, now: nat,
                               encode: string -> string, p: Option<string>)
    requires WellFormed(store) && id in store
    ensures var s := UpdateBalance(store, id, b, now).value;
            FindByPhone(s, p).Some? <==> FindByPhone(store, p).Some?
    ensures var s := UpdatePin(store, id, pin, now, encode).value;
            FindByPhone(s, p).Some? <==> FindByPhone(store, p).Some?
  {
    SamePhonesSameLookup(store, UpdateBalance(store, id, b, now).value, p);
    SamePhonesSameLookup(store, UpdatePin(store, id, pin, now, encode).value, p);
  }

  /** Stores that agree on every phone number answer every look-up alike. */
  lemma SamePhonesSameLookup(a: Users, b: Users, p: Option<string>)
    requires WellFormed(a) && WellFormed(b) && SamePhones(a, b)
    ensures FindByPhone(a, p).Some? <==> FindByPhone(b, p).Some?
  {
    if p.Some? {
      SamePhonesSameOwners(a, b, Normalize(p).value);
    }
  }

  lemma SamePhonesSameOwners(a: Users, b: Users, phone: string)
    requires SamePhones(a, b)
    ensures HasPhone(a, phone) <==> HasPhone(b, phone)
  {
    if HasPhone(a, phone) {
      var w :| w in a && a[w].phoneNumber == phone;
      assert b[w].phoneNumber == phone;
    }
    if HasPhone(b, phone) {
      var w :| w in b && b[w].phoneNumber == phone;
      assert a[w].phoneNumber == phone;
    }
  }


  /** The sum of all balances in the store. */
  ghost function Total(store: Users): int
    decreases |store.Keys|
  {
    if store == map[] then 0
    else
      var k :| k in store;
      store[k].balance + Total(store - {k})
  }

  /** Any entry can be split off the total, whichever one the definition happens to pick. */
  lemma {:induction false} TotalRemove(store: Users, j: string)
    requires j in store
    ensures Total(store) == store[j].balance + Total(store - {j})
    decreases |store.Keys|
  {
    var k :| k in store && Total(store) == store[k].balance + Total(store - {k});
    if k != j {
      assert store - {k} - {j} == store - {j} - {k};
      TotalRemove(store - {k}, j);
      TotalRemove(store - {j}, k);
    }
  }

  /** Replacing one record changes the total by exactly the change of its balance. */
  lemma TotalUpdate(store: Users, j: string, u: User)
    requires j in store
    ensures Total(store[j := u]) == Total(store) - store[j].balance + u.balance
  {
    TotalRemove(store, j);
    TotalRemove(store[j := u], j);
    assert store[j := u] - {j} == store - {j};
  }

  /** An encoder whose encodings are accepted for exactly the text they encode. */
  ghost predicate SoundEncoder(encode: string -> string, matches: (string, string) -> bool) {
    forall raw, other :: matches(other, encode(raw)) <==> other == raw
  }

  /** After `updatePin` the new PIN passes `validatePin`, which is the encoder's `matches` of
      the raw PIN against the stored encoding; for an encoder whose encodings match only their
      own text, the previous raw PIN no longer does. */
  lemma PinUpdateValidates(store: Users, id: string, oldPin: string, newPin: string, now: nat,
                           encode: string -> string, matches: (string, string) -> bool)
    requires WellFormed(store) && id in store && SoundEncoder(encode, matches)
    ensures matches(newPin, UpdatePin(store, id, newPin, now, encode).value[id].pin)
    ensures oldPin != newPin ==> !matches(oldPin, UpdatePin(store, id, newPin, now, encode).value[id].pin)
  {
    var u := UpdatePin(store, id, newPin, now, encode).value[id];
    assert u.pin == encode(newPin);
    assert matches(newPin, encode(newPin));
    assert matches(oldPin, encode(newPin)) <==> oldPin == newPin;
  }
}
