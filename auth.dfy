/**
 * Sign-up, password login (for everybody and for super admins only) and
 * one-time-password login over the user and OTP tables. bcrypt is the
 * ideal hash of `Entities.Digest`; a JWT is modelled by the claims it
 * carries. The OTP code, the salt and the clock are parameters. Messages
 * are named by their keys in the constants table.
 */
module Auth {
  import opened Common
  import opened Entities
  import opened Db

  const EMAIL_ALREADY_EXISTS: string := "EMAIL_ALREADY_EXISTS"
  const PHONE_ALREADY_EXISTS: string := "PHONE_ALREADY_EXISTS"
  const INVALID_CREDENTIALS: string := "INVALID_CREDENTIALS"
  const USER_NOT_FOUND: string := "USER_NOT_FOUND"
  const INVALID_OTP: string := "INVALID_OTP"
  /** The error of a `where` clause holding `undefined`. */
  const UNDEFINED_WHERE: string := "WHERE parameter \"phone\" has invalid \"undefined\" value"

  /** An OTP lives five minutes. */
  const OTP_TTL_MS: nat := 5 * 60 * 1000

  /** The user fields put in responses and in the token. */
  datatype UserData = UserData(id: Id, name: string, email: string, phone: Option<string>, isSuperAdmin: bool)

  /** A signed access token, modelled by its claims. */
  datatype Token = Jwt(claims: UserData)

  datatype Session = Session(user: UserData, accessToken: Token)

  function SessionOf(id: Id, u: User): (s: Session)
    ensures s.user.id == id && s.accessToken == Jwt(s.user)
    ensures s.user.email == u.email && s.user.phone == u.phone && s.user.isSuperAdmin == u.isSuperAdmin
  {
    var data := UserData(id, u.name, u.email, u.phone, u.isSuperAdmin);
    Session(data, Jwt(data))
  }

  // -----------------------------------------------------------------------
  // Users

  predicate EmailTaken(users: map<Id, User>, email: string)
  {
    exists k :: k in users && users[k].email == email
  }

  predicate PhoneTaken(users: map<Id, User>, phone: string)
  {
    exists k :: k in users && users[k].phone == Some(phone)
  }

  /** The unique indexes on `email` and `phone` (NULL phones never clash). */
  predicate UsersUnique(users: map<Id, User>)
  {
    forall a, b :: a in users && b in users && a != b ==>
      users[a].email != users[b].email && (users[a].phone.None? || users[a].phone != users[b].phone)
  }

  /** The row sign-up creates: an empty phone is stored as NULL, the
      password only as its digest, and nobody signs up as a super admin. */
  function NewUser(name: string, email: string, phone: Option<string>, password: string, salt: nat): (u: User)
    ensures u.name == name && u.email == email && !u.isSuperAdmin
    ensures u.phone == (if TruthyStr(phone) then phone else None)
    ensures BcryptCompare(password, u.password)
    ensures forall other :: other != password ==> !BcryptCompare(other, u.password)
  {
    User(name, email, if TruthyStr(phone) then phone else None, Bcrypt(password, salt), false)
  }

  /** `User.create`: the row at the next id. */
  method InsertUser(db: Store, u: User) returns (id: Id)
    requires db.Valid() && db.TotalsHold()
    modifies db
    ensures db.Valid() && db.TotalsHold()
    ensures id == old(db.nextId) && db.nextId == id + 1
    ensures db.users == old(db.users)[id := u]
    ensures unchanged(db`otps, db`products, db`variants, db`carts, db`cartItems, db`orders)
    ensures unchanged(db`orderItems, db`payments, db`paymentJobs, db`notificationJobs, db`orderSeq, db`skuSeq)
  {
    id := db.nextId;
    TotalsKeptBeyond(db.carts, db.cartItems, id, id + 1);
    db.users := db.users[id := u];
    db.nextId := id + 1;
  }

  /** A new user keeps the indexes unique when neither its email nor its
      phone is taken. */
  lemma NewUserKeepsUnique(users: map<Id, User>, id: Id, u: User)
    requires UsersUnique(users) && id !in users
    requires !EmailTaken(users, u.email)
    requires u.phone.Some? ==> !PhoneTaken(users, u.phone.value)
    ensures UsersUnique(users[id := u])
  {
    var m := users[id := u];
    forall a, b | a in m && b in m && a != b
      ensures m[a].email != m[b].email && (m[a].phone.None? || m[a].phone != m[b].phone)
    {
      if a == id {
        assert m[b] == users[b];
      } else if b == id {
        assert m[a] == users[a];
      }
    }
  }

  /** `signUp`: a taken email, then a taken (non-empty) phone, answer 409;
      otherwise the user is created and a session returned. */
  method SignUp(db: Store, name: string, email: string, phone: Option<string>, password: string, salt: nat)
    returns (r: Result<Session>)
    requires db.Valid() && db.TotalsHold()
    modifies db
    ensures db.Valid() && db.TotalsHold()
    ensures EmailTaken(old(db.users), email) ==> r == Err(Conflict(EMAIL_ALREADY_EXISTS)) && unchanged(db)
    ensures !EmailTaken(old(db.users), email) && TruthyStr(phone) && PhoneTaken(old(db.users), phone.value) ==>
      r == Err(Conflict(PHONE_ALREADY_EXISTS)) && unchanged(db)
    ensures r.Ok? <==> !EmailTaken(old(db.users), email) && !(TruthyStr(phone) && PhoneTaken(old(db.users), phone.value))
    ensures r.Ok? ==>
      var u := NewUser(name, email, phone, password, salt);
      && db.users == old(db.users)[old(db.nextId) := u]
      && r.value == SessionOf(old(db.nextId), u)
      && db.nextId == old(db.nextId) + 1
      && unchanged(db`otps, db`products, db`variants, db`carts, db`cartItems, db`orders)
      && unchanged(db`orderItems, db`payments, db`paymentJobs, db`notificationJobs, db`orderSeq, db`skuSeq)
    ensures UsersUnique(old(db.users)) ==> UsersUnique(db.users)
  {
    var byEmail := FindFirst(db.users, db.nextId, (u: User) => u.email == email);
    if byEmail.Some? {
      return Err(Conflict(EMAIL_ALREADY_EXISTS));
    }
    if TruthyStr(phone) {
      var byPhone := FindFirst(db.users, db.nextId, (u: User) => u.phone == phone);
      if byPhone.Some? {
        return Err(Conflict(PHONE_ALREADY_EXISTS));
      }
    }
    var u := NewUser(name, email, phone, password, salt);
    if UsersUnique(db.users) {
      NewUserKeepsUnique(db.users, db.nextId, u);
    }
    var id := InsertUser(db, u);
    r := Ok(SessionOf(id, u));
  }

  // -----------------------------------------------------------------------
  // Looking a user up

  /** The `where` clause of a lookup: by email when one is given (and not
      empty), otherwise by phone. */
  datatype Lookup = ByEmailAddress(email: string) | ByPhoneNumber(phone: string)

  /** `email ? { email } : { phone }`; None when the phone is undefined,
      which makes the query fail. */
  function LookupOf(email: Option<string>, phone: Option<string>): (l: Option<Lookup>)
    ensures TruthyStr(email) ==> l == Some(ByEmailAddress(email.value))
    ensures !TruthyStr(email) && phone.Some? ==> l == Some(ByPhoneNumber(phone.value))
    ensures l.None? <==> !TruthyStr(email) && phone.None?
  {
    if TruthyStr(email) then Some(ByEmailAddress(email.value))
    else if phone.Some? then Some(ByPhoneNumber(phone.value))
    else None
  }

  /** A user the lookup finds; `adminOnly` adds `isSuperAdmin: true`. */
  predicate Eligible(u: User, l: Lookup, adminOnly: bool)
  {
    (match l
     case ByEmailAddress(e) => u.email == e
     case ByPhoneNumber(p) => u.phone == Some(p))
    && (adminOnly ==> u.isSuperAdmin)
  }

  /** Under the unique indexes, at most one user fits a lookup. */
  lemma EligibleUnique(users: map<Id, User>, l: Lookup, adminOnly: bool, a: Id, b: Id)
    requires UsersUnique(users)
    requires a in users && b in users && Eligible(users[a], l, adminOnly) && Eligible(users[b], l, adminOnly)
    ensures a == b
  {
  }

  /** `User.findOne({ where })`: the user a lookup finds. */
  method FindUser(db: Store, l: Lookup, adminOnly: bool) returns (k: Option<Id>)
    requires db.Valid()
    ensures k.Some? ==> k.value in db.users && Eligible(db.users[k.value], l, adminOnly)
    ensures k.None? <==> forall j :: j in db.users ==> !Eligible(db.users[j], l, adminOnly)
  {
    k := FindFirst(db.users, db.nextId, (u: User) => Eligible(u, l, adminOnly));
  }

  /** `login` (`adminOnly` false) and `adminLogin` (`adminOnly` true). An
      unknown user and a wrong password get the same 401. */
  method Login(db: Store, email: Option<string>, phone: Option<string>, password: string, adminOnly: bool)
    returns (r: Result<Session>)
    requires db.Valid()
    ensures LookupOf(email, phone).None? ==> r == Err(ServerError(UNDEFINED_WHERE))
    ensures LookupOf(email, phone).Some? && r.Err? ==> r.error == Unauthorized(INVALID_CREDENTIALS)
    ensures r.Ok? ==>
      && r.value.user.id in db.users
      && var u := db.users[r.value.user.id];
      && Eligible(u, LookupOf(email, phone).value, adminOnly)
      && BcryptCompare(password, u.password)
      && r.value == SessionOf(r.value.user.id, u)
    ensures r.Ok? && adminOnly ==> r.value.user.isSuperAdmin
    ensures LookupOf(email, phone).Some? && UsersUnique(db.users) ==>
      (r.Ok? <==> exists k :: k in db.users && Eligible(db.users[k], LookupOf(email, phone).value, adminOnly)
                               && BcryptCompare(password, db.users[k].password))
  {
    var l := LookupOf(email, phone);
    if l.None? {
      return Err(ServerError(UNDEFINED_WHERE));
    }
    var k := FindUser(db, l.value, adminOnly);
    if k.None? {
      return Err(Unauthorized(INVALID_CREDENTIALS));
    }
    var u := db.users[k.value];
    if !BcryptCompare(password, u.password) {
      if UsersUnique(db.users) {
        forall j | j in db.users && Eligible(db.users[j], l.value, adminOnly)
          ensures !BcryptCompare(password, db.users[j].password)
        {
          EligibleUnique(db.users, l.value, adminOnly, j, k.value);
        }
      }
      return Err(Unauthorized(INVALID_CREDENTIALS));
    }
    r := Ok(SessionOf(k.value, u));
  }

  // -----------------------------------------------------------------------
  // One-time passwords

  /** Not used yet and not expired at `now`. */
  predicate Live(o: Otp, now: int)
  {
    !o.isUsed && o.expiresAt > now
  }

  /** `email ? 'email' : 'phone'`. */
  function ChannelOf(email: Option<string>): OtpChannel
  {
    if TruthyStr(email) then ByEmail else ByPhone
  }

  /** `x || null` of a request field. */
  function OrNull(x: Option<string>): (r: Option<string>)
    ensures r.Some? <==> TruthyStr(x)
    ensures r.Some? ==> r == x
  {
    if TruthyStr(x) then x else None
  }

  /** The `[Op.or]` condition as written: the owner's id, or the request's
      email, or the request's phone, where a missing field becomes
      `IS NULL` and so matches every row without that field. */
  predicate ClaimsAsWritten(o: Otp, userId: Id, email: Option<string>, phone: Option<string>)
    ensures Claims(o, userId) ==> ClaimsAsWritten(o, userId, email, phone)
    ensures !TruthyStr(email) && o.email.None? ==> ClaimsAsWritten(o, userId, email, phone)
    ensures !TruthyStr(phone) && o.phone.None? ==> ClaimsAsWritten(o, userId, email, phone)
    ensures TruthyStr(email) && o.email == email ==> ClaimsAsWritten(o, userId, email, phone)
  {
    o.userId == Some(userId) || o.email == OrNull(email) || o.phone == OrNull(phone)
  }

  /** The condition as evidently intended: the rows of the user found. */
  predicate Claims(o: Otp, userId: Id)
    ensures Claims(o, userId) ==> o.userId.Some? && o.userId.value == userId
    ensures o.userId.None? ==> !Claims(o, userId)
  {
    o.userId == Some(userId)
  }

  /** As written, a request by email for one user claims another user's
      e-mail OTP row, since that row's phone is NULL: verifying as `v` with
      the code `x` received accepts `x`'s row. The intended condition does
      not claim it. */
  lemma ForeignOtpClaimedAsWritten()
    ensures var row := Otp(Some(0), Some("x@example.com"), None, Bcrypt("123456", 0), ByEmail, 1000, false);
      && ClaimsAsWritten(row, 1, Some("v@example.com"), None)
      && row.channel == ChannelOf(Some("v@example.com")) && Live(row, 0)
      && BcryptCompare("123456", row.otpHash)
      && !Claims(row, 1)
  {
  }

  /** The row `requestOTP` inserts for user `userId`. */
  function NewOtp(userId: Id, email: Option<string>, phone: Option<string>,
                  code: string, salt: nat, now: int): (o: Otp)
    ensures Claims(o, userId) && Live(o, now) && BcryptCompare(code, o.otpHash)
    ensures o.channel == ChannelOf(email) && o.email == OrNull(email) && o.phone == OrNull(phone)
    ensures o.expiresAt == now + OTP_TTL_MS
  {
    Otp(Some(userId), OrNull(email), OrNull(phone), Bcrypt(code, salt), ChannelOf(email), now + OTP_TTL_MS, false)
  }

  /** `Otp.update({ isUsed: true })` on the live rows of `userId`: only
      the flag changes, and only on those rows. */
  function Invalidate(otps: map<Id, Otp>, userId: Id, now: int): (m: map<Id, Otp>)
    ensures m.Keys == otps.Keys
    ensures forall k :: k in m ==> m[k].(isUsed := otps[k].isUsed) == otps[k]
    ensures forall k :: k in m ==> (m[k].isUsed <==> otps[k].isUsed || (Claims(otps[k], userId) && Live(otps[k], now)))
    ensures forall k :: k in m && Claims(m[k], userId) ==> !Live(m[k], now)
  {
    map k | k in otps :: if Claims(otps[k], userId) && Live(otps[k], now) then otps[k].(isUsed := true) else otps[k]
  }

  /** Writes the OTP table and inserts one row at the next id. */
  method ReplaceOtps(db: Store, m: map<Id, Otp>, o: Otp) returns (id: Id)
    requires db.Valid() && db.TotalsHold()
    requires m.Keys == db.otps.Keys
    modifies db
    ensures db.Valid() && db.TotalsHold()
    ensures id == old(db.nextId) && db.nextId == id + 1
    ensures db.otps == m[id := o]
    ensures unchanged(db`users, db`products, db`variants, db`carts, db`cartItems, db`orders)
    ensures unchanged(db`orderItems, db`payments, db`paymentJobs, db`notificationJobs, db`orderSeq, db`skuSeq)
  {
    id := db.nextId;
    TotalsKeptBeyond(db.carts, db.cartItems, id, id + 1);
    db.otps := m[id := o];
    db.nextId := id + 1;
  }

  /** `requestOTP`: an unknown user gets 404 and nothing is written;
      otherwise every live OTP of the user is spent and one fresh row is
      inserted, which is then the user's only live OTP. `code` is the
      generated code, sent back only in development. */
  method RequestOTP(db: Store, email: Option<string>, phone: Option<string>,
                    code: string, salt: nat, now: int, development: bool)
    returns (r: Result<Option<string>>, userId: Option<Id>)
    requires db.Valid() && db.TotalsHold()
    modifies db
    ensures db.Valid() && db.TotalsHold()
    ensures LookupOf(email, phone).None? ==> r == Err(ServerError(UNDEFINED_WHERE)) && unchanged(db)
    ensures LookupOf(email, phone).Some? && userId.None? ==>
      && r == Err(NotFound(USER_NOT_FOUND)) && unchanged(db)
      && forall j :: j in old(db.users) ==> !Eligible(old(db.users)[j], LookupOf(email, phone).value, false)
    ensures r.Ok? <==> userId.Some?
    ensures userId.Some? ==>
      var id := old(db.nextId);
      && userId.value in db.users && Eligible(db.users[userId.value], LookupOf(email, phone).value, false)
      && db.otps == Invalidate(old(db.otps), userId.value, now)[id := NewOtp(userId.value, email, phone, code, salt, now)]
      && db.nextId == id + 1
      && r.value == (if development then Some(code) else None)
      && (forall k :: k in db.otps && k != id && Claims(db.otps[k], userId.value) ==> !Live(db.otps[k], now))
      && unchanged(db`users, db`products, db`variants, db`carts, db`cartItems, db`orders)
      && unchanged(db`orderItems, db`payments, db`paymentJobs, db`notificationJobs, db`orderSeq, db`skuSeq)
  {
    userId := None;
    var l := LookupOf(email, phone);
    if l.None? {
      return Err(ServerError(UNDEFINED_WHERE)), userId;
    }
    userId := FindUser(db, l.value, false);
    if userId.None? {
      return Err(NotFound(USER_NOT_FOUND)), userId;
    }
    var spent := Invalidate(db.otps, userId.value, now);
    var _ := ReplaceOtps(db, spent, NewOtp(userId.value, email, phone, code, salt, now));
    r := Ok(if development then Some(code) else None);
  }

  /** The rows `verifyOTP` considers: the user's, of the request's
      channel, and live. */
  predicate Candidate(o: Otp, userId: Id, email: Option<string>, now: int)
  {
    Claims(o, userId) && o.channel == ChannelOf(email) && Live(o, now)
  }

  /** `otpRecord.update({ isUsed: true })`. */
  method SpendOtp(db: Store, id: Id)
    requires db.Valid() && db.TotalsHold() && id in db.otps
    modifies db
    ensures db.Valid() && db.TotalsHold()
    ensures db.otps == old(db.otps)[id := old(db.otps)[id].(isUsed := true)]
    ensures unchanged(db`users, db`products, db`variants, db`carts, db`cartItems, db`orders, db`nextId)
    ensures unchanged(db`orderItems, db`payments, db`paymentJobs, db`notificationJobs, db`orderSeq, db`skuSeq)
  {
    db.otps := db.otps[id := db.otps[id].(isUsed := true)];
  }

  /** `verifyOTP`: only the newest candidate row is tried. No candidate or
      a wrong code gets 401 and nothing is written; the right code spends
      that row (so it cannot verify again) and returns a session. */
  method VerifyOTP(db: Store, email: Option<string>, phone: Option<string>, otp: string, now: int)
    returns (r: Result<Session>, userId: Option<Id>, otpId: Option<Id>)
    requires db.Valid() && db.TotalsHold()
    modifies db
    ensures db.Valid() && db.TotalsHold()
    ensures !r.Ok? ==> unchanged(db)
    ensures LookupOf(email, phone).None? ==> r == Err(ServerError(UNDEFINED_WHERE))
    ensures LookupOf(email, phone).Some? && userId.None? ==>
      && r == Err(NotFound(USER_NOT_FOUND))
      && forall j :: j in old(db.users) ==> !Eligible(old(db.users)[j], LookupOf(email, phone).value, false)
    ensures userId.Some? ==>
      && LookupOf(email, phone).Some?
      && userId.value in old(db.users) && Eligible(old(db.users)[userId.value], LookupOf(email, phone).value, false)
    ensures userId.Some? && otpId.None? ==>
      && r == Err(Unauthorized(INVALID_OTP))
      && forall k :: k in old(db.otps) ==> !Candidate(old(db.otps)[k], userId.value, email, now)
    ensures otpId.Some? ==>
      && userId.Some? && otpId.value in old(db.otps)
      && Candidate(old(db.otps)[otpId.value], userId.value, email, now)
      && (forall k :: k in old(db.otps) && k > otpId.value ==> !Candidate(old(db.otps)[k], userId.value, email, now))
      && (r.Ok? <==> BcryptCompare(otp, old(db.otps)[otpId.value].otpHash))
      && (r.Err? ==> r.error == Unauthorized(INVALID_OTP))
    ensures r.Ok? ==>
      && otpId.Some? && userId.Some?
      && r.value == SessionOf(userId.value, old(db.users)[userId.value])
      && db.otps == old(db.otps)[otpId.value := old(db.otps)[otpId.value].(isUsed := true)]
      && !Live(db.otps[otpId.value], now)
      && unchanged(db`users, db`products, db`variants, db`carts, db`cartItems, db`orders, db`nextId)
      && unchanged(db`orderItems, db`payments, db`paymentJobs, db`notificationJobs, db`orderSeq, db`skuSeq)
  {
    userId, otpId := None, None;
    var l := LookupOf(email, phone);
    if l.None? {
      return Err(ServerError(UNDEFINED_WHERE)), userId, otpId;
    }
    userId := FindUser(db, l.value, false);
    if userId.None? {
      return Err(NotFound(USER_NOT_FOUND)), userId, otpId;
    }
    var uid := userId.value;
    otpId := FindNewest(db.otps, db.nextId, (o: Otp) => Candidate(o, uid, email, now));
    if otpId.None? {
      return Err(Unauthorized(INVALID_OTP)), userId, otpId;
    }
    if !BcryptCompare(otp, db.otps[otpId.value].otpHash) {
      return Err(Unauthorized(INVALID_OTP)), userId, otpId;
    }
    var user := db.users[uid];
    SpendOtp(db, otpId.value);
    r := Ok(SessionOf(uid, user));
  }
}
