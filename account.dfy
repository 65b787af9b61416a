/**
 * The account service (accountService/account/account.go): the in-memory store
 * of e-mail verification codes, the six-digit code format, registration,
 * login and profile update. The users table is a map keyed by user id; time is
 * an integer count of nanoseconds, as Go's `time.Time` keeps it.
 */
module Account {
  import opened Wrappers

  /** Five minutes in nanoseconds: how long a verification code stays usable. */
  const CodeLifetime: int := 5 * 60 * 1000 * 1000 * 1000

  /** The bound of `rand.Intn`: codes are drawn from [0, CodeRange). */
  const CodeRange: nat := 1000000

  /** The number of digits of a verification code. */
  const CodeWidth: nat := 6

  /** The tier the users table gives a newly inserted row (the column's default). */
  const NewMemberTier: string := "Basic"

  /** An entry of the verification-code store. */
  datatype CodeEntry = CodeEntry(code: string, expiresAt: int)

  /** A row of the users table. */
  datatype User = User(
    email: string,
    passwordHash: string,
    membershipTier: string,
    firstName: string,
    lastName: string,
    dateOfBirth: string,
    address: string)

  /** The registration body; `password` is the field the client calls PasswordHash, sent in clear. */
  datatype RegisterRequest = RegisterRequest(
    firstName: string,
    lastName: string,
    email: string,
    password: string,
    address: string,
    dateOfBirth: string,
    code: string)

  /** The error categories of registration, in the order they are tested. */
  datatype RegisterError = MissingFields | InvalidOrExpiredCode | EmailInUse | HashingFailed

  /** Login has a single error for an unknown e-mail and for a wrong password. */
  datatype LoginError = InvalidEmailOrPassword

  /** A profile update: each field is either provided or omitted. */
  datatype ProfileUpdate = ProfileUpdate(
    firstName: Option<string>,
    lastName: Option<string>,
    dateOfBirth: Option<string>,
    address: Option<string>,
    membershipTier: Option<string>)

  datatype UpdateOutcome = Updated | UserNotFound

  // ---------------------------------------------------------------------------
  // Six-digit codes

  function Pow10(k: nat): (p: nat)
    ensures p >= 1
  {
    if k == 0 then 1 else 10 * Pow10(k - 1)
  }

  predicate IsDigits(s: string)
  {
    forall i :: 0 <= i < |s| ==> '0' <= s[i] <= '9'
  }

  function DigitChar(d: nat): (c: char)
    requires d < 10
    ensures '0' <= c <= '9'
  {
    ('0' as int + d) as char
  }

  /** The value of a string of decimal digits, most significant first. */
  function DecimalValue(s: string): nat
    requires IsDigits(s)
  {
    if s == "" then 0 else 10 * DecimalValue(s[..|s| - 1]) + (s[|s| - 1] as int - '0' as int)
  }

  /**
   * The last `width` decimal digits of n, padded on the left with zeros. For
   * n < 10^width this is what Go's `%0*d` prints; a wider n would print all
   * of its digits, which a verification code never has.
   */
  function PadDecimal(n: nat, width: nat): (s: string)
    ensures |s| == width && IsDigits(s)
  {
    if width == 0 then "" else PadDecimal(n / 10, width - 1) + [DigitChar(n % 10)]
  }

  /** A number with at most `width` digits reads back from its padded form. */
  lemma {:induction false} PadDecimalValue(n: nat, width: nat)
    requires n < Pow10(width)
    ensures DecimalValue(PadDecimal(n, width)) == n
  {
    if width > 0 {
      var s := PadDecimal(n, width);
      var q, d := n / 10, n % 10;
      assert n == 10 * q + d && d < 10;
      assert q < Pow10(width - 1);
      assert s[..|s| - 1] == PadDecimal(q, width - 1);
      assert s[|s| - 1] as int - '0' as int == d;
      PadDecimalValue(q, width - 1);
    }
  }

  /** `fmt.Sprintf("%06d", n)` for a draw n of `rand.Intn(1000000)`: six digits that read back as n. */
  function FormatVerificationCode(n: nat): (code: string)
    requires n < CodeRange
    ensures |code| == CodeWidth && IsDigits(code)
    ensures DecimalValue(code) == n
  {
    assert Pow10(CodeWidth) == CodeRange;
    PadDecimalValue(n, CodeWidth);
    PadDecimal(n, CodeWidth)
  }

  /** Distinct draws give distinct codes; 42 is written "000042". */
  lemma FormatVerificationCodeInjective(m: nat, n: nat)
    requires m < CodeRange && n < CodeRange
    ensures FormatVerificationCode(m) == FormatVerificationCode(n) <==> m == n
    ensures FormatVerificationCode(42) == "000042"
  {
    assert FormatVerificationCode(42) == PadDecimal(42, 6);
  }

  // ---------------------------------------------------------------------------
  // The verification-code store

  /** Storing a code for an e-mail: it replaces any earlier entry and expires five minutes after `now`. */
  function StoreCode(codes: map<string, CodeEntry>, email: string, code: string, now: int): (codes': map<string, CodeEntry>)
    ensures email in codes' && codes'[email] == CodeEntry(code, now + CodeLifetime)
    ensures forall e :: e != email ==> (e in codes' <==> e in codes)
    ensures forall e :: e != email && e in codes ==> codes'[e] == codes[e]
  {
    codes[email := CodeEntry(code, now + CodeLifetime)]
  }

  /** ValidateVerificationCode: an entry exists, `now` is not after its expiry, and the codes are equal. */
  function CodeIsValid(codes: map<string, CodeEntry>, email: string, code: string, now: int): (ok: bool)
    ensures email !in codes ==> !ok
    ensures email in codes && now > codes[email].expiresAt ==> !ok
    ensures email in codes && now <= codes[email].expiresAt ==> (ok <==> codes[email].code == code)
  {
    if email !in codes then false
    else if now > codes[email].expiresAt then false
    else codes[email].code == code
  }

  /**
   * After storing `code` for `email` at time `issued`, that e-mail validates
   * exactly the stored code up to and including five minutes later, and
   * every other e-mail validates as before.
   */
  lemma StoreThenValidate(codes: map<string, CodeEntry>, email: string, code: string, issued: int,
                          other: string, given: string, now: int)
    ensures CodeIsValid(StoreCode(codes, email, code, issued), other, given, now)
         == if other == email then now <= issued + CodeLifetime && given == code
            else CodeIsValid(codes, other, given, now)
  {
  }

  // ---------------------------------------------------------------------------
  // Registration

  /** One of the six required fields is empty (the code is not among them). */
  predicate MissingRequiredField(req: RegisterRequest)
  {
    req.firstName == "" || req.lastName == "" || req.email == "" || req.password == ""
    || req.address == "" || req.dateOfBirth == ""
  }

  predicate EmailTaken(users: map<int, User>, email: string)
  {
    exists id :: id in users && users[id].email == email
  }

  /** No two users share an e-mail. */
  ghost predicate EmailsUnique(users: map<int, User>)
  {
    forall i, j :: i in users && j in users && users[i].email == users[j].email ==> i == j
  }

  /**
   * The checks of RegisterUser before hashing, in order: a required field
   * empty, then an invalid or expired code, then an e-mail in use. None when
   * all pass.
   */
  function RegistrationCheck(req: RegisterRequest, codes: map<string, CodeEntry>, users: map<int, User>,
                             now: int): (r: Option<RegisterError>)
    ensures r == Some(MissingFields) <==> MissingRequiredField(req)
    ensures r == Some(InvalidOrExpiredCode)
        <==> !MissingRequiredField(req) && !CodeIsValid(codes, req.email, req.code, now)
    ensures r == Some(EmailInUse)
        <==> !MissingRequiredField(req) && CodeIsValid(codes, req.email, req.code, now) && EmailTaken(users, req.email)
    ensures r.None?
        <==> !MissingRequiredField(req) && CodeIsValid(codes, req.email, req.code, now) && !EmailTaken(users, req.email)
  {
    if MissingRequiredField(req) then Some(MissingFields)
    else if !CodeIsValid(codes, req.email, req.code, now) then Some(InvalidOrExpiredCode)
    else if EmailTaken(users, req.email) then Some(EmailInUse)
    else None
  }

  /** The row registration inserts: the request's fields, the hash, and the default tier. */
  function NewUser(req: RegisterRequest, passwordHash: string): User
  {
    User(req.email, passwordHash, NewMemberTier, req.firstName, req.lastName, req.dateOfBirth, req.address)
  }

  // ---------------------------------------------------------------------------
  // Profile update

  /** A provided value replaces the current one; an omitted one keeps it. */
  function Pick(provided: Option<string>, current: string): (v: string)
    ensures provided.Some? ==> v == provided.value
    ensures provided.None? ==> v == current
  {
    if provided.Some? then provided.value else current
  }

  /** The profile after an update: the five editable fields merged, e-mail and password untouched. */
  function MergeProfile(user: User, update: ProfileUpdate): (merged: User)
    ensures merged.email == user.email && merged.passwordHash == user.passwordHash
    ensures merged.firstName == Pick(update.firstName, user.firstName)
    ensures merged.lastName == Pick(update.lastName, user.lastName)
    ensures merged.dateOfBirth == Pick(update.dateOfBirth, user.dateOfBirth)
    ensures merged.address == Pick(update.address, user.address)
    ensures merged.membershipTier == Pick(update.membershipTier, user.membershipTier)
  {
    user.(firstName := Pick(update.firstName, user.firstName),
          lastName := Pick(update.lastName, user.lastName),
          dateOfBirth := Pick(update.dateOfBirth, user.dateOfBirth),
          address := Pick(update.address, user.address),
          membershipTier := Pick(update.membershipTier, user.membershipTier))
  }

  /** Two updates in a row: the later one's provided fields win, the earlier one fills the rest. */
  function Then(first: ProfileUpdate, second: ProfileUpdate): ProfileUpdate
  {
    ProfileUpdate(
      if second.firstName.Some? then second.firstName else first.firstName,
      if second.lastName.Some? then second.lastName else first.lastName,
      if second.dateOfBirth.Some? then second.dateOfBirth else first.dateOfBirth,
      if second.address.Some? then second.address else first.address,
      if second.membershipTier.Some? then second.membershipTier else first.membershipTier)
  }

  /** Applying the same update twice equals applying it once. */
  lemma MergeIdempotent(user: User, update: ProfileUpdate)
    ensures MergeProfile(MergeProfile(user, update), update) == MergeProfile(user, update)
  {
  }

  /** An update that provides nothing changes nothing; two updates compose into one. */
  lemma MergeComposes(user: User, first: ProfileUpdate, second: ProfileUpdate)
    ensures MergeProfile(user, ProfileUpdate(None, None, None, None, None)) == user
    ensures MergeProfile(MergeProfile(user, first), second) == MergeProfile(user, Then(first, second))
  {
  }

  /** The account service's state: the code store and the users table. */
  class AccountService {
    var codes: map<string, CodeEntry>
    var users: map<int, User>
    var nextUserId: int

    /** User ids are below the counter and e-mails are unique. */
    ghost predicate Valid()
      reads this
    {
      (forall id :: id in users ==> id < nextUserId) && EmailsUnique(users)
    }

    constructor ()
      ensures Valid() && codes == map[] && users == map[]
    {
      codes := map[];
      users := map[];
      nextUserId := 1;
    }

    /**
     * RequestVerificationCode: formats the draw `n`, e-mails it, and only when
     * the e-mail went out stores it for five minutes, replacing any earlier
     * code for that address. The code is also returned in the response.
     */
    method RequestVerificationCode(email: string, n: nat, now: int, emailSent: bool) returns (sent: Option<string>)
      requires n < CodeRange
      modifies this`codes
      ensures emailSent ==> sent == Some(FormatVerificationCode(n))
                            && codes == StoreCode(old(codes), email, FormatVerificationCode(n), now)
      ensures !emailSent ==> sent == None && codes == old(codes)
    {
      var code := FormatVerificationCode(n);
      if !emailSent {
        return None;
      }
      var expirationTime := now + CodeLifetime;
      codes := codes[email := CodeEntry(code, expirationTime)];
      sent := Some(code);
    }

    /**
     * RegisterUser: the checks of RegistrationCheck, then the password hash
     * (`hashed` is bcrypt's result, None when it failed), then one insertion.
     * The verification code is left in the store.
     */
    method RegisterUser(req: RegisterRequest, now: int, hashed: Option<string>) returns (r: Result<int, RegisterError>)
      requires Valid()
      modifies this`users, this`nextUserId
      ensures Valid()
      ensures var check := RegistrationCheck(req, codes, old(users), now);
        && (check.Some? ==> r == Failure(check.value))
        && (check.None? && hashed.None? ==> r == Failure(HashingFailed))
        && (check.None? && hashed.Some? ==> r == Success(old(nextUserId)))
      ensures r.Failure? ==> users == old(users) && nextUserId == old(nextUserId)
      ensures r.Success? ==> users == old(users)[r.value := NewUser(req, hashed.value)]
                             && nextUserId == old(nextUserId) + 1
    {
      if MissingRequiredField(req) {
        return Failure(MissingFields);
      }
      if !CodeIsValid(codes, req.email, req.code, now) {
        return Failure(InvalidOrExpiredCode);
      }
      if EmailTaken(users, req.email) {
        return Failure(EmailInUse);
      }
      if hashed.None? {
        return Failure(HashingFailed);
      }
      var id := nextUserId;
      users := users[id := NewUser(req, hashed.value)];
      nextUserId := nextUserId + 1;
      r := Success(id);
    }

    /**
     * LoginUser: the user with that e-mail, if any, whose stored hash
     * `matches` the password (bcrypt's comparison). An unknown e-mail and a
     * wrong password give the same error.
     */
    method LoginUser(email: string, password: string, matches: (string, string) -> bool)
      returns (r: Result<int, LoginError>)
      requires Valid()
      ensures r.Success? <==> exists id :: id in users && users[id].email == email && matches(users[id].passwordHash, password)
      ensures r.Success? ==> r.value in users && users[r.value].email == email
      ensures r.Failure? ==> r.error == InvalidEmailOrPassword
    {
      if !EmailTaken(users, email) {
        return Failure(InvalidEmailOrPassword);
      }
      var id :| id in users && users[id].email == email;
      if !matches(users[id].passwordHash, password) {
        return Failure(InvalidEmailOrPassword);
      }
      r := Success(id);
    }

    /**
     * UpdateUserProfile: an unknown user is not found; otherwise each field
     * takes the provided value or keeps the current one, and the row is
     * written once.
     */
    method UpdateUserProfile(userId: int, update: ProfileUpdate) returns (r: UpdateOutcome)
      requires Valid()
      modifies this`users
      ensures Valid()
      ensures r == UserNotFound <==> userId !in old(users)
      ensures r == UserNotFound ==> users == old(users)
      ensures r == Updated ==> users == old(users)[userId := MergeProfile(old(users)[userId], update)]
    {
      if userId !in users {
        return UserNotFound;
      }
      var existing := users[userId];
      var firstName := existing.firstName;
      if update.firstName.Some? {
        firstName := update.firstName.value;
      }
      var lastName := existing.lastName;
      if update.lastName.Some? {
        lastName := update.lastName.value;
      }
      var dateOfBirth := existing.dateOfBirth;
      if update.dateOfBirth.Some? {
        dateOfBirth := update.dateOfBirth.value;
      }
      var address := existing.address;
      if update.address.Some? {
        address := update.address.value;
      }
      var membershipTier := existing.membershipTier;
      if update.membershipTier.Some? {
        membershipTier := update.membershipTier.value;
      }
      users := users[userId := existing.(firstName := firstName, lastName := lastName, dateOfBirth := dateOfBirth,
                                         address := address, membershipTier := membershipTier)];
      r := Updated;
    }
  }
}
