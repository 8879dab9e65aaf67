/** Users, registration and password login, with an ideal password hasher. */
module Credentials {
  import opened Outcomes
  import opened Text
  import opened Emails

  const MAX_PASSWORD_LENGTH: nat := 128
  const MIN_PASSWORD_LENGTH: nat := 8

  /** The parts of Unicode the rules use: NFKC normalization and the control category.  Every
      result holds for any choice of them. */
  datatype Unicode = Unicode(nfkc: string -> string, isControl: char -> bool)

  /** What the hasher stores: enough to answer a verify, and the cost parameters used. */
  datatype Hash = Hash(secret: string, params: nat)

  datatype User = User(id: nat, email: string, hash: Hash, active: bool)

  datatype AuthError =
    | InvalidEmail | RequiredField | StringTooShort | StringTooLong
    | DuplicateUserEmail | UnknownUser | InvalidCredentials | Unknown

  /** What ends a registration: every violation of the input together, or one error. */
  datatype RegisterError = Violations(codes: seq<AuthError>) | Failed(code: AuthError)

  /** A validated registration: the address to store and the text to hash. */
  datatype Draft = Draft(email: string, secret: string)

  predicate Verifies(candidate: string, hash: Hash) { hash.secret == candidate }

  function NormalizePassword(raw: string, u: Unicode): string { Strip(u.nfkc(raw)) }

  /** `str.partition("@")`: the text before the first at sign, whether there is one, the rest. */
  function Partition(s: string): (string, bool, string) {
    if s == [] then ([], false, [])
    else if s[0] == '@' then ([], true, s[1..])
    else
      var (local, found, domain) := Partition(s[1..]);
      ([s[0]] + local, found, domain)
  }

  predicate IsWellFormedEmail(email: string, u: Unicode) {
    && email != [] && |email| <= MAX_EMAIL_LENGTH
    && (forall i :: 0 <= i < |email| ==> !IsSpace(email[i]) && !u.isControl(email[i]))
    && var (local, found, domain) := Partition(email);
       found && local != [] && domain != [] && '@' !in domain
  }

  function CheckPassword(raw: string, u: Unicode): Result<string, AuthError> {
    if |raw| > MAX_PASSWORD_LENGTH then Err(StringTooLong)
    else
      var normalized := NormalizePassword(raw, u);
      if normalized == [] then Err(AuthError.RequiredField)
      else if |normalized| < MIN_PASSWORD_LENGTH then Err(StringTooShort)
      else if |normalized| > MAX_PASSWORD_LENGTH then Err(StringTooLong)
      else Ok(normalized)
  }

  function FindByEmail(rows: seq<User>, email: string): Option<User> {
    if rows == [] then None
    else if rows[0].email == NormalizeEmail(email) then Some(rows[0])
    else FindByEmail(rows[1..], email)
  }

  /** INSERT under the primary key and the unique email. */
  function CreateTx(rows: seq<User>, user: User): Result<seq<User>, AuthError> {
    if exists i :: 0 <= i < |rows| && rows[i].id == user.id then Err(Unknown)
    else if exists i :: 0 <= i < |rows| && rows[i].email == user.email then Err(DuplicateUserEmail)
    else Ok(rows + [user])
  }

  function Rewrite(rows: seq<User>, id: nat, change: User -> User): seq<User> {
    seq(|rows|, i requires 0 <= i < |rows| => if rows[i].id == id then change(rows[i]) else rows[i])
  }

  predicate HasId(rows: seq<User>, id: nat) { exists i :: 0 <= i < |rows| && rows[i].id == id }

  function UpdateTx(rows: seq<User>, id: nat, change: User -> User): Result<seq<User>, AuthError> {
    if HasId(rows, id) then Ok(Rewrite(rows, id, change)) else Err(UnknownUser)
  }

  function WithHash(hash: Hash): User -> User { (x: User) => x.(hash := hash) }

  function WithActive(active: bool): User -> User { (x: User) => x.(active := active) }

  class PostgresUserRepo {
    var rows: seq<User>

    constructor ()
      ensures rows == []
    {
      rows := [];
    }

    method Create(user: User) returns (r: Option<AuthError>)
      modifies this
      ensures var tx := CreateTx(old(rows), user);
              if tx.Ok? then rows == tx.value && r.None? else rows == old(rows) && r == Some(tx.error)
    {
      var tx := CreateTx(rows, user);
      if tx.Err? {
        return Some(tx.error);
      }
      rows := tx.value;
      r := None;
    }

    method GetByEmail(email: string) returns (r: Option<User>)
      ensures r == FindByEmail(rows, email)
    {
      var key := NormalizeEmail(email);
      for i := 0 to |rows|
        invariant FindByEmail(rows, email) == FindByEmail(rows[i..], email)
      {
        if rows[i].email == key {
          return Some(rows[i]);
        }
      }
      r := None;
    }

    method UpdatePasswordHash(id: nat, hash: Hash) returns (r: Option<AuthError>)
      modifies this
      ensures if HasId(old(rows), id) then rows == Rewrite(old(rows), id, WithHash(hash)) && r.None?
              else rows == old(rows) && r == Some(UnknownUser)
      ensures |rows| == |old(rows)|
      ensures forall i :: 0 <= i < |rows| ==>
                rows[i] == if old(rows)[i].id == id then old(rows)[i].(hash := hash) else old(rows)[i]
    {
      r := UpdateOne(id, WithHash(hash));
    }

    method SetActive(id: nat, active: bool) returns (r: Option<AuthError>)
      modifies this
      ensures if HasId(old(rows), id) then rows == Rewrite(old(rows), id, WithActive(active)) && r.None?
              else rows == old(rows) && r == Some(UnknownUser)
      ensures |rows| == |old(rows)|
      ensures forall i :: 0 <= i < |rows| ==>
                rows[i] == if old(rows)[i].id == id then old(rows)[i].(active := active) else old(rows)[i]
    {
      r := UpdateOne(id, WithActive(active));
    }

    method UpdateOne(id: nat, change: User -> User) returns (r: Option<AuthError>)
      modifies this
      ensures if HasId(old(rows), id) then rows == Rewrite(old(rows), id, change) && r.None?
              else rows == old(rows) && r == Some(UnknownUser)
    {
      var tx := UpdateTx(rows, id, change);
      if tx.Err? {
        return Some(UnknownUser);
      }
      rows := tx.value;
      r := None;
    }
  }

  class IdealHasher {
    var verifyCalls: seq<Hash>
    var params: nat

    constructor (params: nat)
      ensures verifyCalls == [] && this.params == params
    {
      verifyCalls := [];
      this.params := params;
    }

    method MakeHash(secret: string) returns (h: Hash)
      ensures h == Hash(secret, params)
    {
      h := Hash(secret, params);
    }

    method Verify(candidate: string, hash: Hash) returns (ok: bool)
      modifies this`verifyCalls
      ensures ok == Verifies(candidate, hash) && verifyCalls == old(verifyCalls) + [hash]
    {
      verifyCalls := verifyCalls + [hash];
      ok := Verifies(candidate, hash);
    }
  }

  /** The checks before any lookup or hashing: the lookup key and the text to verify. */
  function LoginGates(email: string, raw: string, u: Unicode): Result<Draft, AuthError> {
    if |raw| > MAX_PASSWORD_LENGTH then Err(InvalidCredentials)
    else
      var secret := NormalizePassword(raw, u);
      if secret == [] || |secret| > MAX_PASSWORD_LENGTH then Err(InvalidCredentials)
      else if |NormalizeEmail(email)| > MAX_EMAIL_LENGTH then Err(InvalidCredentials)
      else Ok(Draft(NormalizeEmail(email), secret))
  }

  function Authenticate(rows: seq<User>, email: string, raw: string, params: nat, u: Unicode)
    : (seq<User>, Result<nat, AuthError>)
  {
    var gates := LoginGates(email, raw, u);
    if gates.Err? then (rows, Err(gates.error))
    else
      var user := FindByEmail(rows, gates.value.email);
      if user.None? || !Verifies(gates.value.secret, user.value.hash) || !user.value.active
      then (rows, Err(InvalidCredentials))
      else if user.value.hash.params == params then (rows, Ok(user.value.id))
      else
        match UpdateTx(rows, user.value.id, WithHash(Hash(gates.value.secret, params)))
        case Ok(updated) => (updated, Ok(user.value.id))
        case Err(error) => (rows, Err(error))
  }

  class PasswordAuthenticator {
    const users: PostgresUserRepo
    const hasher: IdealHasher
    const dummy: Hash

    constructor (users: PostgresUserRepo, hasher: IdealHasher, dummy: Hash)
      ensures this.users == users && this.hasher == hasher && this.dummy == dummy
    {
      this.users := users;
      this.hasher := hasher;
      this.dummy := dummy;
    }

    /** Every attempt past the gates verifies exactly once, against the stored hash or the
        dummy; a gated attempt touches neither the hasher nor the users. */
    method Login(email: string, raw: string, u: Unicode) returns (r: Result<nat, AuthError>)
      modifies users, hasher
      ensures (users.rows, r) == Authenticate(old(users.rows), email, raw, hasher.params, u)
      ensures hasher.params == old(hasher.params)
      ensures var gates := LoginGates(email, raw, u);
              hasher.verifyCalls == old(hasher.verifyCalls)
                + if gates.Err? then []
                  else
                    var user := FindByEmail(old(users.rows), gates.value.email);
                    [if user.Some? then user.value.hash else dummy]
    {
      if |raw| > MAX_PASSWORD_LENGTH {
        return Err(InvalidCredentials);
      }
      var secret := NormalizePassword(raw, u);
      var key := NormalizeEmail(email);
      if secret == [] || |secret| > MAX_PASSWORD_LENGTH {
        return Err(InvalidCredentials);
      }
      if |key| > MAX_EMAIL_LENGTH {
        return Err(InvalidCredentials);
      }
      var user := users.GetByEmail(key);
      if user.None? {
        var _ := hasher.Verify(secret, dummy);
        return Err(InvalidCredentials);
      }
      var matches := hasher.Verify(secret, user.value.hash);
      if !matches || !user.value.active {
        return Err(InvalidCredentials);
      }
      if user.value.hash.params != hasher.params {
        var hash := hasher.MakeHash(secret);
        var failed := users.UpdatePasswordHash(user.value.id, hash);
        if failed.Some? {
          return Err(failed.value);
        }
      }
      r := Ok(user.value.id);
    }
  }

  /** Everything wrong with a registration's input, email first. */
  function InputViolations(email: string, raw: string, u: Unicode): seq<AuthError> {
    (if IsWellFormedEmail(NormalizeEmail(email), u) then [] else [InvalidEmail])
    + (match CheckPassword(raw, u) case Ok(_) => [] case Err(code) => [code])
  }

  /** A registration up to its insert: validation, then the duplicate pre-check. */
  function Validate(rows: seq<User>, email: string, raw: string, u: Unicode): Result<Draft, RegisterError> {
    if InputViolations(email, raw, u) != [] then Err(Violations(InputViolations(email, raw, u)))
    else if FindByEmail(rows, NormalizeEmail(email)).Some? then Err(Failed(DuplicateUserEmail))
    else Ok(Draft(NormalizeEmail(email), NormalizePassword(raw, u)))
  }

  function NewUser(id: nat, draft: Draft, hash: Hash): User { User(id, NormalizeEmail(draft.email), hash, true) }

  function RegisterTx(rows: seq<User>, email: string, raw: string, id: nat, params: nat, u: Unicode)
    : (seq<User>, Result<nat, RegisterError>)
  {
    match Validate(rows, email, raw, u)
    case Err(error) => (rows, Err(error))
    case Ok(draft) =>
      match CreateTx(rows, NewUser(id, draft, Hash(draft.secret, params)))
      case Ok(after) => (after, Ok(id))
      case Err(code) => (rows, Err(Failed(code)))
  }

  class RegistrationService {
    const users: PostgresUserRepo
    const hasher: IdealHasher

    constructor (users: PostgresUserRepo, hasher: IdealHasher)
      ensures this.users == users && this.hasher == hasher
    {
      this.users := users;
      this.hasher := hasher;
    }

    /** `id` is the fresh identifier the platform supplies. */
    method Register(email: string, raw: string, id: nat, u: Unicode) returns (r: Result<nat, RegisterError>)
      modifies users
      ensures (users.rows, r) == RegisterTx(old(users.rows), email, raw, id, hasher.params, u)
    {
      var key := NormalizeEmail(email);
      var violations := [];
      if !IsWellFormedEmail(key, u) {
        violations := violations + [InvalidEmail];
      }
      var password := CheckPassword(raw, u);
      if password.Err? {
        violations := violations + [password.error];
      }
      assert violations == InputViolations(email, raw, u);
      if violations != [] {
        return Err(Violations(violations));
      }
      var taken := users.GetByEmail(key);
      if taken.Some? {
        return Err(Failed(DuplicateUserEmail));
      }
      var hash := hasher.MakeHash(password.value);
      var failed := users.Create(NewUser(id, Draft(key, password.value), hash));
      r := if failed.Some? then Err(Failed(failed.value)) else Ok(id);
    }
  }

  lemma {:induction false} PartitionJoins(s: string)
    ensures var (local, found, domain) := Partition(s);
            && '@' !in local
            && s == (if found then local + "@" + domain else local)
            && (!found ==> domain == [])
  {
    if s != [] && s[0] != '@' {
      PartitionJoins(s[1..]);
      assert s == [s[0]] + s[1..];
    } else if s != [] {
      assert s == "@" + s[1..];
    }
  }

  /** The shape rule in full: an address passes exactly when it is short enough, holds no
      space or control character, and its one at sign has text on both sides. */
  lemma WellFormedMeans(email: string, u: Unicode)
    ensures IsWellFormedEmail(email, u)
       <==> && |email| <= MAX_EMAIL_LENGTH
            && (forall i :: 0 <= i < |email| ==> !IsSpace(email[i]) && !u.isControl(email[i]))
            && exists k :: 0 < k < |email| - 1 && SoleAt(email, k)
  {
    PartitionJoins(email);
    var (local, found, domain) := Partition(email);
    if found {
      assert email == local + "@" + domain;
      assert email[|local|] == '@';
      if local != [] && domain != [] && '@' !in domain {
        assert SoleAt(email, |local|);
      }
      forall k | 0 < k < |email| - 1 && SoleAt(email, k)
        ensures k == |local| && '@' !in domain
      {
        assert forall j :: 0 <= j < |domain| ==> domain[j] == email[|local| + 1 + j];
      }
    } else {
      assert '@' !in email;
      assert forall k :: 0 <= k < |email| && SoleAt(email, k) ==> email[k] == '@';
    }
  }

  predicate SoleAt(s: string, k: nat)
    requires k < |s|
  {
    forall j :: 0 <= j < |s| ==> (s[j] == '@' <==> j == k)
  }

  /** A password is accepted exactly within the limits, and what registration accepts always
      passes the login gates, with the same text to verify. */
  lemma AcceptedInputPassesGates(email: string, raw: string, u: Unicode)
    ensures InputViolations(email, raw, u) == []
       <==> && IsWellFormedEmail(NormalizeEmail(email), u)
            && |raw| <= MAX_PASSWORD_LENGTH
            && MIN_PASSWORD_LENGTH <= |NormalizePassword(raw, u)| <= MAX_PASSWORD_LENGTH
    ensures InputViolations(email, raw, u) == [] ==>
              LoginGates(email, raw, u) == Ok(Draft(NormalizeEmail(email), NormalizePassword(raw, u)))
  {
  }

  lemma {:induction false} FoundByEmail(rows: seq<User>, email: string)
    ensures match FindByEmail(rows, email)
            case Some(user) => user in rows && user.email == NormalizeEmail(email)
            case None => forall i :: 0 <= i < |rows| ==> rows[i].email != NormalizeEmail(email)
  {
    if rows != [] {
      FoundByEmail(rows[1..], email);
    }
  }

  /** The text hashed and verified: what NFKC gives, without the spaces around it, case kept. */
  lemma PasswordText(raw: string, u: Unicode, left: string, core: string, right: string)
    requires u.nfkc(raw) == left + core + right && AllSpace(left) && AllSpace(right) && Trimmed(core)
    ensures NormalizePassword(raw, u) == core
  {
    StripPadded(left, core, right);
  }

  /** An address anyone could have: at most 254 characters, no space or control character, and
      one at sign with text on both sides. */
  predicate GoodAddress(email: string, u: Unicode) {
    && |email| <= 254
    && (forall i :: 0 <= i < |email| ==> !IsSpace(email[i]) && !u.isControl(email[i]))
    && exists k :: 0 < k < |email| - 1 && SoleAt(email, k)
  }

  /** What is wrong with a password, if anything: too long as typed, blank, under 8 or over 128
      characters once normalized. */
  function PasswordFault(raw: string, u: Unicode): Option<AuthError> {
    var secret := NormalizePassword(raw, u);
    if |raw| > 128 || |secret| > 128 then Some(StringTooLong)
    else if secret == [] then Some(AuthError.RequiredField)
    else if |secret| < 8 then Some(StringTooShort)
    else None
  }

  predicate AddressTaken(rows: seq<User>, address: string) {
    exists i :: 0 <= i < |rows| && rows[i].email == address
  }

  lemma CheckedPassword(raw: string, u: Unicode)
    ensures CheckPassword(raw, u)
         == match PasswordFault(raw, u) case Some(code) => Err(code) case None => Ok(NormalizePassword(raw, u))
  {
  }

  lemma GoodAddressIff(email: string, u: Unicode)
    ensures IsWellFormedEmail(email, u) <==> GoodAddress(email, u)
  {
    WellFormedMeans(email, u);
  }

  /** A registration in full, on any table: every fault of the input together, then a taken
      address, then the new user. */
  lemma RegisterMeans(rows: seq<User>, email: string, raw: string, id: nat, params: nat, u: Unicode)
    ensures var (after, r) := RegisterTx(rows, email, raw, id, params, u);
            var (address, fault) := (NormalizeEmail(email), PasswordFault(raw, u));
            if !GoodAddress(address, u) || fault.Some? then
              && after == rows
              && r == Err(Violations((if GoodAddress(address, u) then [] else [InvalidEmail])
                                     + if fault.Some? then [fault.value] else []))
            else if AddressTaken(rows, address) then after == rows && r == Err(Failed(DuplicateUserEmail))
            else if HasId(rows, id) then after == rows && r == Err(Failed(Unknown))
            else
              && after == rows + [User(id, address, Hash(NormalizePassword(raw, u), params), true)]
              && r == Ok(id)
  {
    var address := NormalizeEmail(email);
    NormalizeIdempotent(email);
    GoodAddressIff(address, u);
    CheckedPassword(raw, u);
    FoundByEmail(rows, address);
    hide NormalizeEmail, NormalizePassword, IsWellFormedEmail, GoodAddress, CheckPassword, PasswordFault, FindByEmail;
  }
}
