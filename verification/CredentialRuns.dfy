/** Registrations, logins, rehashes and activations interleaved at every await. */
module CredentialRuns {
  import opened Outcomes
  import opened Emails
  import opened Credentials

  /** Where a call stands: a validated registration, one with its hash made, a login that has
      read its user row, one about to store a fresh hash; and the two ends, with what the call
      went by (nothing if its input was refused) and what it answers. */
  datatype Stage =
    | Drafted(draft: Draft)
    | Hashed(draft: Draft, hash: Hash)
    | Registered(input: Option<Draft>, saved: Result<nat, RegisterError>)
    | Read(user: User, key: Draft)
    | Rehashing(user: User, key: Draft, hash: Hash)
    | LoggedIn(typed: Option<Draft>, read: Option<User>, answer: Result<nat, AuthError>)

  /** `registered` remembers, for each stored user, the text registration hashed. */
  datatype State = State(rows: seq<User>, params: nat, calls: map<nat, Stage>, registered: map<nat, string>)

  datatype Event =
    | BeginRegister(call: nat, email: string, raw: string)
    | MakeHash(call: nat)
    | SaveUser(call: nat, id: nat)
    | BeginLogin(call: nat, email: string, raw: string)
    | Verify(call: nat)
    | StoreRehash(call: nat)
    | SetActive(id: nat, active: bool)
    | Reconfigure(params: nat)

  function Start(params: nat): State { State([], params, map[], map[]) }

  function To(s: State, call: nat, stage: Stage): State { s.(calls := s.calls[call := stage]) }

  function Apply(s: State, ev: Event, u: Unicode): State {
    match ev
    case BeginRegister(call, email, raw) =>
      if call in s.calls then s
      else
        (match Validate(s.rows, email, raw, u)
         case Ok(draft) => To(s, call, Drafted(draft))
         case Err(error) => To(s, call, Registered(None, Err(error))))
    case MakeHash(call) =>
      if call in s.calls && s.calls[call].Drafted?
      then To(s, call, Hashed(s.calls[call].draft, Hash(s.calls[call].draft.secret, s.params)))
      else s
    case SaveUser(call, id) =>
      if call in s.calls && s.calls[call].Hashed? then
        var draft := s.calls[call].draft;
        (match CreateTx(s.rows, NewUser(id, draft, s.calls[call].hash))
         case Ok(rows) =>
           To(s, call, Registered(Some(draft), Ok(id))).(rows := rows, registered := s.registered[id := draft.secret])
         case Err(code) => To(s, call, Registered(Some(draft), Err(Failed(code)))))
      else s
    case BeginLogin(call, email, raw) =>
      if call in s.calls then s
      else
        (match LoginGates(email, raw, u)
         case Err(error) => To(s, call, LoggedIn(None, None, Err(error)))
         case Ok(key) =>
           match FindByEmail(s.rows, key.email)
           case Some(user) => To(s, call, Read(user, key))
           case None => To(s, call, LoggedIn(Some(key), None, Err(InvalidCredentials))))
    case Verify(call) =>
      if call in s.calls && s.calls[call].Read? then Verified(s, call, s.calls[call].user, s.calls[call].key) else s
    case StoreRehash(call) =>
      if call in s.calls && s.calls[call].Rehashing? then
        var (user, key) := (s.calls[call].user, s.calls[call].key);
        (match UpdateTx(s.rows, user.id, WithHash(s.calls[call].hash))
         case Ok(rows) => To(s, call, LoggedIn(Some(key), Some(user), Ok(user.id))).(rows := rows)
         case Err(error) => To(s, call, LoggedIn(Some(key), Some(user), Err(error))))
      else s
    case SetActive(id, active) =>
      (match UpdateTx(s.rows, id, WithActive(active)) case Ok(rows) => s.(rows := rows) case Err(_) => s)
    case Reconfigure(params) => s.(params := params)
  }

  function Verified(s: State, call: nat, user: User, key: Draft): State {
    if !Verifies(key.secret, user.hash) || !user.active
    then To(s, call, LoggedIn(Some(key), Some(user), Err(InvalidCredentials)))
    else if user.hash.params != s.params then To(s, call, Rehashing(user, key, Hash(key.secret, s.params)))
    else To(s, call, LoggedIn(Some(key), Some(user), Ok(user.id)))
  }

  function Exec(s: State, events: seq<Event>, u: Unicode): State {
    if events == [] then s
    else Apply(Exec(s, events[..|events| - 1], u), events[|events| - 1], u)
  }

  /** A stored user can be found and checked: a normalized address within the limit, and a
      hash of the text registered for it. */
  ghost predicate UserOk(user: User, registered: map<nat, string>) {
    && NormalizeEmail(user.email) == user.email && |user.email| <= MAX_EMAIL_LENGTH
    && user.id in registered && user.hash.secret == registered[user.id]
  }

  ghost predicate Distinct(rows: seq<User>) {
    forall i, j :: 0 <= i < |rows| && 0 <= j < |rows| && (rows[i].id == rows[j].id || rows[i].email == rows[j].email)
           ==> i == j
  }

  ghost predicate UsersOk(rows: seq<User>, registered: map<nat, string>) {
    && Distinct(rows)
    && (forall i :: 0 <= i < |rows| ==> UserOk(rows[i], registered))
    && (forall id :: id in registered ==> HasId(rows, id) && WithinLimits(registered[id]))
  }

  predicate WithinLimits(secret: string) { 0 < |secret| <= MAX_PASSWORD_LENGTH }

  predicate DraftOk(draft: Draft) {
    NormalizeEmail(draft.email) == draft.email && |draft.email| <= MAX_EMAIL_LENGTH && WithinLimits(draft.secret)
  }

  predicate Stored(rows: seq<User>, id: nat, email: string) {
    exists i :: 0 <= i < |rows| && rows[i].id == id && rows[i].email == email
  }

  /** The row a login read is that of a stored user, with the hash of its registered text. */
  ghost predicate ReadOk(user: User, key: Draft, rows: seq<User>, registered: map<nat, string>) {
    && user.email == key.email && Stored(rows, user.id, key.email)
    && user.id in registered && user.hash.secret == registered[user.id]
  }

  ghost predicate StageOk(stage: Stage, rows: seq<User>, registered: map<nat, string>) {
    match stage
    case Drafted(draft) => DraftOk(draft)
    case Hashed(draft, hash) => DraftOk(draft) && hash.secret == draft.secret
    case Registered(None, saved) => saved.Err?
    case Registered(Some(draft), Ok(id)) =>
      Stored(rows, id, draft.email) && id in registered && registered[id] == draft.secret
    case Registered(Some(_), Err(error)) => error == Failed(DuplicateUserEmail) || error == Failed(Unknown)
    case Read(user, key) => ReadOk(user, key, rows, registered)
    case Rehashing(user, key, hash) =>
      ReadOk(user, key, rows, registered) && user.active && hash.secret == key.secret == registered[user.id]
    case LoggedIn(None, _, answer) => answer == Err(InvalidCredentials)
    case LoggedIn(Some(_), None, answer) => answer == Err(InvalidCredentials)
    case LoggedIn(Some(key), Some(user), answer) =>
      && ReadOk(user, key, rows, registered)
      && answer == if user.active && key.secret == registered[user.id] then Ok(user.id) else Err(InvalidCredentials)
  }

  ghost predicate CallsOk(s: State) {
    forall call :: call in s.calls ==> StageOk(s.calls[call], s.rows, s.registered)
  }

  predicate RegisteredAs(stage: Stage, id: nat) { stage.Registered? && stage.saved == Ok(id) }

  /** No two registrations report the same user. */
  ghost predicate RegistrarsUnique(calls: map<nat, Stage>) {
    forall i, j, id :: i in calls && j in calls && RegisteredAs(calls[i], id) && RegisteredAs(calls[j], id) ==> i == j
  }

  ghost predicate Inv(s: State) { UsersOk(s.rows, s.registered) && CallsOk(s) && RegistrarsUnique(s.calls) }

  /** Nothing stored is forgotten: a later state keeps every registered text and every user's
      identity and address. */
  ghost predicate Keeps(s: State, later: State) {
    && (forall id :: id in s.registered ==> id in later.registered && later.registered[id] == s.registered[id])
    && |s.rows| <= |later.rows|
    && (forall i :: 0 <= i < |s.rows| ==> later.rows[i].id == s.rows[i].id && later.rows[i].email == s.rows[i].email)
  }

  lemma ValidatedDraft(rows: seq<User>, email: string, raw: string, u: Unicode)
    requires Validate(rows, email, raw, u).Ok?
    ensures DraftOk(Validate(rows, email, raw, u).value)
  {
  }

  lemma SavedTable(rows: seq<User>, registered: map<nat, string>, user: User, secret: string)
    requires UsersOk(rows, registered) && CreateTx(rows, user).Ok?
    requires UserOk(user, registered[user.id := secret]) && WithinLimits(secret)
    ensures UsersOk(rows + [user], registered[user.id := secret]) && user.id !in registered
  {
    hide NormalizeEmail, WithinLimits;
    var after := rows + [user];
    assert after[|rows|].id == user.id;
    forall k | k in registered
      ensures HasId(after, k)
    {
      var i :| 0 <= i < |rows| && rows[i].id == k;
      assert after[i].id == k;
    }
  }

  /** Rewriting one user's hash or flag keeps the table, when the hash is of the same text. */
  lemma RewriteKeeps(rows: seq<User>, id: nat, change: User -> User, registered: map<nat, string>)
    requires UsersOk(rows, registered)
    requires forall x :: x in rows && x.id == id ==>
               change(x).id == x.id && change(x).email == x.email && change(x).hash.secret == x.hash.secret
    ensures UsersOk(Rewrite(rows, id, change), registered) && |Rewrite(rows, id, change)| == |rows|
    ensures forall i :: 0 <= i < |rows| ==>
              Rewrite(rows, id, change)[i].id == rows[i].id && Rewrite(rows, id, change)[i].email == rows[i].email
  {
    hide NormalizeEmail, WithinLimits, HasId;
    var after := Rewrite(rows, id, change);
    forall i | 0 <= i < |rows|
      ensures after[i].id == rows[i].id && after[i].email == rows[i].email && after[i].hash.secret == rows[i].hash.secret
    {
      assert rows[i] in rows;
    }
    hide Rewrite;
    assert forall i :: 0 <= i < |after| ==> UserOk(rows[i], registered) && UserOk(after[i], registered);
    SameIds(rows, after);
  }

  lemma SameIds(rows: seq<User>, after: seq<User>)
    requires |after| == |rows| && forall i :: 0 <= i < |rows| ==> after[i].id == rows[i].id
    ensures forall k :: HasId(rows, k) ==> HasId(after, k)
  {
    forall k | HasId(rows, k)
      ensures HasId(after, k)
    {
      var i :| 0 <= i < |rows| && rows[i].id == k;
      assert after[i].id == k;
    }
  }

  lemma StageStays(stage: Stage, s: State, s': State)
    requires StageOk(stage, s.rows, s.registered) && Keeps(s, s')
    ensures StageOk(stage, s'.rows, s'.registered)
  {
    hide NormalizeEmail;
    forall id, email | Stored(s.rows, id, email)
      ensures Stored(s'.rows, id, email)
    {
      var i :| 0 <= i < |s.rows| && s.rows[i].id == id && s.rows[i].email == email;
      assert s'.rows[i].id == id && s'.rows[i].email == email;
    }
  }

  lemma RegistrarIsStored(stage: Stage, id: nat, rows: seq<User>, registered: map<nat, string>)
    requires StageOk(stage, rows, registered) && RegisteredAs(stage, id)
    ensures id in registered && stage.input.Some?
  {
  }

  /** One call moves to a stage its tables bear out, and the others keep theirs. */
  lemma CallMoves(s: State, s': State, call: nat, stage: Stage)
    requires Inv(s) && UsersOk(s'.rows, s'.registered) && Keeps(s, s')
    requires s'.calls == s.calls[call := stage] && StageOk(stage, s'.rows, s'.registered)
    requires call in s.calls ==> !s.calls[call].Registered?
    requires forall id :: RegisteredAs(stage, id) ==> id !in s.registered
    ensures Inv(s')
  {
    hide UsersOk, StageOk, Keeps;
    forall c | c in s'.calls && c != call
      ensures StageOk(s'.calls[c], s'.rows, s'.registered)
    {
      StageStays(s.calls[c], s, s');
    }
    forall c, id | c in s.calls && RegisteredAs(s.calls[c], id)
      ensures id in s.registered
    {
      RegistrarIsStored(s.calls[c], id, s.rows, s.registered);
    }
  }

  lemma TableMoves(s: State, s': State)
    requires Inv(s) && UsersOk(s'.rows, s'.registered) && Keeps(s, s') && s'.calls == s.calls
    ensures Inv(s')
  {
    hide UsersOk, StageOk, Keeps;
    forall c | c in s'.calls
      ensures StageOk(s'.calls[c], s'.rows, s'.registered)
    {
      StageStays(s.calls[c], s, s');
    }
  }

  lemma SaveKeeps(s: State, call: nat, id: nat, u: Unicode)
    requires Inv(s) && call in s.calls && s.calls[call].Hashed?
    ensures Inv(Apply(s, SaveUser(call, id), u)) && Keeps(s, Apply(s, SaveUser(call, id), u))
  {
    hide NormalizeEmail, WithinLimits, UsersOk;
    var s' := Apply(s, SaveUser(call, id), u);
    assert StageOk(s.calls[call], s.rows, s.registered);
    var draft := s.calls[call].draft;
    var user := NewUser(id, draft, s.calls[call].hash);
    if CreateTx(s.rows, user).Ok? {
      SavedTable(s.rows, s.registered, user, draft.secret);
      assert s'.rows == s.rows + [user] && s'.rows[|s.rows|] == user;
      assert Stored(s'.rows, id, draft.email);
    }
    hide Apply, StageOk, CreateTx;
    CallMoves(s, s', call, s'.calls[call]);
  }

  lemma LoginStarts(s: State, call: nat, email: string, raw: string, u: Unicode)
    requires Inv(s) && call !in s.calls
    ensures Inv(Apply(s, BeginLogin(call, email, raw), u)) && Keeps(s, Apply(s, BeginLogin(call, email, raw), u))
  {
    hide NormalizeEmail, NormalizePassword, FindByEmail, Keeps;
    var s' := Apply(s, BeginLogin(call, email, raw), u);
    SameTables(s, s');
    if LoginGates(email, raw, u).Ok? {
      LookupKeeps(s, email);
    }
    hide Apply, LoginGates;
    assert StageOk(s'.calls[call], s.rows, s.registered);
    hide UsersOk;
    CallMoves(s, s', call, s'.calls[call]);
  }

  lemma SameTables(s: State, s': State)
    requires s'.rows == s.rows && s'.registered == s.registered
    ensures Keeps(s, s')
  {
  }

  lemma VerifyKeeps(s: State, call: nat, u: Unicode)
    requires Inv(s) && call in s.calls && s.calls[call].Read?
    ensures Inv(Apply(s, Verify(call), u)) && Keeps(s, Apply(s, Verify(call), u))
  {
    hide UsersOk, Stored, Keeps;
    var s' := Apply(s, Verify(call), u);
    SameTables(s, s');
    assert StageOk(s.calls[call], s.rows, s.registered);
    assert StageOk(s'.calls[call], s.rows, s.registered);
    hide Apply, Verified, StageOk;
    CallMoves(s, s', call, s'.calls[call]);
  }

  /** A pending rehash finds its user, and its hash is of the text that user registered. */
  lemma RehashFits(s: State, user: User, key: Draft, hash: Hash)
    requires UsersOk(s.rows, s.registered) && StageOk(Rehashing(user, key, hash), s.rows, s.registered)
    ensures HasId(s.rows, user.id)
    ensures forall x :: x in s.rows && x.id == user.id ==> x.hash.secret == hash.secret
  {
  }

  lemma RehashKeeps(s: State, call: nat, u: Unicode)
    requires Inv(s) && call in s.calls && s.calls[call].Rehashing?
    ensures Inv(Apply(s, StoreRehash(call), u)) && Keeps(s, Apply(s, StoreRehash(call), u))
  {
    hide UsersOk, Rewrite, HasId, Stored;
    var user, key, hash := s.calls[call].user, s.calls[call].key, s.calls[call].hash;
    var s' := Apply(s, StoreRehash(call), u);
    assert StageOk(s.calls[call], s.rows, s.registered);
    RehashFits(s, user, key, hash);
    RewriteKeeps(s.rows, user.id, WithHash(hash), s.registered);
    assert s' == To(s, call, LoggedIn(Some(key), Some(user), Ok(user.id))).(rows := Rewrite(s.rows, user.id, WithHash(hash)));
    hide Apply, UpdateTx, CallsOk, RegistrarsUnique;
    StageStays(s.calls[call], s, s');
    CallMoves(s, s', call, s'.calls[call]);
  }

  lemma RegisterKeeps(s: State, ev: Event, u: Unicode)
    requires Inv(s) && (ev.BeginRegister? || ev.MakeHash?) && Apply(s, ev, u) != s
    ensures Inv(Apply(s, ev, u)) && Keeps(s, Apply(s, ev, u))
  {
    hide UsersOk, NormalizeEmail, Keeps;
    var s' := Apply(s, ev, u);
    SameTables(s, s');
    if ev.BeginRegister? && Validate(s.rows, ev.email, ev.raw, u).Ok? {
      ValidatedDraft(s.rows, ev.email, ev.raw, u);
    } else if ev.MakeHash? {
      assert StageOk(s.calls[ev.call], s.rows, s.registered);
    }
    assert StageOk(s'.calls[ev.call], s.rows, s.registered);
    hide Apply, StageOk;
    CallMoves(s, s', ev.call, s'.calls[ev.call]);
  }

  lemma ActiveKeeps(s: State, id: nat, active: bool, u: Unicode)
    requires Inv(s)
    ensures Inv(Apply(s, SetActive(id, active), u)) && Keeps(s, Apply(s, SetActive(id, active), u))
  {
    hide UsersOk, CallsOk, RegistrarsUnique;
    RewriteKeeps(s.rows, id, WithActive(active), s.registered);
    TableMoves(s, Apply(s, SetActive(id, active), u));
  }

  lemma StepKeeps(s: State, ev: Event, u: Unicode)
    requires Inv(s)
    ensures Inv(Apply(s, ev, u)) && Keeps(s, Apply(s, ev, u))
  {
    hide Inv, Verified;
    if Apply(s, ev, u) == s {
      SameTables(s, s);
    } else {
      match ev {
        case SaveUser(call, id) => SaveKeeps(s, call, id, u);
        case BeginLogin(call, email, raw) => LoginStarts(s, call, email, raw, u);
        case Verify(call) => VerifyKeeps(s, call, u);
        case StoreRehash(call) => RehashKeeps(s, call, u);
        case SetActive(id, active) => ActiveKeeps(s, id, active, u);
        case Reconfigure(params) => ParamsKeep(s, params);
        case _ => RegisterKeeps(s, ev, u);
      }
    }
  }

  lemma ParamsKeep(s: State, params: nat)
    requires Inv(s)
    ensures Inv(s.(params := params)) && Keeps(s, s.(params := params))
  {
  }

  lemma LookupKeeps(s: State, email: string)
    requires Inv(s)
    ensures var found := FindByEmail(s.rows, NormalizeEmail(email));
            found.Some? ==> ReadOk(found.value, Draft(NormalizeEmail(email), found.value.hash.secret), s.rows, s.registered)
  {
    NormalizeIdempotent(email);
    FoundByEmail(s.rows, NormalizeEmail(email));
    var found := FindByEmail(s.rows, NormalizeEmail(email));
    if found.Some? {
      var i :| 0 <= i < |s.rows| && s.rows[i] == found.value;
      assert UserOk(s.rows[i], s.registered);
    }
  }

  lemma {:induction false} RunKeeps(s: State, events: seq<Event>, u: Unicode)
    requires Inv(s)
    ensures Inv(Exec(s, events, u)) && Keeps(s, Exec(s, events, u))
  {
    hide Inv;
    if events != [] {
      RunKeeps(s, events[..|events| - 1], u);
      StepKeeps(Exec(s, events[..|events| - 1], u), events[|events| - 1], u);
    }
  }

  lemma Reachable(params: nat, events: seq<Event>, u: Unicode)
    ensures Inv(Exec(Start(params), events, u))
  {
    hide Exec;
    RunKeeps(Start(params), events, u);
  }

  /** In every reachable state addresses and ids are unique, and each stored hash verifies
      exactly the text its user registered, through any rehash, activation and parameter
      change. */
  lemma HashesVerifyRegistration(params: nat, events: seq<Event>, u: Unicode)
    ensures var s := Exec(Start(params), events, u);
            && Distinct(s.rows)
            && forall i :: 0 <= i < |s.rows| ==>
                 && s.rows[i].id in s.registered
                 && forall candidate :: Verifies(candidate, s.rows[i].hash) <==> candidate == s.registered[s.rows[i].id]
  {
    hide Exec;
    Reachable(params, events, u);
    var s := Exec(Start(params), events, u);
    assert forall i :: 0 <= i < |s.rows| ==> UserOk(s.rows[i], s.registered);
  }

  lemma {:induction false} FindUnique(rows: seq<User>, i: nat, email: string)
    requires i < |rows| && Distinct(rows) && rows[i].email == NormalizeEmail(email)
    ensures FindByEmail(rows, email) == Some(rows[i])
  {
    if i > 0 {
      assert rows[0].email != rows[i].email;
      FindUnique(rows[1..], i - 1, email);
    }
  }

  /** Login, for every spelling of the address: it succeeds exactly when the user is active
      and the password, within the length limit as typed, normalizes to the registered text.
      The only other answer is the uniform refusal, and nothing but the stored hash of that
      user can change. */
  lemma LoginSucceedsIff(params: nat, events: seq<Event>, i: nat, email: string, raw: string, u: Unicode)
    requires var s := Exec(Start(params), events, u);
             i < |s.rows| && NormalizeEmail(email) == s.rows[i].email
    ensures var s := Exec(Start(params), events, u);
            var (rows, r) := Authenticate(s.rows, email, raw, s.params, u);
            && s.rows[i].id in s.registered
            && r == (if && s.rows[i].active && |raw| <= MAX_PASSWORD_LENGTH
                        && NormalizePassword(raw, u) == s.registered[s.rows[i].id]
                     then Ok(s.rows[i].id) else Err(InvalidCredentials))
            && rows == if r.Ok? then s.rows[i := s.rows[i].(hash := Hash(NormalizePassword(raw, u), s.params))]
                       else s.rows
  {
    hide Exec, Inv, Authenticate, FindByEmail, NormalizeEmail, NormalizePassword;
    Reachable(params, events, u);
    var s := Exec(Start(params), events, u);
    LoginInTable(s, i, email, raw, u);
  }

  lemma LoginInTable(s: State, i: nat, email: string, raw: string, u: Unicode)
    requires Inv(s) && i < |s.rows| && NormalizeEmail(email) == s.rows[i].email
    ensures var (rows, r) := Authenticate(s.rows, email, raw, s.params, u);
            && s.rows[i].id in s.registered
            && r == (if && s.rows[i].active && |raw| <= MAX_PASSWORD_LENGTH
                        && NormalizePassword(raw, u) == s.registered[s.rows[i].id]
                     then Ok(s.rows[i].id) else Err(InvalidCredentials))
            && rows == if r.Ok? then s.rows[i := s.rows[i].(hash := Hash(NormalizePassword(raw, u), s.params))]
                       else s.rows
  {
    var user := s.rows[i];
    assert UserOk(user, s.registered) && WithinLimits(s.registered[user.id]);
    NormalizeIdempotent(email);
    FindUnique(s.rows, i, NormalizeEmail(email));
    RewriteOne(s.rows, i, Hash(NormalizePassword(raw, u), s.params));
    hide NormalizeEmail, NormalizePassword, FindByEmail, Rewrite, UsersOk, CallsOk, HasId;
  }

  lemma RewriteOne(rows: seq<User>, i: nat, hash: Hash)
    requires i < |rows| && Distinct(rows)
    ensures UpdateTx(rows, rows[i].id, WithHash(hash)) == Ok(rows[i := rows[i].(hash := hash)])
    ensures rows[i].hash == hash ==> rows[i := rows[i].(hash := hash)] == rows
  {
    assert HasId(rows, rows[i].id);
    assert Rewrite(rows, rows[i].id, WithHash(hash)) == rows[i := rows[i].(hash := hash)];
  }

  /** No stored user, no login, and nothing changes. */
  lemma StrangersAreRefused(rows: seq<User>, email: string, raw: string, params: nat, u: Unicode)
    requires forall i :: 0 <= i < |rows| ==> rows[i].email != NormalizeEmail(email)
    ensures Authenticate(rows, email, raw, params, u) == (rows, Err(InvalidCredentials))
  {
    NormalizeIdempotent(email);
    FoundByEmail(rows, NormalizeEmail(email));
  }

  /** Register then log in: after any run, a registration that is saved, and any later run,
      every spelling of the same address and password logs in exactly while the user is active. */
  lemma RegisteredUserLogsIn(params: nat, before: seq<Event>, call: nat, id: nat, after: seq<Event>,
                             email: string, raw: string, u: Unicode)
    requires var s := Exec(Start(params), before, u);
             call in s.calls && s.calls[call].Hashed? && Apply(s, SaveUser(call, id), u).rows != s.rows
    requires var draft := Exec(Start(params), before, u).calls[call].draft;
             NormalizeEmail(email) == draft.email && |raw| <= MAX_PASSWORD_LENGTH && NormalizePassword(raw, u) == draft.secret
    ensures var k := |Exec(Start(params), before, u).rows|;
            var s := Exec(Apply(Exec(Start(params), before, u), SaveUser(call, id), u), after, u);
            && k < |s.rows| && s.rows[k].id == id && s.rows[k].email == NormalizeEmail(email)
            && Authenticate(s.rows, email, raw, s.params, u).1 == if s.rows[k].active then Ok(id) else Err(InvalidCredentials)
  {
    hide Exec, Inv, Authenticate, UpdateTx, FindByEmail;
    Reachable(params, before, u);
    var s0 := Exec(Start(params), before, u);
    StepKeeps(s0, SaveUser(call, id), u);
    var s1 := Apply(s0, SaveUser(call, id), u);
    SavedUser(s0, call, id, u);
    RunKeeps(s1, after, u);
    LoginInTable(Exec(s1, after, u), |s0.rows|, email, raw, u);
  }

  lemma SavedUser(s: State, call: nat, id: nat, u: Unicode)
    requires Inv(s) && call in s.calls && s.calls[call].Hashed? && Apply(s, SaveUser(call, id), u).rows != s.rows
    ensures var s' := Apply(s, SaveUser(call, id), u);
            && |s'.rows| == |s.rows| + 1 && s'.rows[|s.rows|].id == id && s'.rows[|s.rows|].email == s.calls[call].draft.email
            && id in s'.registered && s'.registered[id] == s.calls[call].draft.secret
  {
  }

  /** Every answer of every interleaving.  A login's is decided by the row it read, exactly as a
      login run alone would be, and a refusal is never anything but the uniform one, so a rehash
      never meets a missing user.  A registration reports the user then stored under its address
      with its text. */
  lemma InterleavedAnswers(params: nat, events: seq<Event>, call: nat, u: Unicode)
    ensures var s := Exec(Start(params), events, u);
            call in s.calls && s.calls[call].LoggedIn? ==>
              var c := s.calls[call];
              if c.typed.None? || c.read.None? then c.answer == Err(InvalidCredentials)
              else
                && c.read.value.email == c.typed.value.email && c.read.value.id in s.registered
                && c.answer == (if c.read.value.active && c.typed.value.secret == s.registered[c.read.value.id]
                                then Ok(c.read.value.id) else Err(InvalidCredentials))
    ensures var s := Exec(Start(params), events, u);
            call in s.calls && s.calls[call].Registered? && s.calls[call].saved.Ok? ==>
              var (input, id) := (s.calls[call].input, s.calls[call].saved.value);
              && input.Some? && id in s.registered && s.registered[id] == input.value.secret
              && Stored(s.rows, id, input.value.email)
  {
    hide Exec, UsersOk, RegistrarsUnique;
    Reachable(params, events, u);
    var s := Exec(Start(params), events, u);
    if call in s.calls {
      assert StageOk(s.calls[call], s.rows, s.registered);
    }
  }

  /** However many registrations of one address race, at most one succeeds. */
  lemma OneRegistrationPerAddress(params: nat, events: seq<Event>, a: nat, b: nat, u: Unicode)
    requires var s := Exec(Start(params), events, u);
             && a in s.calls && b in s.calls && s.calls[a].Registered? && s.calls[b].Registered?
             && s.calls[a].saved.Ok? && s.calls[b].saved.Ok? && s.calls[a].input.Some? && s.calls[b].input.Some?
             && s.calls[a].input.value.email == s.calls[b].input.value.email
    ensures a == b
  {
    hide Exec, NormalizeEmail;
    Reachable(params, events, u);
    var s := Exec(Start(params), events, u);
    assert StageOk(s.calls[a], s.rows, s.registered) && StageOk(s.calls[b], s.rows, s.registered);
    SameAddress(s.rows, s.calls[a].saved.value, s.calls[b].saved.value, s.calls[a].input.value.email);
    assert RegisteredAs(s.calls[a], s.calls[a].saved.value) && RegisteredAs(s.calls[b], s.calls[a].saved.value);
  }

  lemma SameAddress(rows: seq<User>, i: nat, j: nat, email: string)
    requires Distinct(rows) && Stored(rows, i, email) && Stored(rows, j, email)
    ensures i == j
  {
  }

  /** The steps are the methods cut at their awaits: run without interruption they do to the
      users what the whole call does, and end with its answer. */
  lemma SoloLogin(s: State, call: nat, email: string, raw: string, u: Unicode)
    requires call !in s.calls
    ensures var s' := Apply(Apply(Apply(s, BeginLogin(call, email, raw), u), Verify(call), u), StoreRehash(call), u);
            && call in s'.calls && s'.calls[call].LoggedIn?
            && (s'.rows, s'.calls[call].answer) == Authenticate(s.rows, email, raw, s.params, u)
            && s' == s.(rows := s'.rows, calls := s.calls[call := s'.calls[call]])
  {
    hide FindByEmail, LoginGates, UpdateTx, Verifies;
    var begun := Apply(s, BeginLogin(call, email, raw), u);
    if begun.calls[call].Read? {
      var user, key := begun.calls[call].user, begun.calls[call].key;
      var stage := Apply(begun, Verify(call), u).calls[call];
      var last := Apply(Apply(begun, Verify(call), u), StoreRehash(call), u).calls[call];
      assert s.calls[call := Read(user, key)][call := stage] == s.calls[call := stage];
      assert s.calls[call := stage][call := last] == s.calls[call := last];
    }
  }

  lemma SoloRegister(s: State, call: nat, id: nat, email: string, raw: string, u: Unicode)
    requires call !in s.calls
    ensures var s' := Apply(Apply(Apply(s, BeginRegister(call, email, raw), u), MakeHash(call), u), SaveUser(call, id), u);
            && call in s'.calls && s'.calls[call].Registered?
            && (s'.rows, s'.calls[call].saved) == RegisterTx(s.rows, email, raw, id, s.params, u)
            && s'.calls == s.calls[call := s'.calls[call]]
  {
    hide Validate, CreateTx;
    var begun := Apply(s, BeginRegister(call, email, raw), u);
    if begun.calls[call].Drafted? {
      var made := Apply(begun, MakeHash(call), u).calls[call];
      var last := Apply(Apply(begun, MakeHash(call), u), SaveUser(call, id), u).calls[call];
      assert s.calls[call := begun.calls[call]][call := made] == s.calls[call := made];
      assert s.calls[call := made][call := last] == s.calls[call := last];
    }
  }

  /** Registering with a fresh id from any reachable state: it succeeds exactly when the address
      and the password are good and no stored user has that address; it then adds one active
      user, whose hash verifies exactly the normalized password, and a taken address is refused
      as such. */
  lemma RegistrationAnswers(params: nat, events: seq<Event>, call: nat, id: nat, email: string, raw: string, u: Unicode)
    requires var s := Exec(Start(params), events, u); call !in s.calls && !HasId(s.rows, id)
    ensures var s := Exec(Start(params), events, u);
            var s' := Exec(Start(params), events + [BeginRegister(call, email, raw)] + [MakeHash(call)] + [SaveUser(call, id)], u);
            var (address, good) := (NormalizeEmail(email), GoodAddress(NormalizeEmail(email), u) && PasswordFault(raw, u).None?);
            && call in s'.calls && s'.calls[call].Registered?
            && (s'.calls[call].saved.Ok? <==> good && !AddressTaken(s.rows, address))
            && (good && AddressTaken(s.rows, address) ==> s'.calls[call].saved == Err(Failed(DuplicateUserEmail)))
            && (s'.calls[call].saved.Err? ==> s'.rows == s.rows)
            && (s'.calls[call].saved.Ok? ==>
                  && s'.calls[call].saved == Ok(id) && |s'.rows| == |s.rows| + 1 && s'.rows[..|s.rows|] == s.rows
                  && var user := s'.rows[|s.rows|];
                     && user.id == id && user.email == address && user.active
                     && forall candidate :: Verifies(candidate, user.hash) <==> candidate == NormalizePassword(raw, u))
  {
    var s := Exec(Start(params), events, u);
    ExecAppend(params, events, BeginRegister(call, email, raw), u);
    ExecAppend(params, events + [BeginRegister(call, email, raw)], MakeHash(call), u);
    ExecAppend(params, events + [BeginRegister(call, email, raw)] + [MakeHash(call)], SaveUser(call, id), u);
    SoloRegister(s, call, id, email, raw, u);
    RegisterMeans(s.rows, email, raw, id, s.params, u);
    hide Exec, Apply, GoodAddress, PasswordFault, AddressTaken, HasId, NormalizeEmail, NormalizePassword, RegisterTx;
  }

  lemma ExecAppend(params: nat, events: seq<Event>, ev: Event, u: Unicode)
    ensures Exec(Start(params), events + [ev], u) == Apply(Exec(Start(params), events, u), ev, u)
  {
    assert (events + [ev])[..|events|] == events;
  }
}
