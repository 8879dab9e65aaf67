/** The per-command composition root: lazily built repositories and services over one
    connection, and its close. */
module CliContext {
  import opened Outcomes

  datatype Kind = Accounts | Journals | Postings | TrialBalances

  /** A repository object: one the caller passed in, or one this context built on a
      connection; the serial tells apart objects built at different moments. */
  datatype Repo = Injected(tag: int) | Owned(kind: Kind, connection: nat, serial: nat)

  datatype AccountSvc = AccountSvc(repo: Repo, postings: Repo)
  datatype JournalSvc = JournalSvc(repo: Repo, accounts: AccountSvc)
  datatype PostingSvc = PostingSvc(repo: Repo, journals: JournalSvc)
  datatype TrialBalanceSvc = TrialBalanceSvc(repo: Repo)

  /** How an attempt to connect or disconnect can fail. */
  datatype Fault = StorageTimeout | StorageUnavailable | OtherFault

  /** The server's view: connections open, those a failed disconnect left behind, and how many
      were ever opened. */
  datatype Server = Server(open: set<nat>, leaked: set<nat>, issued: nat)

  datatype Context = Context(connection: Option<nat>, repos: map<Kind, Repo>,
                             accounts: Option<AccountSvc>, journals: Option<JournalSvc>,
                             postings: Option<PostingSvc>, trialBalances: Option<TrialBalanceSvc>, built: nat)

  datatype State = State(ctx: Context, server: Server)

  function Start(injected: map<Kind, Repo>): State {
    State(Context(None, injected, None, None, None, None, 0), Server({}, {}, 0))
  }

  function Connect(s: State, fault: Option<Fault>): (State, Result<nat, Fault>) {
    match s.ctx.connection
    case Some(c) => (s, Ok(c))
    case None =>
      if fault.Some? then (s, Err(fault.value))
      else
        (State(s.ctx.(connection := Some(s.server.issued)),
               s.server.(open := s.server.open + {s.server.issued}, issued := s.server.issued + 1)),
         Ok(s.server.issued))
  }

  function GetRepo(s: State, kind: Kind, fault: Option<Fault>): (State, Result<Repo, Fault>) {
    if kind in s.ctx.repos then (s, Ok(s.ctx.repos[kind]))
    else
      var (s1, c) := Connect(s, fault);
      if c.Err? then (s1, Err(c.error))
      else
        var repo := Owned(kind, c.value, s1.ctx.built);
        (s1.(ctx := s1.ctx.(repos := s1.ctx.repos[kind := repo], built := s1.ctx.built + 1)), Ok(repo))
  }

  function GetAccounts(s: State, fault: Option<Fault>): (State, Result<AccountSvc, Fault>) {
    if s.ctx.accounts.Some? then (s, Ok(s.ctx.accounts.value))
    else
      var (s1, postings) := GetRepo(s, Postings, fault);
      if postings.Err? then (s1, Err(postings.error))
      else
        var (s2, repo) := GetRepo(s1, Accounts, fault);
        if repo.Err? then (s2, Err(repo.error))
        else
          var svc := AccountSvc(repo.value, postings.value);
          (s2.(ctx := s2.ctx.(accounts := Some(svc))), Ok(svc))
  }

  function GetJournals(s: State, fault: Option<Fault>): (State, Result<JournalSvc, Fault>) {
    if s.ctx.journals.Some? then (s, Ok(s.ctx.journals.value))
    else
      var (s1, repo) := GetRepo(s, Journals, fault);
      if repo.Err? then (s1, Err(repo.error))
      else
        var (s2, accounts) := GetAccounts(s1, fault);
        if accounts.Err? then (s2, Err(accounts.error))
        else
          var svc := JournalSvc(repo.value, accounts.value);
          (s2.(ctx := s2.ctx.(journals := Some(svc))), Ok(svc))
  }

  function GetPostings(s: State, fault: Option<Fault>): (State, Result<PostingSvc, Fault>) {
    if s.ctx.postings.Some? then (s, Ok(s.ctx.postings.value))
    else
      var (s1, repo) := GetRepo(s, Postings, fault);
      if repo.Err? then (s1, Err(repo.error))
      else
        var (s2, journals) := GetJournals(s1, fault);
        if journals.Err? then (s2, Err(journals.error))
        else
          var svc := PostingSvc(repo.value, journals.value);
          (s2.(ctx := s2.ctx.(postings := Some(svc))), Ok(svc))
  }

  function GetTrialBalances(s: State, fault: Option<Fault>): (State, Result<TrialBalanceSvc, Fault>) {
    if s.ctx.trialBalances.Some? then (s, Ok(s.ctx.trialBalances.value))
    else
      var (s1, repo) := GetRepo(s, TrialBalances, fault);
      if repo.Err? then (s1, Err(repo.error))
      else (s1.(ctx := s1.ctx.(trialBalances := Some(TrialBalanceSvc(repo.value)))), Ok(TrialBalanceSvc(repo.value)))
  }

  function Kept(repos: map<Kind, Repo>, injected: set<Kind>): map<Kind, Repo> {
    map k | k in repos && k in injected :: repos[k]
  }

  /** Close: a failing disconnect leaves its connection behind and is raised, but the cached
      state is reset either way. */
  function Close(s: State, injected: set<Kind>, fault: Option<Fault>): (State, Option<Fault>) {
    var ctx := Context(None, Kept(s.ctx.repos, injected), None, None, None, None, s.ctx.built);
    match s.ctx.connection
    case None => (s.(ctx := ctx), None)
    case Some(c) =>
      if fault.Some? then (State(ctx, s.server.(leaked := s.server.leaked + {c})), fault)
      else (State(ctx, s.server.(open := s.server.open - {c})), None)
  }

  class PostgresServer {
    var open: set<nat>
    var leaked: set<nat>
    var issued: nat

    constructor ()
      ensures View() == Server({}, {}, 0)
    {
      open, leaked, issued := {}, {}, 0;
    }

    function View(): Server
      reads this
    {
      Server(open, leaked, issued)
    }

    method Open(fault: Option<Fault>) returns (r: Result<nat, Fault>)
      modifies this
      ensures if fault.Some? then View() == old(View()) && r == Err(fault.value)
              else View() == old(View()).(open := old(open) + {old(issued)}, issued := old(issued) + 1)
                   && r == Ok(old(issued))
    {
      if fault.Some? {
        return Err(fault.value);
      }
      open := open + {issued};
      r := Ok(issued);
      issued := issued + 1;
    }

    method Dispose(c: nat, fault: Option<Fault>) returns (r: Option<Fault>)
      modifies this
      ensures r == fault
      ensures View() == if fault.Some? then old(View()).(leaked := old(leaked) + {c})
                        else old(View()).(open := old(open) - {c})
    {
      if fault.Some? {
        leaked := leaked + {c};
      } else {
        open := open - {c};
      }
      r := fault;
    }
  }

  /** The context object.  The four repository fields are one table by kind. */
  class CliContext {
    const server: PostgresServer
    const injected: set<Kind>
    var connection: Option<nat>
    var repos: map<Kind, Repo>
    var accounts: Option<AccountSvc>
    var journals: Option<JournalSvc>
    var postings: Option<PostingSvc>
    var trialBalances: Option<TrialBalanceSvc>
    var built: nat

    constructor (server: PostgresServer, injected: map<Kind, Repo>)
      ensures this.server == server && this.injected == injected.Keys
      ensures View().ctx == Start(injected).ctx
    {
      this.server := server;
      this.injected := injected.Keys;
      connection, repos, built := None, injected, 0;
      accounts, journals, postings, trialBalances := None, None, None, None;
    }

    function View(): State
      reads this, server
    {
      State(Context(connection, repos, accounts, journals, postings, trialBalances, built), server.View())
    }

    method GetConnection(fault: Option<Fault>) returns (r: Result<nat, Fault>)
      modifies this, server
      ensures (View(), r) == Connect(old(View()), fault)
    {
      if connection.None? {
        var attempt := server.Open(fault);
        if attempt.Err? {
          return attempt;
        }
        connection := Some(attempt.value);
      }
      r := Ok(connection.value);
    }

    method GetRepository(kind: Kind, fault: Option<Fault>) returns (r: Result<Repo, Fault>)
      modifies this, server
      ensures (View(), r) == GetRepo(old(View()), kind, fault)
    {
      if kind !in repos {
        var c := GetConnection(fault);
        if c.Err? {
          return Err(c.error);
        }
        repos := repos[kind := Owned(kind, c.value, built)];
        built := built + 1;
      }
      r := Ok(repos[kind]);
    }

    method GetAccountService(fault: Option<Fault>) returns (r: Result<AccountSvc, Fault>)
      modifies this, server
      ensures (View(), r) == GetAccounts(old(View()), fault)
    {
      if accounts.None? {
        var history := GetRepository(Postings, fault);
        if history.Err? {
          return Err(history.error);
        }
        var repo := GetRepository(Accounts, fault);
        if repo.Err? {
          return Err(repo.error);
        }
        accounts := Some(AccountSvc(repo.value, history.value));
      }
      r := Ok(accounts.value);
    }

    method GetJournalService(fault: Option<Fault>) returns (r: Result<JournalSvc, Fault>)
      modifies this, server
      ensures (View(), r) == GetJournals(old(View()), fault)
    {
      if journals.None? {
        var repo := GetRepository(Journals, fault);
        if repo.Err? {
          return Err(repo.error);
        }
        var service := GetAccountService(fault);
        if service.Err? {
          return Err(service.error);
        }
        journals := Some(JournalSvc(repo.value, service.value));
      }
      r := Ok(journals.value);
    }

    method GetPostingService(fault: Option<Fault>) returns (r: Result<PostingSvc, Fault>)
      modifies this, server
      ensures (View(), r) == GetPostings(old(View()), fault)
    {
      if postings.None? {
        var repo := GetRepository(Postings, fault);
        if repo.Err? {
          return Err(repo.error);
        }
        var service := GetJournalService(fault);
        if service.Err? {
          return Err(service.error);
        }
        postings := Some(PostingSvc(repo.value, service.value));
      }
      r := Ok(postings.value);
    }

    method GetTrialBalanceService(fault: Option<Fault>) returns (r: Result<TrialBalanceSvc, Fault>)
      modifies this, server
      ensures (View(), r) == GetTrialBalances(old(View()), fault)
    {
      if trialBalances.None? {
        var repo := GetRepository(TrialBalances, fault);
        if repo.Err? {
          return Err(repo.error);
        }
        trialBalances := Some(TrialBalanceSvc(repo.value));
      }
      r := Ok(trialBalances.value);
    }

    method AClose(fault: Option<Fault>) returns (r: Option<Fault>)
      modifies this, server
      ensures (View(), r) == Close(old(View()), injected, fault)
    {
      r := None;
      if connection.Some? {
        r := server.Dispose(connection.value, fault);
      }
      connection := None;
      repos := Kept(repos, injected);
      accounts, journals, postings, trialBalances := None, None, None, None;
    }
  }

  datatype Call = Repository(kind: Kind) | AccountService | JournalService | PostingService | TrialBalanceService | Closing

  /** One call on the context, with the fault its connect or disconnect meets, if it makes one. */
  datatype Op = Op(call: Call, fault: Option<Fault>)

  function Do(s: State, op: Op, injected: set<Kind>): State {
    match op.call
    case Repository(kind) => GetRepo(s, kind, op.fault).0
    case AccountService => GetAccounts(s, op.fault).0
    case JournalService => GetJournals(s, op.fault).0
    case PostingService => GetPostings(s, op.fault).0
    case TrialBalanceService => GetTrialBalances(s, op.fault).0
    case Closing => Close(s, injected, op.fault).0
  }

  function Failure<T>(r: Result<T, Fault>): Option<Fault> {
    match r case Ok(_) => None case Err(fault) => Some(fault)
  }

  /** What the call raises, if it raises. */
  function Raised(s: State, op: Op, injected: set<Kind>): Option<Fault> {
    match op.call
    case Repository(kind) => Failure(GetRepo(s, kind, op.fault).1)
    case AccountService => Failure(GetAccounts(s, op.fault).1)
    case JournalService => Failure(GetJournals(s, op.fault).1)
    case PostingService => Failure(GetPostings(s, op.fault).1)
    case TrialBalanceService => Failure(GetTrialBalances(s, op.fault).1)
    case Closing => Close(s, injected, op.fault).1
  }

  predicate Raises(s: State, op: Op, injected: set<Kind>) { Raised(s, op, injected).Some? }

  function Run(injected: map<Kind, Repo>, ops: seq<Op>): State {
    if ops == [] then Start(injected) else Do(Run(injected, ops[..|ops| - 1]), ops[|ops| - 1], injected.Keys)
  }

  function Current(ctx: Context): set<nat> { if ctx.connection.Some? then {ctx.connection.value} else {} }

  /** Every connection the server holds is the context's own or was left by a failed disconnect. */
  ghost predicate ConnectionsOk(s: State) {
    && s.server.open == Current(s.ctx) + s.server.leaked
    && Current(s.ctx) !! s.server.leaked
    && (forall c :: c in s.server.open ==> c < s.server.issued)
  }

  /** Injected repositories are the ones passed in; every other one is built on the current
      connection. */
  ghost predicate ReposOk(ctx: Context, injected: map<Kind, Repo>) {
    && (forall k :: k in injected ==> k in ctx.repos && ctx.repos[k] == injected[k])
    && (forall k :: k in ctx.repos && k !in injected ==>
          ctx.repos[k].Owned? && ctx.repos[k].kind == k && ctx.connection == Some(ctx.repos[k].connection))
  }

  predicate Holds(ctx: Context, kind: Kind, repo: Repo) { kind in ctx.repos && ctx.repos[kind] == repo }

  /** Every cached service is built on the cached repositories and services. */
  ghost predicate ServicesOk(ctx: Context) {
    && (ctx.accounts.Some? ==>
          Holds(ctx, Accounts, ctx.accounts.value.repo) && Holds(ctx, Postings, ctx.accounts.value.postings))
    && (ctx.journals.Some? ==>
          Holds(ctx, Journals, ctx.journals.value.repo) && ctx.accounts == Some(ctx.journals.value.accounts))
    && (ctx.postings.Some? ==>
          Holds(ctx, Postings, ctx.postings.value.repo) && ctx.journals == Some(ctx.postings.value.journals))
    && (ctx.trialBalances.Some? ==> Holds(ctx, TrialBalances, ctx.trialBalances.value.repo))
  }

  ghost predicate Inv(s: State, injected: map<Kind, Repo>) {
    ConnectionsOk(s) && ReposOk(s.ctx, injected) && ServicesOk(s.ctx)
  }

  /** Nothing connected or cached is replaced; there may only be more of it. */
  ghost predicate Grows(s: State, t: State) {
    && (forall k :: k in s.ctx.repos ==> k in t.ctx.repos && t.ctx.repos[k] == s.ctx.repos[k])
    && (s.ctx.connection.Some? ==> t.ctx.connection == s.ctx.connection)
    && (s.ctx.accounts.Some? ==> t.ctx.accounts == s.ctx.accounts)
    && (s.ctx.journals.Some? ==> t.ctx.journals == s.ctx.journals)
    && (s.ctx.postings.Some? ==> t.ctx.postings == s.ctx.postings)
    && (s.ctx.trialBalances.Some? ==> t.ctx.trialBalances == s.ctx.trialBalances)
  }

  lemma ConnectKeeps(s: State, fault: Option<Fault>, injected: map<Kind, Repo>)
    requires Inv(s, injected)
    ensures var (t, r) := Connect(s, fault);
            && Inv(t, injected) && t.ctx == s.ctx.(connection := t.ctx.connection)
            && (s.ctx.connection.Some? ==> t.ctx.connection == s.ctx.connection)
            && (r.Ok? ==> t.ctx.connection == Some(r.value))
            && (r.Err? ==> t == s && s.ctx.connection.None? && fault.Some?)
  {
  }

  lemma BuildKeeps(s: State, s1: State, kind: Kind, c: nat, injected: map<Kind, Repo>)
    requires Inv(s1, injected) && kind !in s.ctx.repos
    requires s1.ctx == s.ctx.(connection := Some(c)) && (s.ctx.connection.Some? ==> s.ctx.connection == Some(c))
    ensures var repo := Owned(kind, c, s1.ctx.built);
            var t := s1.(ctx := s1.ctx.(repos := s1.ctx.repos[kind := repo], built := s1.ctx.built + 1));
            Inv(t, injected) && Grows(s, t) && Holds(t.ctx, kind, repo)
  {
  }

  lemma CachedRepo(s: State, kind: Kind, injected: map<Kind, Repo>)
    requires Inv(s, injected)
    ensures Grows(s, s) && (kind in injected ==> kind in s.ctx.repos)
    ensures kind in s.ctx.repos ==> Holds(s.ctx, kind, s.ctx.repos[kind])
  {
  }

  lemma RepoKeeps(s: State, kind: Kind, fault: Option<Fault>, injected: map<Kind, Repo>)
    requires Inv(s, injected)
    ensures var (t, r) := GetRepo(s, kind, fault);
            && Inv(t, injected) && Grows(s, t)
            && t.ctx.accounts == s.ctx.accounts && t.ctx.journals == s.ctx.journals
            && t.ctx.postings == s.ctx.postings && t.ctx.trialBalances == s.ctx.trialBalances
            && (t.ctx.connection.None? ==> t == s)
            && (r.Ok? ==> Holds(t.ctx, kind, r.value))
            && (r.Err? ==> t == s && s.ctx.connection.None? && fault.Some? && kind !in injected)
  {
    hide Connect, Inv, Grows, Holds;
    CachedRepo(s, kind, injected);
    ConnectKeeps(s, fault, injected);
    var (s1, c) := Connect(s, fault);
    if kind !in s.ctx.repos && c.Ok? {
      BuildKeeps(s, s1, kind, c.value, injected);
    }
  }

  lemma AccountsKeeps(s: State, fault: Option<Fault>, injected: map<Kind, Repo>)
    requires Inv(s, injected)
    ensures var (t, r) := GetAccounts(s, fault);
            && Inv(t, injected) && Grows(s, t)
            && t.ctx.journals == s.ctx.journals && t.ctx.postings == s.ctx.postings
            && (r.Ok? ==> t.ctx.accounts == Some(r.value))
            && (r.Err? ==> t == s && s.ctx.connection.None? && fault.Some?)
  {
    hide GetRepo, ConnectionsOk, ReposOk;
    if s.ctx.accounts.None? {
      RepoKeeps(s, Postings, fault, injected);
      RepoKeeps(GetRepo(s, Postings, fault).0, Accounts, fault, injected);
      if GetAccounts(s, fault).1.Ok? {
        CacheKeeps(GetRepo(GetRepo(s, Postings, fault).0, Accounts, fault).0, GetAccounts(s, fault).0, injected);
      }
    }
  }

  /** Caching a service touches neither connections nor repositories. */
  lemma CacheKeeps(s: State, t: State, injected: map<Kind, Repo>)
    requires t.server == s.server && t.ctx.connection == s.ctx.connection && t.ctx.repos == s.ctx.repos
    ensures ConnectionsOk(s) ==> ConnectionsOk(t)
    ensures ReposOk(s.ctx, injected) ==> ReposOk(t.ctx, injected)
  {
  }

  lemma JournalsKeeps(s: State, fault: Option<Fault>, injected: map<Kind, Repo>)
    requires Inv(s, injected)
    ensures var (t, r) := GetJournals(s, fault);
            && Inv(t, injected) && Grows(s, t)
            && t.ctx.postings == s.ctx.postings
            && (r.Ok? ==> t.ctx.journals == Some(r.value))
            && (r.Err? ==> t == s && s.ctx.connection.None? && fault.Some?)
  {
    hide GetRepo, GetAccounts, ConnectionsOk, ReposOk;
    if s.ctx.journals.None? {
      RepoKeeps(s, Journals, fault, injected);
      AccountsKeeps(GetRepo(s, Journals, fault).0, fault, injected);
      if GetJournals(s, fault).1.Ok? {
        CacheKeeps(GetAccounts(GetRepo(s, Journals, fault).0, fault).0, GetJournals(s, fault).0, injected);
      }
    }
  }

  lemma PostingsKeeps(s: State, fault: Option<Fault>, injected: map<Kind, Repo>)
    requires Inv(s, injected)
    ensures var (t, r) := GetPostings(s, fault);
            && Inv(t, injected) && Grows(s, t)
            && (r.Err? ==> t == s && s.ctx.connection.None? && fault.Some?)
  {
    hide GetRepo, GetJournals, ConnectionsOk, ReposOk;
    if s.ctx.postings.None? {
      RepoKeeps(s, Postings, fault, injected);
      JournalsKeeps(GetRepo(s, Postings, fault).0, fault, injected);
      if GetPostings(s, fault).1.Ok? {
        CacheKeeps(GetJournals(GetRepo(s, Postings, fault).0, fault).0, GetPostings(s, fault).0, injected);
      }
    }
  }

  lemma TrialBalancesKeeps(s: State, fault: Option<Fault>, injected: map<Kind, Repo>)
    requires Inv(s, injected)
    ensures var (t, r) := GetTrialBalances(s, fault);
            && Inv(t, injected) && Grows(s, t)
            && (r.Err? ==> t == s && s.ctx.connection.None? && fault.Some?)
  {
    hide GetRepo, ConnectionsOk, ReposOk;
    if s.ctx.trialBalances.None? {
      RepoKeeps(s, TrialBalances, fault, injected);
      if GetTrialBalances(s, fault).1.Ok? {
        CacheKeeps(GetRepo(s, TrialBalances, fault).0, GetTrialBalances(s, fault).0, injected);
      }
    }
  }

  lemma CloseKeeps(s: State, fault: Option<Fault>, injected: map<Kind, Repo>)
    requires Inv(s, injected)
    ensures var t := Close(s, injected.Keys, fault).0;
            && Inv(t, injected) && t.ctx == Start(injected).ctx.(built := s.ctx.built)
            && t.server.open == t.server.leaked
  {
  }

  lemma StepKeeps(s: State, op: Op, injected: map<Kind, Repo>)
    requires Inv(s, injected)
    ensures Inv(Do(s, op, injected.Keys), injected)
    ensures !op.call.Closing? ==> Grows(s, Do(s, op, injected.Keys))
    ensures !op.call.Closing? && Raises(s, op, injected.Keys) ==>
              Do(s, op, injected.Keys) == s && s.ctx.connection.None? && op.fault.Some?
  {
    hide Inv, Grows, GetRepo, GetAccounts, GetJournals, GetPostings, GetTrialBalances, Close;
    match op.call {
      case Repository(kind) => RepoKeeps(s, kind, op.fault, injected);
      case AccountService => AccountsKeeps(s, op.fault, injected);
      case JournalService => JournalsKeeps(s, op.fault, injected);
      case PostingService => PostingsKeeps(s, op.fault, injected);
      case TrialBalanceService => TrialBalancesKeeps(s, op.fault, injected);
      case Closing => CloseKeeps(s, op.fault, injected);
    }
  }

  lemma {:induction false} Reachable(injected: map<Kind, Repo>, ops: seq<Op>)
    ensures Inv(Run(injected, ops), injected)
  {
    hide Do;
    if ops != [] {
      hide Inv;
      Reachable(injected, ops[..|ops| - 1]);
      StepKeeps(Run(injected, ops[..|ops| - 1]), ops[|ops| - 1], injected);
    }
  }

  /** The lifecycle: over any calls, failed connects and closes, the connections open are the
      context's own, if any, and those a failed disconnect left, so at most one while every
      disconnect succeeds; injected repositories are never replaced, every other cached one is
      on the current connection, and every cached service is built on what is cached. */
  lemma Lifecycle(injected: map<Kind, Repo>, ops: seq<Op>)
    ensures var s := Run(injected, ops);
            && s.server.open == Current(s.ctx) + s.server.leaked
            && (s.server.leaked == {} ==> |s.server.open| <= 1)
            && ReposOk(s.ctx, injected) && ServicesOk(s.ctx)
  {
    hide Run, ReposOk, ServicesOk;
    Reachable(injected, ops);
  }

  /** A call that fails to connect changes nothing, so trying again is always a fresh start. */
  lemma FailedAccessChangesNothing(injected: map<Kind, Repo>, ops: seq<Op>, op: Op)
    requires !op.call.Closing? && Raises(Run(injected, ops), op, injected.Keys)
    ensures Run(injected, ops + [op]) == Run(injected, ops) && Run(injected, ops).ctx.connection.None?
  {
    hide Do, Raises, Inv;
    Reachable(injected, ops);
    StepKeeps(Run(injected, ops), op, injected);
    assert (ops + [op])[..|ops|] == ops;
  }

  /** Closing is idempotent and complete: it disconnects when connected and raises what that
      raises, nothing built by the context survives even then, and a second close neither
      disconnects nor raises. */
  lemma CloseIsComplete(injected: map<Kind, Repo>, ops: seq<Op>, fault: Option<Fault>, again: Option<Fault>)
    ensures var (s, t) := (Run(injected, ops), Close(Run(injected, ops), injected.Keys, fault).0);
            && Close(s, injected.Keys, fault).1 == (if s.ctx.connection.Some? then fault else None)
            && t.ctx == Start(injected).ctx.(built := t.ctx.built)
            && t.server.open == t.server.leaked
            && t.server.leaked == s.server.leaked + (if fault.Some? then Current(s.ctx) else {})
            && Close(t, injected.Keys, again) == (t, None)
  {
    hide Run;
    Reachable(injected, ops);
    CloseKeeps(Run(injected, ops), fault, injected);
    assert Kept(injected, injected.Keys) == injected;
  }

  /** What a call on the context hands out. */
  datatype Handle =
    | RepoHandle(repo: Repo)
    | AccountHandle(accounts: AccountSvc)
    | JournalHandle(journals: JournalSvc)
    | PostingHandle(postings: PostingSvc)
    | TrialBalanceHandle(trialBalances: TrialBalanceSvc)

  function Handed<T>(r: Result<T, Fault>, handle: T -> Handle): Option<Handle> {
    match r case Ok(x) => Some(handle(x)) case Err(_) => None
  }

  /** The object a call returns, if it returns one. */
  function Returned(s: State, op: Op): Option<Handle> {
    match op.call
    case Repository(kind) => Handed(GetRepo(s, kind, op.fault).1, x => RepoHandle(x))
    case AccountService => Handed(GetAccounts(s, op.fault).1, x => AccountHandle(x))
    case JournalService => Handed(GetJournals(s, op.fault).1, x => JournalHandle(x))
    case PostingService => Handed(GetPostings(s, op.fault).1, x => PostingHandle(x))
    case TrialBalanceService => Handed(GetTrialBalances(s, op.fault).1, x => TrialBalanceHandle(x))
    case Closing => None
  }

  function Cached(ctx: Context, call: Call): Option<Handle> {
    match call
    case Repository(kind) => if kind in ctx.repos then Some(RepoHandle(ctx.repos[kind])) else None
    case AccountService => if ctx.accounts.Some? then Some(AccountHandle(ctx.accounts.value)) else None
    case JournalService => if ctx.journals.Some? then Some(JournalHandle(ctx.journals.value)) else None
    case PostingService => if ctx.postings.Some? then Some(PostingHandle(ctx.postings.value)) else None
    case TrialBalanceService =>
      if ctx.trialBalances.Some? then Some(TrialBalanceHandle(ctx.trialBalances.value)) else None
    case Closing => None
  }

  /** A call caches what it returns, and returns what is cached. */
  lemma ReturnedIsCached(s: State, op: Op, injected: map<Kind, Repo>)
    requires Inv(s, injected)
    ensures Returned(s, op).Some? ==> Cached(Do(s, op, injected.Keys).ctx, op.call) == Returned(s, op)
    ensures Cached(s.ctx, op.call).Some? ==> Returned(s, op) == Cached(s.ctx, op.call)
  {
    hide Inv, Connect;
    match op.call {
      case Repository(kind) => RepoKeeps(s, kind, op.fault, injected);
      case _ =>
    }
  }

  lemma GrowingKeepsCached(s: State, t: State, call: Call)
    requires Grows(s, t) && Cached(s.ctx, call).Some?
    ensures Cached(t.ctx, call) == Cached(s.ctx, call)
  {
  }

  lemma {:induction false} CachedStays(injected: map<Kind, Repo>, ops: seq<Op>, later: seq<Op>, call: Call)
    requires Cached(Run(injected, ops).ctx, call).Some?
    requires forall op :: op in later ==> !op.call.Closing?
    ensures Cached(Run(injected, ops + later).ctx, call) == Cached(Run(injected, ops).ctx, call)
  {
    hide Do, Grows, Inv, Cached;
    if later == [] {
      assert ops + later == ops;
    } else {
      var before, op := later[..|later| - 1], later[|later| - 1];
      CachedStays(injected, ops, before, call);
      assert (ops + later)[..|ops + later| - 1] == ops + before;
      var s := Run(injected, ops + before);
      Reachable(injected, ops + before);
      StepKeeps(s, op, injected);
      GrowingKeepsCached(s, Do(s, op, injected.Keys), call);
    }
  }

  /** Until the next close, whatever other calls succeed or fail in between, asking again
      returns the very object returned before, connected or not. */
  lemma SameObjectUntilClosed(injected: map<Kind, Repo>, ops: seq<Op>, op: Op, later: seq<Op>, fault: Option<Fault>)
    requires Returned(Run(injected, ops), op).Some?
    requires forall x :: x in later ==> !x.call.Closing?
    ensures Returned(Run(injected, ops + [op] + later), Op(op.call, fault)) == Returned(Run(injected, ops), op)
  {
    hide Do, Inv, Returned, Cached;
    Reachable(injected, ops);
    ReturnedIsCached(Run(injected, ops), op, injected);
    assert (ops + [op])[..|ops|] == ops;
    CachedStays(injected, ops + [op], later, op.call);
    Reachable(injected, ops + [op] + later);
    ReturnedIsCached(Run(injected, ops + [op] + later), Op(op.call, fault), injected);
  }

  lemma AllInjected(s: State, op: Op, injected: map<Kind, Repo>)
    requires ReposOk(s.ctx, injected) && s.ctx.connection.None? && forall k: Kind :: k in injected
    ensures var t := Do(s, op, injected.Keys);
            t.server == s.server && t.ctx.connection.None? && !Raises(s, op, injected.Keys)
  {
  }

  /** A context whose repositories were all passed in never connects and never raises. */
  lemma {:induction false} InjectedNeverConnects(injected: map<Kind, Repo>, ops: seq<Op>)
    requires forall k: Kind :: k in injected
    ensures Run(injected, ops).server == Server({}, {}, 0)
    ensures Run(injected, ops).ctx.connection.None?
    ensures ops != [] ==> !Raises(Run(injected, ops[..|ops| - 1]), ops[|ops| - 1], injected.Keys)
  {
    hide Do, Raises;
    if ops != [] {
      InjectedNeverConnects(injected, ops[..|ops| - 1]);
      Reachable(injected, ops[..|ops| - 1]);
      AllInjected(Run(injected, ops[..|ops| - 1]), ops[|ops| - 1], injected);
    }
  }

  /** The repositories a call is built on. */
  function Needs(call: Call): set<Kind> {
    match call
    case Repository(kind) => {kind}
    case AccountService => {Accounts, Postings}
    case JournalService | PostingService => {Accounts, Journals, Postings}
    case TrialBalanceService => {TrialBalances}
    case Closing => {}
  }

  /** What getting some repositories does: it connects when one of them is missing and there is
      no connection yet, fails exactly when that fails, and leaves them all cached. */
  ghost predicate Gets(s: State, t: State, kinds: set<Kind>, fault: Option<Fault>, raised: Option<Fault>) {
    var connects := s.ctx.connection.None? && !(kinds <= s.ctx.repos.Keys);
    && raised == (if connects then fault else None)
    && (raised.None? ==>
          && t.ctx.repos.Keys == s.ctx.repos.Keys + kinds
          && (t.ctx.connection.Some? <==> s.ctx.connection.Some? || connects)
          && t.server.leaked == s.server.leaked
          && t.server.issued == s.server.issued + if connects then 1 else 0)
  }

  lemma RepoGets(s: State, kind: Kind, fault: Option<Fault>)
    ensures var (t, r) := GetRepo(s, kind, fault);
            Gets(s, t, {kind}, fault, Failure(r))
  {
  }

  lemma GetsBoth(s: State, s1: State, t: State, some: set<Kind>, more: set<Kind>, fault: Option<Fault>, raised: Option<Fault>)
    requires Gets(s, s1, some, fault, None) && Gets(s1, t, more, fault, raised)
    ensures Gets(s, t, some + more, fault, raised)
  {
  }

  /** A cached service needs nothing more. */
  lemma CachedGets(s: State, kinds: set<Kind>, fault: Option<Fault>)
    requires kinds <= s.ctx.repos.Keys
    ensures Gets(s, s, kinds, fault, None)
  {
    assert s.ctx.repos.Keys + kinds == s.ctx.repos.Keys;
  }

  lemma FailsEarly(s: State, t: State, u: State, some: set<Kind>, more: set<Kind>, fault: Option<Fault>, raised: Option<Fault>)
    requires Gets(s, t, some, fault, raised) && raised.Some?
    ensures Gets(s, u, some + more, fault, raised)
  {
  }

  lemma AccountsGets(s: State, fault: Option<Fault>, injected: map<Kind, Repo>)
    requires Inv(s, injected)
    ensures var (t, r) := GetAccounts(s, fault);
            Gets(s, t, {Accounts, Postings}, fault, Failure(r))
  {
    hide GetRepo, Gets, ConnectionsOk, ReposOk;
    if s.ctx.accounts.Some? {
      CachedGets(s, {Accounts, Postings}, fault);
    } else {
      var (s1, first) := GetRepo(s, Postings, fault);
      RepoGets(s, Postings, fault);
      assert {Postings} + {Accounts} == {Accounts, Postings};
      if first.Err? {
        FailsEarly(s, s1, s1, {Postings}, {Accounts}, fault, Failure(first));
      } else {
        var (s2, second) := GetRepo(s1, Accounts, fault);
        RepoGets(s1, Accounts, fault);
        GetsBoth(s, s1, s2, {Postings}, {Accounts}, fault, Failure(second));
        GetsCached(s, s2, GetAccounts(s, fault).0, {Accounts, Postings}, fault, Failure(second));
      }
    }
  }

  /** Caching a service changes nothing of that. */
  lemma GetsCached(s: State, t: State, u: State, kinds: set<Kind>, fault: Option<Fault>, raised: Option<Fault>)
    requires Gets(s, t, kinds, fault, raised)
    requires u.server == t.server && u.ctx.connection == t.ctx.connection && u.ctx.repos == t.ctx.repos
    ensures Gets(s, u, kinds, fault, raised)
  {
  }

  lemma JournalsGets(s: State, fault: Option<Fault>, injected: map<Kind, Repo>)
    requires Inv(s, injected)
    ensures var (t, r) := GetJournals(s, fault);
            Gets(s, t, {Accounts, Journals, Postings}, fault, Failure(r))
  {
    hide GetRepo, GetAccounts, Gets, ConnectionsOk, ReposOk;
    if s.ctx.journals.Some? {
      CachedGets(s, {Accounts, Journals, Postings}, fault);
    } else {
      var (s1, first) := GetRepo(s, Journals, fault);
      RepoGets(s, Journals, fault);
      assert {Journals} + {Accounts, Postings} == {Accounts, Journals, Postings};
      if first.Err? {
        FailsEarly(s, s1, s1, {Journals}, {Accounts, Postings}, fault, Failure(first));
      } else {
        RepoKeeps(s, Journals, fault, injected);
        var (s2, second) := GetAccounts(s1, fault);
        AccountsGets(s1, fault, injected);
        GetsBoth(s, s1, s2, {Journals}, {Accounts, Postings}, fault, Failure(second));
        GetsCached(s, s2, GetJournals(s, fault).0, {Accounts, Journals, Postings}, fault, Failure(second));
      }
    }
  }

  lemma PostingsGets(s: State, fault: Option<Fault>, injected: map<Kind, Repo>)
    requires Inv(s, injected)
    ensures var (t, r) := GetPostings(s, fault);
            Gets(s, t, {Accounts, Journals, Postings}, fault, Failure(r))
  {
    hide GetRepo, GetJournals, Gets, ConnectionsOk, ReposOk;
    if s.ctx.postings.Some? {
      CachedGets(s, {Accounts, Journals, Postings}, fault);
    } else {
      var (s1, first) := GetRepo(s, Postings, fault);
      RepoGets(s, Postings, fault);
      assert {Postings} + {Accounts, Journals, Postings} == {Accounts, Journals, Postings};
      if first.Err? {
        FailsEarly(s, s1, s1, {Postings}, {Accounts, Journals, Postings}, fault, Failure(first));
      } else {
        RepoKeeps(s, Postings, fault, injected);
        var (s2, second) := GetJournals(s1, fault);
        JournalsGets(s1, fault, injected);
        GetsBoth(s, s1, s2, {Postings}, {Accounts, Journals, Postings}, fault, Failure(second));
        GetsCached(s, s2, GetPostings(s, fault).0, {Accounts, Journals, Postings}, fault, Failure(second));
      }
    }
  }

  lemma TrialBalancesGets(s: State, fault: Option<Fault>, injected: map<Kind, Repo>)
    requires Inv(s, injected)
    ensures var (t, r) := GetTrialBalances(s, fault);
            Gets(s, t, {TrialBalances}, fault, Failure(r))
  {
    hide GetRepo, Gets, ConnectionsOk, ReposOk;
    if s.ctx.trialBalances.Some? {
      CachedGets(s, {TrialBalances}, fault);
    } else {
      RepoGets(s, TrialBalances, fault);
      var (s1, first) := GetRepo(s, TrialBalances, fault);
      GetsCached(s, s1, GetTrialBalances(s, fault).0, {TrialBalances}, fault, Failure(first));
    }
  }

  /** What every access does, after any calls: it connects exactly when a repository it is built
      on is missing and nothing is connected, raises exactly what that connecting raises, and
      otherwise hands out its object, with one connection more at most and every repository it
      needs cached. */
  lemma AccessAnswers(injected: map<Kind, Repo>, ops: seq<Op>, op: Op)
    requires !op.call.Closing?
    ensures var (s, t) := (Run(injected, ops), Run(injected, ops + [op]));
            && Gets(s, t, Needs(op.call), op.fault, Raised(s, op, injected.Keys))
            && (Raised(s, op, injected.Keys).None? <==> Returned(s, op).Some?)
  {
    hide Gets, GetRepo, GetAccounts, GetJournals, GetPostings, GetTrialBalances, Inv;
    Reachable(injected, ops);
    assert (ops + [op])[..|ops|] == ops;
    var s := Run(injected, ops);
    match op.call {
      case Repository(kind) => RepoGets(s, kind, op.fault);
      case AccountService => AccountsGets(s, op.fault, injected);
      case JournalService => JournalsGets(s, op.fault, injected);
      case PostingService => PostingsGets(s, op.fault, injected);
      case TrialBalanceService => TrialBalancesGets(s, op.fault, injected);
    }
  }
}
