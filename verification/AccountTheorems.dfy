/** What holds of the chart and its audit log in every reachable state, and exactly when each
    account write goes through. */
module AccountTheorems {
  import opened Outcomes
  import opened Text
  import opened Accounts
  import opened Seqs
  import opened Tables
  import opened AccountStore
  import AccountService
  import JournalService
  import opened PostingStore
  import opened LedgerMachine
  import opened LedgerInvariant
  import opened LedgerTheorems

  /** Under any races, codes and lookup keys stay unique and every key is that of its name; so
      the chart can be built exactly when every stored name has two characters, and then
      resolves exactly the names whose key is in the table. */
  lemma ChartConsistent(start: int, events: seq<Event>)
    ensures var t := Exec(Start(start), events).t;
            && (forall i, j :: 0 <= i < j < |t.accounts| ==>
                  t.accounts[i].code != t.accounts[j].code && t.accounts[i].nameKey != t.accounts[j].nameKey)
            && (forall i :: 0 <= i < |t.accounts| ==> t.accounts[i].nameKey == Fold(t.accounts[i].name))
            && JournalService.GetChart(t) == ListAll(t)
            && (ListAll(t).Ok? <==> forall r :: r in t.accounts ==> |r.name| >= 2)
            && (ListAll(t).Ok? ==>
                  forall name :: FindByName(ListAll(t).value, name).Some? <==> Fold(name) in Keys(t.accounts))
  {
    Reachable(start, events);
    hide Exec;
    ChartOfTable(Exec(Start(start), events).t);
  }

  lemma ChartOfTable(t: Tables)
    requires AccountsOk(t.accounts)
    ensures forall i :: 0 <= i < |t.accounts| ==> t.accounts[i].nameKey == Fold(t.accounts[i].name)
    ensures ListAll(t).Ok? <==> forall r :: r in t.accounts ==> |r.name| >= 2
    ensures JournalService.GetChart(t) == ListAll(t)
    ensures ListAll(t).Ok? ==>
              forall name :: FindByName(ListAll(t).value, name).Some? <==> Fold(name) in Keys(t.accounts)
  {
    assert forall i :: 0 <= i < |t.accounts| ==> GoodRow(t.accounts[i]);
    AccountListReadableIff(t);
    if ListAll(t).Ok? {
      ChartAlwaysBuilds(t);
      forall name
        ensures FindByName(ListAll(t).value, name).Some? <==> Fold(name) in Keys(t.accounts)
      {
        ChartResolves(t, name);
      }
    }
  }

  lemma ChartResolves(t: Tables, name: string)
    requires AccountsOk(t.accounts) && ListAll(t).Ok?
    ensures FindByName(ListAll(t).value, name).Some? <==> Fold(name) in Keys(t.accounts)
  {
  }

  /** Each code's recorded actions are create, update*, delete cycles, the last one open
      exactly while the account exists; replaying the log gives the codes of the table. */
  lemma AuditReplays(start: int, events: seq<Event>)
    ensures var t := Exec(Start(start), events).t;
            && Replay(t.audit) == Codes(t.accounts)
            && forall code :: Cycles(ActionsOf(t.audit, code))
                           && (code in Codes(t.accounts) <==> IsOpen(ActionsOf(t.audit, code)))
  {
    Reachable(start, events);
  }

  lemma StoredKey(t: Tables, name: string)
    requires AccountsOk(t.accounts) && Fold(name) in Keys(t.accounts)
    ensures Strip(name) == name
  {
  }

  /** Run alone, a create succeeds exactly when the actor is not blank, the code and the
      trimmed name's key are free and the account validates.  Looking the raw name up first
      refuses no name the unique key would take, though it misses padded duplicates. */
  lemma CreateAccountSucceedsIff(start: int, events: seq<Event>, code: string, name: string, category: Category, actor: string)
    ensures var s := Exec(Start(start), events);
            var (t', c) := AccountService.Run(s.t, AccountService.CreateAsked(code, name, category, actor), s.now);
            var built := BuildAccount(code, name, category);
            && c.AccountDone?
            && (c.result.Ok? <==>
                  NonBlank(actor) && built.Some? && code !in Codes(s.t.accounts)
                  && Fold(Strip(name)) !in Keys(s.t.accounts))
            && (c.result.Ok? ==>
                  t' == s.t.(accounts := s.t.accounts + [RowOf(built.value)],
                             audit := s.t.audit + [AuditRow(code, Create, actor)]))
            && (c.result.Err? ==> t' == s.t)
  {
    Reachable(start, events);
    var s := Exec(Start(start), events);
    hide AccountService.Run, AccountService.Step, Exec, BuildAccount, Keys, AccountsOk;
    CreateAccountAlone(s.t, code, name, category, actor, s.now);
  }

  lemma CreateAccountAlone(t: Tables, code: string, name: string, category: Category, actor: string, now: int)
    requires AccountsOk(t.accounts)
    ensures var (t', c) := AccountService.Run(t, AccountService.CreateAsked(code, name, category, actor), now);
            var built := BuildAccount(code, name, category);
            && c.AccountDone?
            && (c.result.Ok? <==>
                  NonBlank(actor) && built.Some? && code !in Codes(t.accounts)
                  && Fold(Strip(name)) !in Keys(t.accounts))
            && (c.result.Ok? ==>
                  t' == t.(accounts := t.accounts + [RowOf(built.value)],
                           audit := t.audit + [AuditRow(code, Create, actor)]))
            && (c.result.Err? ==> t' == t)
  {
    if ExistsByName(t, name) {
      StoredKey(t, name);
    }
    var asked := AccountService.CreateAsked(code, name, category, actor);
    var built := BuildAccount(code, name, category);
    if NonBlank(actor) && !ExistsByCode(t, code) {
      var free := AccountService.CreateCodeFree(code, name, category, actor);
      assert AccountService.Run(t, asked, now) == AccountService.Run(t, free, now);
      if !ExistsByName(t, name) && built.Some? {
        var checked := AccountService.CreateChecked(built.value, actor);
        assert AccountService.Run(t, free, now) == AccountService.Run(t, checked, now);
        assert AccountService.Run(t, checked, now) == AccountService.Step(t, checked, now);
      }
    }
  }

  /** What an update asks for. */
  datatype Change = Change(code: string, name: Option<string>, category: Option<Category>)

  lemma UpdateStart(t: Tables, ch: Change, actor: string, now: int)
    requires AccountsOk(t.accounts)
    ensures var n := IndexOf(t.accounts, ch.code);
            AccountService.Run(t, AccountService.UpdateAsked(ch.code, ch.name, ch.category, actor), now)
            == if !NonBlank(actor) then (t, AccountService.Failed(RequiredField))
               else if n == |t.accounts| then (t, AccountService.Failed(UnknownAccount))
               else if |t.accounts[n].name| < 2 then (t, AccountService.Failed(UncaughtValidation))
               else
                 var row := t.accounts[n];
                 AccountService.Run(t, AccountService.UpdateLoaded(Account(row.code, row.name, row.category), ch.name, ch.category, actor), now)
  {
  }

  lemma UpdateFinish(t: Tables, existing: Account, newName: Option<string>, newCategory: Option<Category>, actor: string, now: int)
    ensures var name := AccountService.OrElse(newName, existing.name);
            var built := BuildAccount(existing.code, name, AccountService.OrElse(newCategory, existing.category));
            AccountService.Run(t, AccountService.UpdateLoaded(existing, newName, newCategory, actor), now)
            == if name != existing.name && ExistsByName(t, name) then (t, AccountService.Failed(DuplicateAccountName))
               else if built.None? then (t, AccountService.Failed(ValidationError))
               else (UpdateTx(t, built.value, actor).0, AccountService.AccountDone(UpdateTx(t, built.value, actor).1))
  {
  }

  /** Run alone, an update succeeds exactly when the actor is not blank, the account is there
      and readable, the merged values validate, a changed name is unknown to the lookup, and no
      other account has the trimmed name's key. */
  lemma UpdateAccountSucceedsIff(start: int, events: seq<Event>, ch: Change, actor: string)
    ensures var s := Exec(Start(start), events);
            var (t', c) := AccountService.Run(s.t, AccountService.UpdateAsked(ch.code, ch.name, ch.category, actor), s.now);
            var n := IndexOf(s.t.accounts, ch.code);
            && c.AccountDone?
            && (c.result.Ok? <==> NonBlank(actor) && n < |s.t.accounts| && UpdateAllowed(s.t, n, ch))
            && (c.result.Ok? ==>
                  t' == s.t.(accounts := s.t.accounts[n := RowOf(Merged(s.t.accounts[n], ch).value)],
                             audit := s.t.audit + [AuditRow(ch.code, Update, actor)]))
            && (c.result.Err? ==> t' == s.t)
  {
    Reachable(start, events);
    var s := Exec(Start(start), events);
    hide AccountService.Run, AccountService.Step, Exec, BuildAccount, Keys, AccountsOk;
    UpdateAccountAlone(s.t, ch, actor, s.now);
  }

  function Merged(row: AccountRow, ch: Change): Option<Account> {
    BuildAccount(row.code, AccountService.OrElse(ch.name, row.name), AccountService.OrElse(ch.category, row.category))
  }

  predicate UpdateAllowed(t: Tables, n: nat, ch: Change)
    requires n < |t.accounts|
  {
    var row := t.accounts[n];
    var name := AccountService.OrElse(ch.name, row.name);
    && |row.name| >= 2 && Merged(row, ch).Some?
    && (name == row.name || Fold(name) !in Keys(t.accounts))
    && !KeyTaken(t.accounts, n, Fold(Strip(name)))
  }

  lemma UpdateAccountAlone(t: Tables, ch: Change, actor: string, now: int)
    requires AccountsOk(t.accounts)
    ensures var (t', c) := AccountService.Run(t, AccountService.UpdateAsked(ch.code, ch.name, ch.category, actor), now);
            var n := IndexOf(t.accounts, ch.code);
            && c.AccountDone?
            && (c.result.Ok? <==> NonBlank(actor) && n < |t.accounts| && UpdateAllowed(t, n, ch))
            && (c.result.Ok? ==>
                  t' == t.(accounts := t.accounts[n := RowOf(Merged(t.accounts[n], ch).value)],
                           audit := t.audit + [AuditRow(ch.code, Update, actor)]))
            && (c.result.Err? ==> t' == t)
  {
    var n := IndexOf(t.accounts, ch.code);
    UpdateStart(t, ch, actor, now);
    hide AccountService.Run, AccountService.Step, AccountsOk, KeyTaken, Keys;
    if n < |t.accounts| {
      var row := t.accounts[n];
      UpdateFinish(t, Account(row.code, row.name, row.category), ch.name, ch.category, actor, now);
      BuiltName(row.code, AccountService.OrElse(ch.name, row.name), AccountService.OrElse(ch.category, row.category));
    }
  }

  lemma BuiltName(code: string, name: string, category: Category)
    ensures var built := BuildAccount(code, name, category);
            built.Some? ==> built.value.code == code && built.value.name == Strip(name)
  {
  }

  /** A rename is checked twice, by looking up the new name as given and by the unique key of
      the trimmed name.  The two agree exactly when the rename changes more than letter case
      and is not a padded form of another account's name: a case-only rename is refused by the
      lookup alone, a padded duplicate by the key alone. */
  lemma RenameChecksAgreeIff(t: Tables, n: nat, newName: string)
    requires AccountsOk(t.accounts) && n < |t.accounts| && newName != t.accounts[n].name
    ensures (ExistsByName(t, newName) <==> KeyTaken(t.accounts, n, Fold(Strip(newName))))
       <==> && Fold(newName) != t.accounts[n].nameKey
            && (Strip(newName) == newName || !KeyTaken(t.accounts, n, Fold(Strip(newName))))
  {
    hide Keys, KeyTaken, GoodRow;
    KeyInTable(t.accounts, n, Fold(newName));
    if ExistsByName(t, newName) {
      StoredKey(t, newName);
    }
  }

  lemma KeyInTable(rows: seq<AccountRow>, n: nat, key: string)
    requires AccountsOk(rows) && n < |rows|
    ensures key in Keys(rows) <==> key == rows[n].nameKey || KeyTaken(rows, n, key)
    ensures !KeyTaken(rows, n, rows[n].nameKey)
  {
  }

  lemma AccountPostingsReadable(t: Tables, name: string, now: int)
    requires TablesOk(t, now)
    ensures GetByAccount(t, name, now) == Ok(PlainRows(AccountRows(t, name)))
    ensures AccountRows(t, name) == [] <==> forall r :: r in t.postings ==> r.accountKey != Fold(name)
  {
    var mine := Filter(t.postings, OfKey(Fold(name)));
    var rows := AccountRows(t, name);
    SortedMembers(mine, DateLe);
    forall i | 0 <= i < |rows|
      ensures GoodPosting(rows[i], now)
    {
      assert rows[i] in rows && rows[i] in t.postings;
      PostingIsGood(t, rows[i], now);
    }
    GoodPostingsDecode(rows, now);
    if mine == [] {
      forall r | r in t.postings
        ensures r.accountKey != Fold(name)
      {
        assert r.accountKey == Fold(name) ==> r in mine;
      }
    } else {
      assert mine[0] in mine;
    }
  }

  lemma PostingIsGood(t: Tables, r: PostingRow, now: int)
    requires TablesOk(t, now) && r in t.postings
    ensures GoodPosting(r, now)
  {
    assert PostedOnce(t, r.number);
    var posted := Posted(t, r.number);
    assert r in posted;
    var i :| 0 <= i < |posted| && posted[i] == r;
    HeaderFacts(t, r.number, now);
    BatchIsGood(JournalStore.FindEntry(t.entries, r.number).value, JournalStore.LinesOf(t, r.number),
                posted[0].createdBy, now);
  }

  /** Run alone, a guarded delete succeeds exactly when the actor is not blank, the account is
      there and readable, and no posting carries the key of its current name; history posted
      under an earlier name does not count. */
  lemma DeleteAccountSucceedsIff(start: int, events: seq<Event>, code: string, guarded: bool, actor: string)
    ensures var s := Exec(Start(start), events);
            var (t', c) := AccountService.Run(s.t, AccountService.DeleteAsked(code, guarded, actor), s.now);
            var n := IndexOf(s.t.accounts, code);
            && c.AccountDone?
            && (c.result.Ok? <==>
                  && NonBlank(actor) && n < |s.t.accounts| && |s.t.accounts[n].name| >= 2
                  && (guarded ==> forall r :: r in s.t.postings ==> r.accountKey != s.t.accounts[n].nameKey))
            && (c.result.Ok? ==>
                  && code !in Codes(t'.accounts)
                  && t' == s.t.(accounts := s.t.accounts[..n] + s.t.accounts[n + 1..],
                                audit := s.t.audit + [AuditRow(code, Delete, actor)]))
            && (c.result.Err? ==> t' == s.t)
  {
    Reachable(start, events);
    var s := Exec(Start(start), events);
    hide AccountService.Run, AccountService.Step, Exec, BuildAccount, Keys, AccountsOk;
    DeleteAccountAlone(s.t, code, guarded, actor, s.now);
  }

  lemma DeleteAccountAlone(t: Tables, code: string, guarded: bool, actor: string, now: int)
    requires TablesOk(t, now)
    ensures var (t', c) := AccountService.Run(t, AccountService.DeleteAsked(code, guarded, actor), now);
            var n := IndexOf(t.accounts, code);
            && c.AccountDone?
            && (c.result.Ok? <==>
                  && NonBlank(actor) && n < |t.accounts| && |t.accounts[n].name| >= 2
                  && (guarded ==> forall r :: r in t.postings ==> r.accountKey != t.accounts[n].nameKey))
            && (c.result.Ok? ==>
                  && code !in Codes(t'.accounts)
                  && t' == t.(accounts := t.accounts[..n] + t.accounts[n + 1..],
                              audit := t.audit + [AuditRow(code, Delete, actor)]))
            && (c.result.Err? ==> t' == t)
  {
    hide AuditOk, PostingsOk, BalancedBooks, AccountsOk, IndexOf, DeleteTx, GetByAccount, AccountRows, Codes;
    hide AccountService.Run, AccountService.Step;
    var n := IndexOf(t.accounts, code);
    DeleteStart(t, code, guarded, actor, now);
    if NonBlank(actor) && n < |t.accounts| && |t.accounts[n].name| >= 2 {
      RowDeleted(t, code, actor);
      AccountPostingsReadable(t, t.accounts[n].name, now);
      DeleteFinish(t, Decode(t.accounts[n]).value, guarded, actor, now);
    }
  }

  lemma RowDeleted(t: Tables, code: string, actor: string)
    requires AccountsOk(t.accounts) && IndexOf(t.accounts, code) < |t.accounts|
    ensures var n := IndexOf(t.accounts, code);
            var after := t.(accounts := t.accounts[..n] + t.accounts[n + 1..],
                            audit := t.audit + [AuditRow(code, Delete, actor)]);
            DeleteTx(t, code, actor) == (after, Ok(())) && code !in Codes(after.accounts)
  {
    CodesRemoved(t.accounts, IndexOf(t.accounts, code));
  }

  /** A stored row reads back exactly when its name has two characters, and then unchanged. */
  predicate DecodesFaithfully(r: AccountRow) {
    && Decode(r) == (if |r.name| >= 2 then Some(Account(r.code, r.name, r.category)) else None)
    && r.nameKey == Fold(r.name)
  }

  lemma DeleteStart(t: Tables, code: string, guarded: bool, actor: string, now: int)
    requires AccountsOk(t.accounts)
    ensures var n := IndexOf(t.accounts, code);
            AccountService.Run(t, AccountService.DeleteAsked(code, guarded, actor), now)
            == if !NonBlank(actor) then (t, AccountService.Failed(RequiredField))
               else if n == |t.accounts| then (t, AccountService.Failed(UnknownAccount))
               else if |t.accounts[n].name| < 2 then (t, AccountService.Failed(UncaughtValidation))
               else AccountService.Run(t, AccountService.DeleteLoaded(Decode(t.accounts[n]).value, guarded, actor), now)
    ensures var n := IndexOf(t.accounts, code);
            n < |t.accounts| ==> DecodesFaithfully(t.accounts[n])
  {
    hide AccountService.Run, NonBlank, BuildAccount;
    AccountService.RunStep(t, AccountService.DeleteAsked(code, guarded, actor), now);
    var n := IndexOf(t.accounts, code);
    if n < |t.accounts| {
      assert GoodRow(t.accounts[n]);
      RowDecodes(t.accounts[n]);
    }
  }

  lemma RowDecodes(r: AccountRow)
    requires GoodRow(r)
    ensures DecodesFaithfully(r)
  {
  }

  lemma DeleteFinish(t: Tables, existing: Account, guarded: bool, actor: string, now: int)
    ensures AccountService.Run(t, AccountService.DeleteLoaded(existing, guarded, actor), now)
         == if !guarded then AccountService.Step(t, AccountService.DeleteChecked(existing.code, actor), now)
            else
              match GetByAccount(t, existing.name, now)
              case Err(error) => (t, AccountService.Failed(error))
              case Ok(postings) =>
                if postings == [] then AccountService.Step(t, AccountService.DeleteChecked(existing.code, actor), now)
                else (t, AccountService.Failed(AccountHasPostings))
    ensures AccountService.Step(t, AccountService.DeleteChecked(existing.code, actor), now)
         == (DeleteTx(t, existing.code, actor).0, AccountService.AccountDone(DeleteTx(t, existing.code, actor).1))
  {
  }

  lemma DeleteLoadedTurn(t: Tables, existing: Account, guarded: bool, actor: string, now: int)
    requires TablesOk(t, now)
    ensures AccountService.Step(t, AccountService.DeleteLoaded(existing, guarded, actor), now)
         == (t, if guarded && !HistoryFree(t, existing.name) then AccountService.Failed(AccountHasPostings)
                else AccountService.DeleteChecked(existing.code, actor))
  {
    AccountPostingsReadable(t, existing.name, now);
    hide TablesOk, GetByAccount, AccountRows;
  }

  /** No posting carries the lookup key of the name. */
  ghost predicate HistoryFree(t: Tables, name: string) {
    forall r :: r in t.postings ==> r.accountKey != Fold(name)
  }

  /** One turn of a delete.  The check looks at the postings under the name as loaded; the write
      looks at nothing but the code. */
  ghost predicate DeleteTurnOk(t: Tables, a: AccountService.AccountCall, t': Tables, a': AccountService.AccountCall) {
    match a
    case DeleteLoaded(existing, guarded, actor) =>
      && t' == t
      && (a' == AccountService.DeleteChecked(existing.code, actor) <==> (guarded ==> HistoryFree(t, existing.name)))
      && (guarded && !HistoryFree(t, existing.name) ==> a' == AccountService.Failed(AccountHasPostings))
    case DeleteChecked(code, actor) =>
      && t'.postings == t.postings && Codes(t'.accounts) == Codes(t.accounts) - {code}
      && a'.AccountDone? && (a'.result.Ok? <==> code in Codes(t.accounts))
    case _ => true
  }

  lemma DeleteTurn(t: Tables, a: AccountService.AccountCall, now: int)
    requires TablesOk(t, now)
    ensures DeleteTurnOk(t, a, AccountService.Step(t, a, now).0, AccountService.Step(t, a, now).1)
  {
    hide TablesOk, HistoryFree;
    match a {
      case DeleteLoaded(existing, guarded, actor) => DeleteLoadedTurn(t, existing, guarded, actor, now);
      case DeleteChecked(code, actor) => DeletedCodes(t, code, actor, now);
      case _ =>
    }
  }

  /** A delete among any other calls, in every reachable state: its check passes exactly when no
      posting then carries the name it loaded, and its write goes through exactly when the code
      is still there, whatever has been posted or renamed in between. */
  lemma DeleteAmongOthers(start: int, events: seq<Event>, id: nat)
    requires var s := Exec(Start(start), events); id in s.calls && s.calls[id].AccountTask?
    ensures var s, s' := Exec(Start(start), events), Exec(Start(start), events + [Turn(id)]);
            && id in s'.calls && s'.calls[id].AccountTask?
            && DeleteTurnOk(s.t, s.calls[id].a, s'.t, s'.calls[id].a)
  {
    Reachable(start, events);
    var s := Exec(Start(start), events);
    assert (events + [Turn(id)])[..|events|] == events;
    hide Exec, DeleteTurnOk, TablesOk, AccountService.Step;
    DeleteTurn(s.t, s.calls[id].a, s.now);
  }

  lemma DeletedCodes(t: Tables, code: string, actor: string, now: int)
    requires TablesOk(t, now)
    ensures var (t', r) := DeleteTx(t, code, actor);
            && t'.postings == t.postings && Codes(t'.accounts) == Codes(t.accounts) - {code}
            && (r.Ok? <==> code in Codes(t.accounts))
  {
    IndexedIff(t.accounts, code);
    var n := IndexOf(t.accounts, code);
    if n < |t.accounts| {
      CodesRemoved(t.accounts, n);
    }
  }
}
