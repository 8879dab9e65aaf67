/** What creating, updating and deleting an account answers and stores, said of the input and
    the tables alone. */
module AccountAnswers {
  import opened Outcomes
  import opened Text
  import opened AccountNames
  import opened Accounts
  import opened Tables
  import opened AccountStore
  import AccountService
  import opened LedgerMachine
  import opened LedgerInvariant
  import opened AccountTheorems

  predicate CodeStored(t: Tables, code: string) {
    exists i :: 0 <= i < |t.accounts| && t.accounts[i].code == code
  }

  predicate KeyStored(t: Tables, key: string) {
    exists i :: 0 <= i < |t.accounts| && t.accounts[i].nameKey == key
  }

  /** A code of four to six digits and a name of 2 to 150 characters that follows the rule once
      trimmed. */
  predicate GoodAccount(code: string, name: string) {
    && 4 <= |code| <= 6 && (forall i :: 0 <= i < |code| ==> '0' <= code[i] <= '9')
    && 2 <= |name| <= 150 && SpelledOut(Strip(name))
  }

  lemma AccountAcceptedIff(code: string, name: string, category: Category)
    ensures BuildAccount(code, name, category)
         == if GoodAccount(code, name) then Some(Account(code, Strip(name), category)) else None
  {
    CleanNameMeans(name);
  }

  lemma StoredIff(t: Tables, code: string, key: string)
    ensures code in Codes(t.accounts) <==> CodeStored(t, code)
    ensures key in Keys(t.accounts) <==> KeyStored(t, key)
  {
    if code in Codes(t.accounts) {
      var r :| r in t.accounts && r.code == code;
      var i :| 0 <= i < |t.accounts| && t.accounts[i] == r;
    }
    if key in Keys(t.accounts) {
      var r :| r in t.accounts && r.nameKey == key;
      var i :| 0 <= i < |t.accounts| && t.accounts[i] == r;
    }
  }

  function Refused(t: Tables, code: ErrorCode): (Tables, AccountService.AccountCall) {
    (t, AccountService.AccountDone(Err(code)))
  }

  function Done(t: Tables): (Tables, AccountService.AccountCall) { (t, AccountService.AccountDone(Ok(()))) }

  /** The row of an account as a caller gave it. */
  function RowFor(code: string, name: string, category: Category): AccountRow {
    AccountRow(code, Strip(name), Fold(Strip(name)), category)
  }

  function CreateAnswer(t: Tables, code: string, name: string, category: Category, actor: string)
    : (Tables, AccountService.AccountCall)
  {
    if !NonBlank(actor) then Refused(t, RequiredField)
    else if CodeStored(t, code) then Refused(t, DuplicateAccountCode)
    else if KeyStored(t, Fold(name)) then Refused(t, DuplicateAccountName)
    else if !GoodAccount(code, name) then Refused(t, ValidationError)
    else if KeyStored(t, Fold(Strip(name))) then Refused(t, DuplicateAccountName)
    else
      Done(t.(accounts := t.accounts + [RowFor(code, name, category)],
              audit := t.audit + [AuditRow(code, Create, actor)]))
  }

  lemma CreateUnrolled(t: Tables, code: string, name: string, category: Category, actor: string, now: int)
    ensures var built := BuildAccount(code, name, category);
            AccountService.Run(t, AccountService.CreateAsked(code, name, category, actor), now)
            == if !NonBlank(actor) then Refused(t, RequiredField)
               else if ExistsByCode(t, code) then Refused(t, DuplicateAccountCode)
               else if ExistsByName(t, name) then Refused(t, DuplicateAccountName)
               else if built.None? then Refused(t, ValidationError)
               else (CreateTx(t, built.value, actor).0, AccountService.AccountDone(CreateTx(t, built.value, actor).1))
  {
    hide NonBlank, ExistsByCode, ExistsByName, BuildAccount, CreateTx;
    var asked, free := AccountService.CreateAsked(code, name, category, actor), AccountService.CreateCodeFree(code, name, category, actor);
    AccountService.RunStep(t, asked, now);
    AccountService.RunStep(t, free, now);
    var built := BuildAccount(code, name, category);
    if built.Some? {
      AccountService.RunStep(t, AccountService.CreateChecked(built.value, actor), now);
    }
    hide AccountService.Run;
  }

  /** A create run alone, in full: which code a refusal reports, and the row and audit row a
      success adds. */
  lemma CreateAccountAnswers(t: Tables, code: string, name: string, category: Category, actor: string, now: int)
    ensures AccountService.Run(t, AccountService.CreateAsked(code, name, category, actor), now)
         == CreateAnswer(t, code, name, category, actor)
  {
    CreateUnrolled(t, code, name, category, actor, now);
    AccountAcceptedIff(code, name, category);
    StoredIff(t, code, Fold(name));
    StoredIff(t, code, Fold(Strip(name)));
    hide AccountService.Run, NonBlank, BuildAccount, GoodAccount, Codes, Keys, CodeStored, KeyStored, Strip, Fold;
  }

  /** Another row than the one at `n` has the key. */
  predicate KeyElsewhere(t: Tables, n: nat, key: string) {
    exists i :: 0 <= i < |t.accounts| && i != n && t.accounts[i].nameKey == key
  }

  function UpdateAnswer(t: Tables, ch: Change, actor: string): (Tables, AccountService.AccountCall) {
    var n := IndexOf(t.accounts, ch.code);
    if !NonBlank(actor) then Refused(t, RequiredField)
    else if n == |t.accounts| then Refused(t, UnknownAccount)
    else if |t.accounts[n].name| < 2 then Refused(t, UncaughtValidation)
    else
      var row := t.accounts[n];
      var name := if ch.name.Some? then ch.name.value else row.name;
      var category := if ch.category.Some? then ch.category.value else row.category;
      if name != row.name && KeyStored(t, Fold(name)) then Refused(t, DuplicateAccountName)
      else if !GoodAccount(row.code, name) then Refused(t, ValidationError)
      else if KeyElsewhere(t, n, Fold(Strip(name))) then Refused(t, DuplicateAccountName)
      else
        Done(t.(accounts := t.accounts[n := RowFor(row.code, name, category)],
                audit := t.audit + [AuditRow(row.code, Update, actor)]))
  }

  /** An update run alone from any reachable state, in full: the row keeps its code and what the
      change leaves out. */
  lemma UpdateAccountAnswers(start: int, events: seq<Event>, ch: Change, actor: string)
    ensures var s := Exec(Start(start), events);
            AccountService.Run(s.t, AccountService.UpdateAsked(ch.code, ch.name, ch.category, actor), s.now)
            == UpdateAnswer(s.t, ch, actor)
  {
    Reachable(start, events);
    var s := Exec(Start(start), events);
    hide Exec, UpdateAnswer, AccountService.Run;
    UpdateAnswered(s.t, ch, actor, s.now);
  }

  lemma UpdateAnswered(t: Tables, ch: Change, actor: string, now: int)
    requires AccountsOk(t.accounts)
    ensures AccountService.Run(t, AccountService.UpdateAsked(ch.code, ch.name, ch.category, actor), now)
         == UpdateAnswer(t, ch, actor)
  {
    hide AccountService.Run, AccountService.Step, NonBlank, BuildAccount, GoodAccount, Codes, Keys, KeyStored, Strip, Fold, AccountsOk;
    UpdateStart(t, ch, actor, now);
    var n := IndexOf(t.accounts, ch.code);
    if n < |t.accounts| {
      var row := t.accounts[n];
      var name := if ch.name.Some? then ch.name.value else row.name;
      var category := if ch.category.Some? then ch.category.value else row.category;
      UpdateFinish(t, Account(row.code, row.name, row.category), ch.name, ch.category, actor, now);
      AccountAcceptedIff(row.code, name, category);
      StoredIff(t, row.code, Fold(name));
    }
  }

  function DeleteAnswer(t: Tables, code: string, guarded: bool, actor: string): (Tables, AccountService.AccountCall) {
    var n := IndexOf(t.accounts, code);
    if !NonBlank(actor) then Refused(t, RequiredField)
    else if n == |t.accounts| then Refused(t, UnknownAccount)
    else if |t.accounts[n].name| < 2 then Refused(t, UncaughtValidation)
    else if guarded && exists i :: 0 <= i < |t.postings| && t.postings[i].accountKey == t.accounts[n].nameKey
    then Refused(t, AccountHasPostings)
    else
      Done(t.(accounts := t.accounts[..n] + t.accounts[n + 1..],
              audit := t.audit + [AuditRow(code, Delete, actor)]))
  }

  /** A delete run alone from any reachable state, in full. */
  lemma DeleteAccountAnswers(start: int, events: seq<Event>, code: string, guarded: bool, actor: string)
    ensures var s := Exec(Start(start), events);
            AccountService.Run(s.t, AccountService.DeleteAsked(code, guarded, actor), s.now)
            == DeleteAnswer(s.t, code, guarded, actor)
  {
    Reachable(start, events);
    var s := Exec(Start(start), events);
    hide Exec, DeleteAnswer, AccountService.Run;
    DeleteAnswered(s.t, code, guarded, actor, s.now);
  }

  lemma DeleteAnswered(t: Tables, code: string, guarded: bool, actor: string, now: int)
    requires TablesOk(t, now)
    ensures AccountService.Run(t, AccountService.DeleteAsked(code, guarded, actor), now)
         == DeleteAnswer(t, code, guarded, actor)
  {
    hide AccountService.Run, NonBlank, TablesOk, AccountsOk, GoodRow, HistoryFree;
    OkAccounts(t, now);
    DeleteStart(t, code, guarded, actor, now);
    var n := IndexOf(t.accounts, code);
    if n < |t.accounts| && |t.accounts[n].name| >= 2 {
      var existing := Account(t.accounts[n].code, t.accounts[n].name, t.accounts[n].category);
      DeleteLoadedTurn(t, existing, guarded, actor, now);
      HistoryIff(t, t.accounts[n].name);
      AccountService.RunStep(t, AccountService.DeleteLoaded(existing, guarded, actor), now);
      AccountService.RunStep(t, AccountService.DeleteChecked(code, actor), now);
    }
  }

  lemma OkAccounts(t: Tables, now: int)
    requires TablesOk(t, now)
    ensures AccountsOk(t.accounts)
  {
  }

  lemma HistoryIff(t: Tables, name: string)
    ensures HistoryFree(t, name) <==> !exists i :: 0 <= i < |t.postings| && t.postings[i].accountKey == Fold(name)
  {
    if HistoryFree(t, name) {
      assert forall i :: 0 <= i < |t.postings| ==> t.postings[i] in t.postings;
    }
  }
}
