/** The account service: create, update and delete as check-then-write steps, each step one
    repository transaction. */
module AccountService {
  import opened Outcomes
  import opened Text
  import opened Accounts
  import opened Tables
  import opened AccountStore
  import PostingStore

  /** Where one call stands between two of its awaits. */
  datatype AccountCall =
    | CreateAsked(code: string, name: string, category: Category, actor: string)
    | CreateCodeFree(code: string, name: string, category: Category, actor: string)
    | CreateChecked(account: Account, actor: string)
    | UpdateAsked(code: string, newName: Option<string>, newCategory: Option<Category>, actor: string)
    | UpdateLoaded(existing: Account, newName: Option<string>, newCategory: Option<Category>, actor: string)
    | UpdateChecked(account: Account, actor: string)
    | DeleteAsked(code: string, guarded: bool, actor: string)
    | DeleteLoaded(existing: Account, guarded: bool, actor: string)
    | DeleteChecked(code: string, actor: string)
    | AccountDone(result: Result<(), ErrorCode>)

  function Rank(c: AccountCall): nat {
    match c
    case CreateAsked(_, _, _, _) => 3
    case CreateCodeFree(_, _, _, _) => 2
    case UpdateAsked(_, _, _, _) => 3
    case UpdateLoaded(_, _, _, _) => 2
    case DeleteAsked(_, _, _) => 3
    case DeleteLoaded(_, _, _) => 2
    case AccountDone(_) => 0
    case _ => 1
  }

  function Failed(code: ErrorCode): AccountCall { AccountDone(Err(code)) }

  function OrElse<T>(chosen: Option<T>, fallback: T): T {
    if chosen.Some? then chosen.value else fallback
  }

  function Step(t: Tables, c: AccountCall, now: int): (r: (Tables, AccountCall))
    ensures r.1.AccountDone? || Rank(r.1) < Rank(c)
  {
    match c
    case CreateAsked(code, name, category, actor) =>
      if !NonBlank(actor) then (t, Failed(RequiredField))
      else if ExistsByCode(t, code) then (t, Failed(DuplicateAccountCode))
      else (t, CreateCodeFree(code, name, category, actor))
    case CreateCodeFree(code, name, category, actor) =>
      if ExistsByName(t, name) then (t, Failed(DuplicateAccountName))
      else
        var account := BuildAccount(code, name, category);
        (t, if account.Some? then CreateChecked(account.value, actor) else Failed(ValidationError))
    case CreateChecked(account, actor) =>
      var (t', result) := CreateTx(t, account, actor);
      (t', AccountDone(result))
    case UpdateAsked(code, name, category, actor) =>
      if !NonBlank(actor) then (t, Failed(RequiredField))
      else
        (match GetByCode(t, code)
         case Err(error) => (t, Failed(error))
         case Ok(None) => (t, Failed(UnknownAccount))
         case Ok(Some(existing)) => (t, UpdateLoaded(existing, name, category, actor)))
    case UpdateLoaded(existing, newName, newCategory, actor) =>
      var name := OrElse(newName, existing.name);
      if name != existing.name && ExistsByName(t, name) then (t, Failed(DuplicateAccountName))
      else
        var account := BuildAccount(existing.code, name, OrElse(newCategory, existing.category));
        (t, if account.Some? then UpdateChecked(account.value, actor) else Failed(ValidationError))
    case UpdateChecked(account, actor) =>
      var (t', result) := UpdateTx(t, account, actor);
      (t', AccountDone(result))
    case DeleteAsked(code, guarded, actor) =>
      if !NonBlank(actor) then (t, Failed(RequiredField))
      else
        (match GetByCode(t, code)
         case Err(error) => (t, Failed(error))
         case Ok(None) => (t, Failed(UnknownAccount))
         case Ok(Some(existing)) => (t, DeleteLoaded(existing, guarded, actor)))
    case DeleteLoaded(existing, guarded, actor) =>
      if !guarded then (t, DeleteChecked(existing.code, actor))
      else
        (match PostingStore.GetByAccount(t, existing.name, now)
         case Err(error) => (t, Failed(error))
         case Ok(postings) =>
           (t, if postings == [] then DeleteChecked(existing.code, actor) else Failed(AccountHasPostings)))
    case DeleteChecked(code, actor) =>
      var (t', result) := DeleteTx(t, code, actor);
      (t', AccountDone(result))
    case AccountDone(_) => (t, c)
  }

  /** The call run to its end with nothing else in between. */
  function Run(t: Tables, c: AccountCall, now: int): (Tables, AccountCall)
    decreases Rank(c)
  {
    if c.AccountDone? then (t, c)
    else
      var (t', c') := Step(t, c, now);
      if c'.AccountDone? then (t', c') else Run(t', c', now)
  }

  lemma CodeFound(t: Tables, code: string)
    ensures GetByCode(t, code).Ok? && GetByCode(t, code).value.Some? ==> GetByCode(t, code).value.value.code == code
  {
  }

  /** One step of an unfinished run. */
  lemma RunStep(t: Tables, c: AccountCall, now: int)
    requires !c.AccountDone?
    ensures Run(t, c, now) == (if Step(t, c, now).1.AccountDone? then Step(t, c, now)
                               else Run(Step(t, c, now).0, Step(t, c, now).1, now))
  {
  }

  /** The service over one database; `now` is what the clock reads during the call. */
  class Service {
    const repo: AccountRepo
    const guarded: bool

    constructor (repo: AccountRepo, guarded: bool)
      ensures this.repo == repo && this.guarded == guarded
    {
      this.repo := repo;
      this.guarded := guarded;
    }

    method CreateAccount(code: string, name: string, category: Category, actor: string, now: int)
      returns (r: Result<(), ErrorCode>)
      modifies repo.db
      ensures (repo.db.tables, AccountDone(r))
           == Run(old(repo.db.tables), CreateAsked(code, name, category, actor), now)
    {
      hide Run, CreateTx, BuildAccount, ExistsByCode, ExistsByName;
      var t := repo.db.tables;
      RunStep(t, CreateAsked(code, name, category, actor), now);
      if !NonBlank(actor) {
        return Err(RequiredField);
      }
      if ExistsByCode(t, code) {
        return Err(DuplicateAccountCode);
      }
      RunStep(t, CreateCodeFree(code, name, category, actor), now);
      if ExistsByName(t, name) {
        return Err(DuplicateAccountName);
      }
      var account := BuildAccount(code, name, category);
      if account.None? {
        return Err(ValidationError);
      }
      RunStep(t, CreateChecked(account.value, actor), now);
      r := repo.Create(account.value, actor);
    }

    method UpdateAccount(code: string, newName: Option<string>, newCategory: Option<Category>, actor: string, now: int)
      returns (r: Result<(), ErrorCode>)
      modifies repo.db
      ensures (repo.db.tables, AccountDone(r))
           == Run(old(repo.db.tables), UpdateAsked(code, newName, newCategory, actor), now)
    {
      hide Run, UpdateTx, BuildAccount, ExistsByName, GetByCode;
      var t := repo.db.tables;
      RunStep(t, UpdateAsked(code, newName, newCategory, actor), now);
      if !NonBlank(actor) {
        return Err(RequiredField);
      }
      var found := GetByCode(t, code);
      if found.Err? {
        return Err(found.error);
      }
      if found.value.None? {
        return Err(UnknownAccount);
      }
      var existing := found.value.value;
      RunStep(t, UpdateLoaded(existing, newName, newCategory, actor), now);
      var name := if newName.Some? then newName.value else existing.name;
      var category := if newCategory.Some? then newCategory.value else existing.category;
      if name != existing.name && ExistsByName(t, name) {
        return Err(DuplicateAccountName);
      }
      var account := BuildAccount(existing.code, name, category);
      if account.None? {
        return Err(ValidationError);
      }
      RunStep(t, UpdateChecked(account.value, actor), now);
      r := repo.Update(account.value, actor);
    }

    method DeleteAccount(code: string, actor: string, now: int) returns (r: Result<(), ErrorCode>)
      modifies repo.db
      ensures (repo.db.tables, AccountDone(r)) == Run(old(repo.db.tables), DeleteAsked(code, guarded, actor), now)
    {
      var t := repo.db.tables;
      CodeFound(t, code);
      hide Run, DeleteTx, GetByCode, PostingStore.GetByAccount;
      RunStep(t, DeleteAsked(code, guarded, actor), now);
      if !NonBlank(actor) {
        return Err(RequiredField);
      }
      var found := GetByCode(t, code);
      if found.Err? {
        return Err(found.error);
      }
      if found.value.None? {
        return Err(UnknownAccount);
      }
      RunStep(t, DeleteLoaded(found.value.value, guarded, actor), now);
      if guarded {
        var postings := PostingStore.GetByAccount(t, found.value.value.name, now);
        if postings.Err? {
          return Err(postings.error);
        }
        if postings.value != [] {
          return Err(AccountHasPostings);
        }
      }
      RunStep(t, DeleteChecked(code, actor), now);
      r := repo.DeleteByCode(code, actor);
    }
  }
}
