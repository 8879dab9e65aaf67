/** The account repository: account writes, each with its audit row in the same transaction. */
module AccountStore {
  import opened Outcomes
  import opened Text
  import opened AccountNames
  import opened Accounts
  import opened Tables

  function Codes(rows: seq<AccountRow>): set<string> {
    set r | r in rows :: r.code
  }

  function Keys(rows: seq<AccountRow>): set<string> {
    set r | r in rows :: r.nameKey
  }

  function RowOf(a: Account): AccountRow {
    AccountRow(a.code, a.name, Fold(a.name), a.category)
  }

  function IndexOf(rows: seq<AccountRow>, code: string): (n: nat)
    ensures n <= |rows|
    ensures n < |rows| ==> rows[n].code == code
    ensures forall i :: 0 <= i < n ==> rows[i].code != code
  {
    if rows == [] || rows[0].code == code then 0 else 1 + IndexOf(rows[1..], code)
  }

  function CreateTx(t: Tables, a: Account, actor: string): (Tables, Result<(), ErrorCode>) {
    if a.code in Codes(t.accounts) then (t, Err(DuplicateAccountCode))
    else if Fold(a.name) in Keys(t.accounts) then (t, Err(DuplicateAccountName))
    else (t.(accounts := t.accounts + [RowOf(a)], audit := t.audit + [AuditRow(a.code, Create, actor)]), Ok(()))
  }

  /** Whether a row other than the one at `n` has this key. */
  predicate KeyTaken(rows: seq<AccountRow>, n: nat, key: string) {
    exists i :: 0 <= i < |rows| && i != n && rows[i].nameKey == key
  }

  function UpdateTx(t: Tables, a: Account, actor: string): (Tables, Result<(), ErrorCode>) {
    var n := IndexOf(t.accounts, a.code);
    if n == |t.accounts| then (t, Err(UnknownAccount))
    else if KeyTaken(t.accounts, n, Fold(a.name)) then (t, Err(DuplicateAccountName))
    else (t.(accounts := t.accounts[n := RowOf(a)], audit := t.audit + [AuditRow(a.code, Update, actor)]), Ok(()))
  }

  function DeleteTx(t: Tables, code: string, actor: string): (Tables, Result<(), ErrorCode>) {
    var n := IndexOf(t.accounts, code);
    if n == |t.accounts| then (t, Err(UnknownAccount))
    else (t.(accounts := t.accounts[..n] + t.accounts[n + 1..],
             audit := t.audit + [AuditRow(code, Delete, actor)]), Ok(()))
  }

  function ExistsByCode(t: Tables, code: string): bool { code in Codes(t.accounts) }

  function ExistsByName(t: Tables, name: string): bool { Fold(name) in Keys(t.accounts) }

  function Decode(r: AccountRow): Option<Account> {
    BuildAccount(r.code, r.name, r.category)
  }

  function GetByCode(t: Tables, code: string): Result<Option<Account>, ErrorCode> {
    var n := IndexOf(t.accounts, code);
    if n == |t.accounts| then Ok(None)
    else
      var a := Decode(t.accounts[n]);
      if a.Some? then Ok(a) else Err(UncaughtValidation)
  }

  function DecodeAll(rows: seq<AccountRow>): (r: Result<seq<Account>, ErrorCode>)
    ensures r.Ok? <==> forall i :: 0 <= i < |rows| ==> Decode(rows[i]).Some?
    ensures r.Err? ==> r.error == UncaughtValidation
    ensures r.Ok? ==>
              && |r.value| == |rows|
              && forall i :: 0 <= i < |rows| ==> Decode(rows[i]) == Some(r.value[i])
  {
    if rows == [] then Ok([])
    else
      var first := Decode(rows[0]);
      var rest := DecodeAll(rows[1..]);
      if first.None? then Err(UncaughtValidation)
      else if rest.Err? then
        assert exists i :: 0 <= i < |rows[1..]| && Decode(rows[1..][i]).None?;
        rest
      else Ok([first.value] + rest.value)
  }

  function ListAll(t: Tables): Result<seq<Account>, ErrorCode> { DecodeAll(t.accounts) }

  class AccountRepo {
    const db: Database

    constructor (db: Database)
      ensures this.db == db
    {
      this.db := db;
    }

    method Create(a: Account, actor: string) returns (r: Result<(), ErrorCode>)
      modifies db
      ensures (db.tables, r) == CreateTx(old(db.tables), a, actor)
    {
      var t := db.tables;
      if a.code in Codes(t.accounts) {
        return Err(DuplicateAccountCode);
      }
      if Fold(a.name) in Keys(t.accounts) {
        return Err(DuplicateAccountName);
      }
      var row := AccountRow(a.code, a.name, Fold(a.name), a.category);
      db.tables := t.(accounts := t.accounts + [row], audit := t.audit + [AuditRow(a.code, AuditAction.Create, actor)]);
      r := Ok(());
    }

    method Update(a: Account, actor: string) returns (r: Result<(), ErrorCode>)
      modifies db
      ensures (db.tables, r) == UpdateTx(old(db.tables), a, actor)
    {
      var t := db.tables;
      var n := IndexOf(t.accounts, a.code);
      if n == |t.accounts| {
        return Err(UnknownAccount);
      }
      var existing := t.accounts[n];
      existing := existing.(name := a.name, nameKey := Fold(a.name), category := a.category);
      if KeyTaken(t.accounts, n, existing.nameKey) {
        return Err(DuplicateAccountName);
      }
      db.tables := t.(accounts := t.accounts[n := existing], audit := t.audit + [AuditRow(a.code, AuditAction.Update, actor)]);
      r := Ok(());
    }

    method DeleteByCode(code: string, actor: string) returns (r: Result<(), ErrorCode>)
      modifies db
      ensures (db.tables, r) == DeleteTx(old(db.tables), code, actor)
    {
      var t := db.tables;
      var n := IndexOf(t.accounts, code);
      if n == |t.accounts| {
        return Err(UnknownAccount);
      }
      db.tables := t.(accounts := t.accounts[..n] + t.accounts[n + 1..],
                      audit := t.audit + [AuditRow(code, AuditAction.Delete, actor)]);
      r := Ok(());
    }
  }

  ghost predicate GoodRow(r: AccountRow) {
    && ValidCode(r.code) && r.nameKey == Fold(r.name)
    && CleanAccountName(r.name) == Some(r.name) && 1 <= |r.name| <= 150
  }

  /** What every reachable accounts table satisfies. */
  ghost predicate AccountsOk(rows: seq<AccountRow>) {
    && (forall i :: 0 <= i < |rows| ==> GoodRow(rows[i]))
    && (forall i, j :: 0 <= i < j < |rows| ==> rows[i].code != rows[j].code && rows[i].nameKey != rows[j].nameKey)
  }

  lemma CreateKeepsRows(t: Tables, a: Account, actor: string)
    requires AccountsOk(t.accounts) && GoodRow(RowOf(a))
    ensures AccountsOk(CreateTx(t, a, actor).0.accounts)
  {
    hide GoodRow;
    assert forall i :: 0 <= i < |t.accounts| ==> t.accounts[i] in t.accounts;
  }

  lemma UpdateKeepsRows(t: Tables, a: Account, actor: string)
    requires AccountsOk(t.accounts) && GoodRow(RowOf(a))
    ensures AccountsOk(UpdateTx(t, a, actor).0.accounts)
  {
    var n := IndexOf(t.accounts, a.code);
    if n < |t.accounts| && !KeyTaken(t.accounts, n, Fold(a.name)) {
      var rows := t.accounts[n := RowOf(a)];
      forall i, j | 0 <= i < j < |rows|
        ensures rows[i].code != rows[j].code && rows[i].nameKey != rows[j].nameKey
      {
        assert t.accounts[i].code != t.accounts[j].code && t.accounts[i].nameKey != t.accounts[j].nameKey;
      }
    }
  }

  lemma DeleteKeepsRows(t: Tables, code: string, actor: string)
    requires AccountsOk(t.accounts)
    ensures AccountsOk(DeleteTx(t, code, actor).0.accounts)
  {
    hide GoodRow;
  }

  /** The whole list can be read exactly when every stored name has two characters. */
  lemma AccountListReadableIff(t: Tables)
    requires AccountsOk(t.accounts)
    ensures ListAll(t).Ok? <==> forall r :: r in t.accounts ==> |r.name| >= 2
  {
  }

  /** A chart read from the table always builds: no duplicate is ever found in it. */
  lemma ChartAlwaysBuilds(t: Tables)
    requires AccountsOk(t.accounts) && ListAll(t).Ok?
    ensures DistinctCodes(ListAll(t).value) && DistinctNames(ListAll(t).value)
  {
  }

  /** The actions recorded for one account code, oldest first. */
  function ActionsOf(log: seq<AuditRow>, code: string): seq<AuditAction> {
    if log == [] then []
    else (if log[0].code == code then [log[0].action] else []) + ActionsOf(log[1..], code)
  }

  /** Repeated create, update*, delete cycles, the last possibly still open. */
  predicate Cycles(actions: seq<AuditAction>) {
    actions == [] || (actions[0].Create? && InCycle(actions[1..]))
  }

  predicate InCycle(actions: seq<AuditAction>) {
    actions == [] || (actions[0].Update? && InCycle(actions[1..])) || (actions[0].Delete? && Cycles(actions[1..]))
  }

  predicate IsOpen(actions: seq<AuditAction>) {
    actions != [] && !actions[|actions| - 1].Delete?
  }

  /** Replaying the log: the codes it leaves alive. */
  function Replay(log: seq<AuditRow>): set<string> {
    if log == [] then {}
    else
      var before, last := Replay(log[..|log| - 1]), log[|log| - 1];
      match last.action
      case Create => before + {last.code}
      case Update => before
      case Delete => before - {last.code}
  }

  ghost predicate AuditOk(accounts: seq<AccountRow>, audit: seq<AuditRow>) {
    && (forall c :: Cycles(ActionsOf(audit, c)))
    && (forall c :: c in Codes(accounts) <==> IsOpen(ActionsOf(audit, c)))
    && Replay(audit) == Codes(accounts)
  }

  lemma {:induction false} ActionsAppend(log: seq<AuditRow>, row: AuditRow, code: string)
    ensures ActionsOf(log + [row], code)
         == ActionsOf(log, code) + if row.code == code then [row.action] else []
  {
    if log != [] {
      assert (log + [row])[1..] == log[1..] + [row];
      ActionsAppend(log[1..], row, code);
    }
  }

  lemma {:induction false} CycleAppend(actions: seq<AuditAction>, next: AuditAction)
    ensures Cycles(actions) ==> (Cycles(actions + [next]) <==> (next.Create? <==> !IsOpen(actions)))
    ensures InCycle(actions) ==>
              (InCycle(actions + [next]) <==> (next.Create? <==> (actions != [] && !IsOpen(actions))))
  {
    if actions != [] {
      assert (actions + [next])[1..] == actions[1..] + [next];
      CycleAppend(actions[1..], next);
    }
  }

  lemma CodesAppend(rows: seq<AccountRow>, row: AccountRow)
    ensures Codes(rows + [row]) == Codes(rows) + {row.code}
  {
  }

  lemma CodesReplaced(rows: seq<AccountRow>, n: nat, row: AccountRow)
    requires n < |rows| && rows[n].code == row.code
    ensures Codes(rows[n := row]) == Codes(rows)
  {
    var after := rows[n := row];
    forall c | c in Codes(rows)
      ensures c in Codes(after)
    {
      var i :| 0 <= i < |rows| && rows[i].code == c;
      assert after[i] in after && after[i].code == c;
    }
    forall c | c in Codes(after)
      ensures c in Codes(rows)
    {
      var i :| 0 <= i < |after| && after[i].code == c;
      assert rows[i] in rows && rows[i].code == c;
    }
  }

  lemma CodesRemoved(rows: seq<AccountRow>, n: nat)
    requires n < |rows| && AccountsOk(rows)
    ensures Codes(rows[..n] + rows[n + 1..]) == Codes(rows) - {rows[n].code}
  {
  }

  /** One audited write moves the log and the table together. */
  lemma LoggedWrite(t: Tables, accounts: seq<AccountRow>, row: AuditRow)
    requires AuditOk(t.accounts, t.audit)
    requires row.action.Create? <==> row.code !in Codes(t.accounts)
    requires Codes(accounts) == match row.action
                                case Create => Codes(t.accounts) + {row.code}
                                case Update => Codes(t.accounts)
                                case Delete => Codes(t.accounts) - {row.code}
    ensures AuditOk(accounts, t.audit + [row])
  {
    var log := t.audit + [row];
    assert log[..|log| - 1] == t.audit;
    forall c
      ensures Cycles(ActionsOf(log, c))
      ensures c in Codes(accounts) <==> IsOpen(ActionsOf(log, c))
    {
      ActionsAppend(t.audit, row, c);
      assert Cycles(ActionsOf(t.audit, c));
      assert c in Codes(t.accounts) <==> IsOpen(ActionsOf(t.audit, c));
      if row.code == c {
        CycleAppend(ActionsOf(t.audit, c), row.action);
      } else {
        assert ActionsOf(t.audit, c) + [] == ActionsOf(t.audit, c);
      }
    }
  }

  lemma IndexedIff(rows: seq<AccountRow>, code: string)
    ensures IndexOf(rows, code) < |rows| <==> code in Codes(rows)
  {
  }

  lemma AccountWritesKeepAudit(t: Tables, a: Account, actor: string)
    requires AccountsOk(t.accounts) && AuditOk(t.accounts, t.audit)
    ensures AuditOk(CreateTx(t, a, actor).0.accounts, CreateTx(t, a, actor).0.audit)
    ensures AuditOk(UpdateTx(t, a, actor).0.accounts, UpdateTx(t, a, actor).0.audit)
    ensures AuditOk(DeleteTx(t, a.code, actor).0.accounts, DeleteTx(t, a.code, actor).0.audit)
  {
    IndexedIff(t.accounts, a.code);
    if CreateTx(t, a, actor).1.Ok? {
      CodesAppend(t.accounts, RowOf(a));
      LoggedWrite(t, CreateTx(t, a, actor).0.accounts, AuditRow(a.code, Create, actor));
    }
    var n := IndexOf(t.accounts, a.code);
    if UpdateTx(t, a, actor).1.Ok? {
      CodesReplaced(t.accounts, n, RowOf(a));
      LoggedWrite(t, UpdateTx(t, a, actor).0.accounts, AuditRow(a.code, Update, actor));
    }
    if n < |t.accounts| {
      CodesRemoved(t.accounts, n);
      LoggedWrite(t, DeleteTx(t, a.code, actor).0.accounts, AuditRow(a.code, Delete, actor));
    }
  }
}
