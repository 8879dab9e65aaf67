/** The chart-of-accounts domain: accounts and the indexes a chart is looked up through. */
module Accounts {
  import opened Outcomes
  import opened Text
  import opened AccountNames

  datatype Category = Asset | Liability | Equity | Dividend | Revenue | Expense | Drawing

  datatype Account = Account(code: string, name: string, category: Category)

  predicate ValidCode(code: string) {
    4 <= |code| <= 6 && forall i :: 0 <= i < |code| ==> '0' <= code[i] <= '9'
  }

  /** Validation of an account: the length bounds look at the name as given, and only then
      is the name trimmed and checked. */
  function BuildAccount(code: string, name: string, category: Category): (r: Option<Account>)
    ensures r.Some? ==>
              && r.value.code == code && ValidCode(code)
              && CleanAccountName(r.value.name) == Some(r.value.name)
              && 1 <= |r.value.name| <= 150
  {
    var cleaned := CleanAccountName(name);
    if ValidCode(code) && 2 <= |name| <= 150 && cleaned.Some? then
      CleanFixpoint(name);
      Some(Account(code, cleaned.value, category))
    else
      None
  }

  /** An accepted account survives being validated again, as every read does, exactly when
      its trimmed name still has two characters. */
  lemma AccountReadsBack(code: string, name: string, category: Category)
    requires BuildAccount(code, name, category).Some?
    ensures var a := BuildAccount(code, name, category).value;
            BuildAccount(a.code, a.name, a.category)
            == (if |Strip(name)| >= 2 then Some(a) else None)
  {
  }

  /** " A" is accepted, and what is stored for it is rejected by the next read. */
  lemma PaddedLetterIsUnreadable()
    ensures BuildAccount("1000", " A", Asset) == Some(Account("1000", "A", Asset))
    ensures BuildAccount("1000", "A", Asset) == None
  {
    var padded := " A";
    assert TrimLeft(padded) == TrimLeft(padded[1..]) && padded[1..] == "A";
    assert Strip(padded) == "A";
    PatternIsLocalRule("A");
    assert Conforms("A");
  }

  function FindByCode(accounts: seq<Account>, code: string): (r: Option<Account>) {
    if accounts == [] then None
    else if accounts[0].code == code then Some(accounts[0])
    else FindByCode(accounts[1..], code)
  }

  /** The first account whose name has the lookup key of `name`. */
  function FindByName(accounts: seq<Account>, name: string): (r: Option<Account>)
    ensures r.Some? ==> r.value in accounts && Fold(r.value.name) == Fold(name)
    ensures r.None? ==> forall a :: a in accounts ==> Fold(a.name) != Fold(name)
  {
    if accounts == [] then None
    else if Fold(accounts[0].name) == Fold(name) then Some(accounts[0])
    else FindByName(accounts[1..], name)
  }

  predicate DistinctCodes(accounts: seq<Account>) {
    forall i, j :: 0 <= i < j < |accounts| ==> accounts[i].code != accounts[j].code
  }

  predicate DistinctNames(accounts: seq<Account>) {
    forall i, j :: 0 <= i < j < |accounts| ==> Fold(accounts[i].name) != Fold(accounts[j].name)
  }

  function Lookup(index: map<string, Account>, key: string): Option<Account> {
    if key in index then Some(index[key]) else None
  }

  lemma {:induction false} FindByCodeAppend(accounts: seq<Account>, a: Account, code: string)
    ensures FindByCode(accounts + [a], code)
         == if FindByCode(accounts, code).Some? then FindByCode(accounts, code)
            else if a.code == code then Some(a) else None
  {
    if accounts != [] {
      assert (accounts + [a])[1..] == accounts[1..] + [a];
      FindByCodeAppend(accounts[1..], a, code);
    }
  }

  lemma {:induction false} FindByNameAppend(accounts: seq<Account>, a: Account, name: string)
    ensures FindByName(accounts + [a], name)
         == if FindByName(accounts, name).Some? then FindByName(accounts, name)
            else if Fold(a.name) == Fold(name) then Some(a) else None
  {
    if accounts != [] {
      assert (accounts + [a])[1..] == accounts[1..] + [a];
      FindByNameAppend(accounts[1..], a, name);
    }
  }

  lemma {:induction false} FoundByCode(accounts: seq<Account>, code: string)
    ensures FindByCode(accounts, code).Some?
       <==> exists i :: 0 <= i < |accounts| && accounts[i].code == code
  {
    if accounts != [] {
      FoundByCode(accounts[1..], code);
      assert forall i :: 1 <= i < |accounts| ==> accounts[i] == accounts[1..][i - 1];
    }
  }

  /** The index answers every lookup as a scan of the list does. */
  ghost predicate IndexesCodes(index: map<string, Account>, accounts: seq<Account>) {
    forall code :: Lookup(index, code) == FindByCode(accounts, code)
  }

  ghost predicate IndexesNames(index: map<string, Account>, accounts: seq<Account>) {
    forall name :: Lookup(index, Fold(name)) == FindByName(accounts, name)
  }

  /** One more account in the index by code, and the lookups that changes. */
  lemma CodeIndexed(index: map<string, Account>, seen: seq<Account>, account: Account)
    requires account.code !in index && IndexesCodes(index, seen)
    ensures IndexesCodes(index[account.code := account], seen + [account])
  {
    forall c
      ensures Lookup(index[account.code := account], c) == FindByCode(seen + [account], c)
    {
      assert Lookup(index, c) == FindByCode(seen, c);
      FindByCodeAppend(seen, account, c);
    }
  }

  lemma NoNamesYet(accounts: seq<Account>)
    ensures DistinctNames(accounts[..0]) && forall name :: FindByName(accounts[..0], name).None?
  {
  }

  /** A key is in the index exactly when the next name repeats an earlier one. */
  lemma NameSeen(accounts: seq<Account>, n: nat, index: map<string, Account>)
    requires n < |accounts| && DistinctNames(accounts[..n])
    requires IndexesNames(index, accounts[..n])
    ensures if Fold(accounts[n].name) in index then !DistinctNames(accounts) else DistinctNames(accounts[..n + 1])
  {
  }

  lemma NameIndexed(index: map<string, Account>, seen: seq<Account>, account: Account)
    requires Fold(account.name) !in index && IndexesNames(index, seen)
    ensures IndexesNames(index[Fold(account.name) := account], seen + [account])
  {
    forall name
      ensures Lookup(index[Fold(account.name) := account], Fold(name)) == FindByName(seen + [account], name)
    {
      assert Lookup(index, Fold(name)) == FindByName(seen, name);
      FindByNameAppend(seen, account, name);
    }
  }

  /** The chart of accounts: its list, and the two indexes its validators fill. */
  class ChartOfAccounts {
    const accounts: seq<Account>
    var byCode: map<string, Account>
    var byName: map<string, Account>

    constructor (accounts: seq<Account>)
      ensures this.accounts == accounts && byCode == map[] && byName == map[]
    {
      this.accounts := accounts;
      byCode := map[];
      byName := map[];
    }

    /** Rejects exactly the lists that reuse a code, and otherwise leaves an index that
        answers every lookup as a scan of the list does. */
    method ValidateUniqueCodes() returns (ok: bool)
      requires byCode == map[]
      modifies this`byCode
      ensures ok <==> DistinctCodes(accounts)
      ensures ok ==> IndexesCodes(byCode, accounts)
    {
      for n := 0 to |accounts|
        invariant DistinctCodes(accounts[..n])
        invariant IndexesCodes(byCode, accounts[..n])
      {
        var account := accounts[n];
        FoundByCode(accounts[..n], account.code);
        assert Lookup(byCode, account.code) == FindByCode(accounts[..n], account.code);
        if account.code in byCode {
          var i :| 0 <= i < n && accounts[..n][i].code == account.code;
          assert accounts[i].code == accounts[n].code;
          return false;
        }
        CodeIndexed(byCode, accounts[..n], account);
        byCode := byCode[account.code := account];
        assert accounts[..n + 1] == accounts[..n] + [account];
      }
      assert accounts[..|accounts|] == accounts;
      ok := true;
    }

    /** The same for lookup keys of names. */
    method ValidateUniqueNames() returns (ok: bool)
      requires byName == map[]
      modifies this`byName
      ensures ok <==> DistinctNames(accounts)
      ensures ok ==> IndexesNames(byName, accounts)
    {
      hide DistinctNames, FindByName;
      NoNamesYet(accounts);
      for n := 0 to |accounts|
        invariant DistinctNames(accounts[..n])
        invariant IndexesNames(byName, accounts[..n])
      {
        var account := accounts[n];
        var key := Fold(account.name);
        NameSeen(accounts, n, byName);
        if key in byName {
          return false;
        }
        NameIndexed(byName, accounts[..n], account);
        byName := byName[key := account];
        assert accounts[..n + 1] == accounts[..n] + [account];
      }
      assert accounts[..|accounts|] == accounts;
      ok := true;
    }

    /** What both validators leave behind; a chart that exists has passed them. */
    ghost predicate Indexed()
      reads this
    {
      IndexesCodes(byCode, accounts) && IndexesNames(byName, accounts)
    }

    /** The account of the list with that lookup key, if there is one. */
    method GetByName(name: string) returns (r: Option<Account>)
      requires Indexed()
      ensures r == FindByName(accounts, name)
    {
      var key := Fold(name);
      assert Lookup(byName, Fold(name)) == FindByName(accounts, name);
      r := if key in byName then Some(byName[key]) else None;
    }

    /** The account of the list with that code, if there is one. */
    method GetByCode(code: string) returns (r: Option<Account>)
      requires Indexed()
      ensures r == FindByCode(accounts, code)
    {
      assert Lookup(byCode, code) == FindByCode(accounts, code);
      r := if code in byCode then Some(byCode[code]) else None;
    }
  }
}
