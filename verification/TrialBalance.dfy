/** The trial balance: one grouping query over the postings, and the report built from it. */
module TrialBalance {
  import opened Outcomes
  import opened Text
  import opened Money
  import opened Seqs
  import opened Journals
  import opened Tables
  import opened PostingStore

  /** One group of the query while it is being accumulated. */
  datatype Group = Group(key: string, account: string, debit: int, credit: int)

  datatype BalanceEntry = BalanceEntry(account: string, debit: real, credit: real)

  function Least(a: string, b: string): string {
    if TextLe(a, b) then a else b
  }

  /** Adding one row to the groups seen so far. */
  function Accumulate(groups: seq<Group>, r: PostingRow): seq<Group> {
    if groups == [] then [Group(r.accountKey, r.account, r.debit, r.credit)]
    else if groups[0].key == r.accountKey then
      [Group(r.accountKey, Least(groups[0].account, r.account),
             groups[0].debit + r.debit, groups[0].credit + r.credit)] + groups[1..]
    else [groups[0]] + Accumulate(groups[1..], r)
  }

  /** GROUP BY account_key with MIN(account) and the two SUMs, in one pass over the rows. */
  function Aggregate(rows: seq<PostingRow>): seq<Group> {
    if rows == [] then [] else Accumulate(Aggregate(rows[..|rows| - 1]), rows[|rows| - 1])
  }

  predicate AccountLe(a: Group, b: Group) { TextLe(a.account, b.account) }

  /** WHERE, GROUP BY and ORDER BY together. */
  function Query(rows: seq<PostingRow>, cutoff: Option<int>): seq<Group> {
    SortBy(Aggregate(InScope(rows, cutoff)), AccountLe)
  }

  function BuildBalance(g: Group): Option<BalanceEntry> {
    var reference := BuildReference(g.account);
    if reference.Some? && g.debit >= 0 && g.credit >= 0
    then Some(BalanceEntry(reference.value, FromCents(g.debit), FromCents(g.credit)))
    else None
  }

  function BuildBalances(groups: seq<Group>): Result<seq<BalanceEntry>, ErrorCode> {
    if groups == [] then Ok([])
    else
      var entry := BuildBalance(groups[0]);
      var rest := BuildBalances(groups[1..]);
      if entry.None? then Err(UncaughtValidation)
      else if rest.Err? then rest
      else Ok([entry.value] + rest.value)
  }

  function GetAccountBalances(t: Tables, cutoff: Option<int>): Result<seq<BalanceEntry>, ErrorCode> {
    BuildBalances(Query(t.postings, cutoff))
  }

  function EntryDebit(e: BalanceEntry): real { e.debit }

  function EntryCredit(e: BalanceEntry): real { e.credit }

  function ReportDebits(entries: seq<BalanceEntry>): real { SumReal(entries, EntryDebit) }

  function ReportCredits(entries: seq<BalanceEntry>): real { SumReal(entries, EntryCredit) }

  predicate IsBalanced(entries: seq<BalanceEntry>) { ReportDebits(entries) == ReportCredits(entries) }

  function GroupDebit(g: Group): int { g.debit }

  function GroupCredit(g: Group): int { g.credit }

  /** The group says what filtering the rows by its key and summing them says. */
  ghost predicate GroupRight(g: Group, rows: seq<PostingRow>) {
    var mine := Filter(rows, OfKey(g.key));
    && g.debit == SumBy(mine, PostingDebit) && g.credit == SumBy(mine, PostingCredit)
    && (exists r :: r in mine && r.account == g.account)
    && (forall r :: r in mine ==> TextLe(g.account, r.account))
  }

  ghost predicate DistinctKeys(groups: seq<Group>) {
    forall i, j :: 0 <= i < j < |groups| ==> groups[i].key != groups[j].key
  }

  ghost predicate HasKey(groups: seq<Group>, key: string) {
    exists i :: 0 <= i < |groups| && groups[i].key == key
  }

  lemma {:induction false} AccumulateKeys(groups: seq<Group>, r: PostingRow)
    requires DistinctKeys(groups)
    ensures DistinctKeys(Accumulate(groups, r))
    ensures forall k :: HasKey(Accumulate(groups, r), k) <==> HasKey(groups, k) || k == r.accountKey
  {
    var after := Accumulate(groups, r);
    if groups == [] {
      assert after[0].key == r.accountKey;
    } else if groups[0].key == r.accountKey {
      assert forall i :: 0 <= i < |groups| ==> after[i].key == groups[i].key;
    } else {
      assert groups == [groups[0]] + groups[1..];
      AccumulateKeys(groups[1..], r);
      var tail := Accumulate(groups[1..], r);
      assert forall i :: 1 <= i < |groups| ==> groups[i] == groups[1..][i - 1];
      assert forall i :: 1 <= i < |after| ==> after[i] == tail[i - 1];
      forall i | 0 <= i < |tail|
        ensures tail[i].key != groups[0].key
      {
        assert HasKey(tail, tail[i].key);
        HeadKeyIsNew(groups[0], groups[1..]);
      }
      forall k
        ensures HasKey(after, k) <==> HasKey(groups, k) || k == r.accountKey
      {
        HasKeyCons(groups[0], groups[1..], k);
        HasKeyCons(groups[0], tail, k);
      }
    }
  }

  lemma HeadKeyIsNew(first: Group, rest: seq<Group>)
    requires DistinctKeys([first] + rest)
    ensures !HasKey(rest, first.key)
  {
    var groups := [first] + rest;
    forall i | 0 <= i < |rest|
      ensures rest[i].key != first.key
    {
      assert groups[0].key != groups[i + 1].key;
    }
  }

  lemma HasKeyCons(g: Group, groups: seq<Group>, k: string)
    ensures HasKey([g] + groups, k) <==> g.key == k || HasKey(groups, k)
  {
    var all := [g] + groups;
    assert forall i :: 0 <= i < |groups| ==> all[i + 1] == groups[i];
    if HasKey(groups, k) {
      var i :| 0 <= i < |groups| && groups[i].key == k;
      assert all[i + 1].key == k;
    }
    if g.key == k {
      assert all[0].key == k;
    }
  }

  function Merge(g: Group, r: PostingRow): Group {
    Group(r.accountKey, Least(g.account, r.account), g.debit + r.debit, g.credit + r.credit)
  }

  function Fresh(r: PostingRow): Group { Group(r.accountKey, r.account, r.debit, r.credit) }

  lemma {:induction false} AccumulatedGroup(groups: seq<Group>, r: PostingRow, g: Group)
    requires DistinctKeys(groups) && g in Accumulate(groups, r)
    ensures g.key != r.accountKey ==> g in groups
    ensures g.key == r.accountKey ==>
              if HasKey(groups, r.accountKey)
              then exists old_ :: old_ in groups && old_.key == r.accountKey && g == Merge(old_, r)
              else g == Fresh(r)
  {
    if groups == [] {
    } else if groups[0].key == r.accountKey {
      assert HasKey(groups, r.accountKey);
      if g in groups[1..] {
        var j :| 1 <= j < |groups| && groups[j] == g;
        assert groups[0].key != groups[j].key;
      } else {
        assert g == Merge(groups[0], r);
      }
    } else {
      HasKeyCons(groups[0], groups[1..], r.accountKey);
      assert groups == [groups[0]] + groups[1..];
      if g in Accumulate(groups[1..], r) {
        AccumulatedGroup(groups[1..], r, g);
      } else {
        assert g == groups[0];
      }
    }
  }

  lemma MineAppend(rows: seq<PostingRow>, r: PostingRow, key: string)
    ensures Filter(rows + [r], OfKey(key))
         == Filter(rows, OfKey(key)) + if r.accountKey == key then [r] else []
  {
    FilterAppend(rows, [r], OfKey(key));
    if r.accountKey == key {
      FilterAll([r], OfKey(key));
    } else {
      FilterNone([r], OfKey(key));
    }
  }

  lemma OtherGroupStays(g: Group, rows: seq<PostingRow>, r: PostingRow)
    requires GroupRight(g, rows) && g.key != r.accountKey
    ensures GroupRight(g, rows + [r])
  {
    MineAppend(rows, r, g.key);
    assert Filter(rows, OfKey(g.key)) + [] == Filter(rows, OfKey(g.key));
  }

  lemma MergedIsRight(g: Group, rows: seq<PostingRow>, r: PostingRow)
    requires GroupRight(g, rows) && g.key == r.accountKey
    ensures GroupRight(Merge(g, r), rows + [r])
  {
    var mine := Filter(rows, OfKey(g.key));
    MineAppend(rows, r, g.key);
    SumAppend(mine, [r], PostingDebit);
    SumAppend(mine, [r], PostingCredit);
    var least := Least(g.account, r.account);
    TextLeTotal(g.account, r.account);
    TextLeTotal(r.account, r.account);
    var q :| q in mine && q.account == g.account;
    assert (if TextLe(g.account, r.account) then q else r) in mine + [r];
    forall p | p in mine + [r]
      ensures TextLe(least, p.account)
    {
      if p in mine {
        TextLeTransitive(least, g.account, p.account);
      }
    }
  }

  lemma FreshIsRight(rows: seq<PostingRow>, r: PostingRow)
    requires Filter(rows, OfKey(r.accountKey)) == []
    ensures GroupRight(Fresh(r), rows + [r])
  {
    MineAppend(rows, r, r.accountKey);
    TextLeTotal(r.account, r.account);
    assert [r][0] in [r] && [r][1..] == [];
    assert SumBy([r], PostingDebit) == r.debit && SumBy([r], PostingCredit) == r.credit;
  }

  ghost predicate Keyed(rows: seq<PostingRow>, key: string) {
    exists r :: r in rows && r.accountKey == key
  }

  lemma KeyedAppend(rows: seq<PostingRow>, r: PostingRow, key: string)
    ensures Keyed(rows + [r], key) <==> Keyed(rows, key) || r.accountKey == key
  {
  }

  /** One group per key that occurs, and each group equal to filtering and summing. */
  lemma {:induction false} AggregateIsFilterAndSum(rows: seq<PostingRow>)
    ensures DistinctKeys(Aggregate(rows))
    ensures forall k :: HasKey(Aggregate(rows), k) <==> Keyed(rows, k)
    ensures forall g :: g in Aggregate(rows) ==> GroupRight(g, rows)
  {
    hide GroupRight;
    if rows != [] {
      var before, r := rows[..|rows| - 1], rows[|rows| - 1];
      assert rows == before + [r];
      AggregateIsFilterAndSum(before);
      var groups := Aggregate(before);
      AccumulateKeys(groups, r);
      forall k
        ensures HasKey(Aggregate(rows), k) <==> Keyed(rows, k)
      {
        KeyedAppend(before, r, k);
      }
      forall g | g in Aggregate(rows)
        ensures GroupRight(g, rows)
      {
        GroupAfter(before, r, g);
      }
    }
  }

  lemma GroupAfter(before: seq<PostingRow>, r: PostingRow, g: Group)
    requires DistinctKeys(Aggregate(before))
    requires forall k :: HasKey(Aggregate(before), k) <==> Keyed(before, k)
    requires forall g :: g in Aggregate(before) ==> GroupRight(g, before)
    requires g in Accumulate(Aggregate(before), r)
    ensures GroupRight(g, before + [r])
  {
    hide GroupRight;
    AccumulatedGroup(Aggregate(before), r, g);
    if g.key != r.accountKey {
      OtherGroupStays(g, before, r);
    } else if HasKey(Aggregate(before), r.accountKey) {
      var old_ :| old_ in Aggregate(before) && old_.key == r.accountKey && g == Merge(old_, r);
      MergedIsRight(old_, before, r);
    } else {
      assert !Keyed(before, r.accountKey);
      FilterNone(before, OfKey(r.accountKey));
      FreshIsRight(before, r);
    }
  }

  lemma {:induction false} AccumulateTotals(groups: seq<Group>, r: PostingRow)
    ensures SumBy(Accumulate(groups, r), GroupDebit) == SumBy(groups, GroupDebit) + r.debit
    ensures SumBy(Accumulate(groups, r), GroupCredit) == SumBy(groups, GroupCredit) + r.credit
  {
    if groups == [] {
    } else if groups[0].key == r.accountKey {
      assert Accumulate(groups, r)[1..] == groups[1..];
    } else {
      AccumulateTotals(groups[1..], r);
      assert Accumulate(groups, r)[1..] == Accumulate(groups[1..], r);
    }
  }

  /** Grouping loses nothing: the totals over the groups are the flat totals over the rows. */
  lemma {:induction false} AggregateTotals(rows: seq<PostingRow>)
    ensures SumBy(Aggregate(rows), GroupDebit) == SumBy(rows, PostingDebit)
    ensures SumBy(Aggregate(rows), GroupCredit) == SumBy(rows, PostingCredit)
  {
    if rows != [] {
      var before, r := rows[..|rows| - 1], rows[|rows| - 1];
      assert rows == before + [r];
      AggregateTotals(before);
      AccumulateTotals(Aggregate(before), r);
      SumAppend(before, [r], PostingDebit);
      SumAppend(before, [r], PostingCredit);
    }
  }

  /** Each posting row carries the key of its own account name and sums of its own kind. */
  ghost predicate ReportableRow(r: PostingRow) {
    r.accountKey == Fold(r.account) && StoredReference(r.account) && r.debit >= 0 && r.credit >= 0
  }

  lemma {:induction false} SumNonNegative(rows: seq<PostingRow>)
    requires forall r :: r in rows ==> r.debit >= 0 && r.credit >= 0
    ensures SumBy(rows, PostingDebit) >= 0 && SumBy(rows, PostingCredit) >= 0
  {
    if rows != [] {
      SumNonNegative(rows[1..]);
    }
  }

  /** A group of reportable rows displays a name that folds to its key, and passes validation. */
  lemma GroupIsReportable(g: Group, rows: seq<PostingRow>)
    requires GroupRight(g, rows) && forall r :: r in rows ==> ReportableRow(r)
    ensures Fold(g.account) == g.key
    ensures BuildBalance(g) == Some(BalanceEntry(g.account, FromCents(g.debit), FromCents(g.credit)))
  {
    var mine := Filter(rows, OfKey(g.key));
    var r :| r in mine && r.account == g.account;
    assert ReportableRow(r);
    assert forall p :: p in mine ==> ReportableRow(p);
    SumNonNegative(mine);
  }

  function PlainBalances(groups: seq<Group>): (entries: seq<BalanceEntry>)
    ensures |entries| == |groups|
    ensures forall i :: 0 <= i < |groups| ==>
              entries[i] == BalanceEntry(groups[i].account, FromCents(groups[i].debit), FromCents(groups[i].credit))
  {
    seq(|groups|, i requires 0 <= i < |groups| =>
      BalanceEntry(groups[i].account, FromCents(groups[i].debit), FromCents(groups[i].credit)))
  }

  lemma {:induction false} BalancesBuild(groups: seq<Group>)
    requires forall g :: g in groups ==>
               BuildBalance(g) == Some(BalanceEntry(g.account, FromCents(g.debit), FromCents(g.credit)))
    ensures BuildBalances(groups) == Ok(PlainBalances(groups))
  {
    hide BuildBalance, FromCents;
    if groups == [] {
      assert PlainBalances(groups) == [];
    } else {
      BalancesBuild(groups[1..]);
      assert groups[0] in groups;
      assert PlainBalances(groups) == [PlainBalances(groups)[0]] + PlainBalances(groups[1..]);
    }
  }

  lemma {:induction false} ReportTotals(groups: seq<Group>)
    ensures ReportDebits(PlainBalances(groups)) == FromCents(SumBy(groups, GroupDebit))
    ensures ReportCredits(PlainBalances(groups)) == FromCents(SumBy(groups, GroupCredit))
  {
    if groups != [] {
      ReportTotals(groups[1..]);
      assert PlainBalances(groups)[1..] == PlainBalances(groups[1..]);
    }
  }

  lemma AccountOrder()
    ensures Preorder(AccountLe)
  {
    forall x: Group, y: Group
      ensures AccountLe(x, y) || AccountLe(y, x)
    {
      TextLeTotal(x.account, y.account);
    }
    forall x: Group, y: Group, z: Group | AccountLe(x, y) && AccountLe(y, z)
      ensures AccountLe(x, z)
    {
      TextLeTransitive(x.account, y.account, z.account);
    }
  }

  lemma {:induction false} InsertKeepsKeys(g: Group, groups: seq<Group>)
    requires DistinctKeys(groups) && !HasKey(groups, g.key)
    ensures DistinctKeys(InsertBy(g, groups, AccountLe))
    ensures forall k :: HasKey(InsertBy(g, groups, AccountLe), k) <==> HasKey(groups, k) || g.key == k
  {
    var after := InsertBy(g, groups, AccountLe);
    if groups == [] || AccountLe(g, groups[0]) {
      forall k
        ensures HasKey(after, k) <==> HasKey(groups, k) || g.key == k
      {
        HasKeyCons(g, groups, k);
      }
      forall j | 0 <= j < |groups|
        ensures groups[j].key != g.key
      {
        assert groups[j].key == g.key ==> HasKey(groups, g.key);
      }
    } else {
      var first, rest := groups[0], groups[1..];
      assert groups == [first] + rest;
      HasKeyCons(first, rest, g.key);
      InsertKeepsKeys(g, rest);
      var tail := InsertBy(g, rest, AccountLe);
      forall j | 0 <= j < |tail|
        ensures tail[j].key != first.key
      {
        assert HasKey(tail, tail[j].key);
        HeadKeyIsNew(first, rest);
      }
      forall k
        ensures HasKey(after, k) <==> HasKey(groups, k) || g.key == k
      {
        HasKeyCons(first, rest, k);
        HasKeyCons(first, tail, k);
      }
    }
  }

  lemma {:induction false} SortKeepsKeys(groups: seq<Group>)
    requires DistinctKeys(groups)
    ensures DistinctKeys(SortBy(groups, AccountLe))
    ensures forall k :: HasKey(SortBy(groups, AccountLe), k) <==> HasKey(groups, k)
  {
    if groups != [] {
      var first, rest := groups[0], groups[1..];
      assert groups == [first] + rest;
      SortKeepsKeys(rest);
      HeadKeyIsNew(first, rest);
      InsertKeepsKeys(first, SortBy(rest, AccountLe));
      forall k
        ensures HasKey(SortBy(groups, AccountLe), k) <==> HasKey(groups, k)
      {
        HasKeyCons(first, rest, k);
      }
    }
  }

  predicate StrictlyBefore(a: string, b: string) { TextLe(a, b) && a != b }

  /** Totals of one account the slow way: list its postings as the account lookup does, keep
      those up to the cutoff, and sum. */
  function ListedDebits(t: Tables, account: string, cutoff: Option<int>): int {
    SumBy(InScope(AccountRows(t, account), cutoff), PostingDebit)
  }

  function ListedCredits(t: Tables, account: string, cutoff: Option<int>): int {
    SumBy(InScope(AccountRows(t, account), cutoff), PostingCredit)
  }

  lemma DateOrder()
    ensures Preorder(DateLe)
  {
  }

  /** What the rows of one lookup key dated on or before the cutoff debit and credit. */
  function KeyDebitsBy(rows: seq<PostingRow>, key: string, cutoff: Option<int>): int {
    if rows == [] then 0
    else
      (if rows[0].accountKey == key && (cutoff.None? || rows[0].date <= cutoff.value) then rows[0].debit else 0)
      + KeyDebitsBy(rows[1..], key, cutoff)
  }

  function KeyCreditsBy(rows: seq<PostingRow>, key: string, cutoff: Option<int>): int {
    if rows == [] then 0
    else
      (if rows[0].accountKey == key && (cutoff.None? || rows[0].date <= cutoff.value) then rows[0].credit else 0)
      + KeyCreditsBy(rows[1..], key, cutoff)
  }

  lemma {:induction false} ScopeSums(rows: seq<PostingRow>, cutoff: Option<int>)
    ensures SumBy(InScope(rows, cutoff), PostingDebit) == DebitsBy(rows, cutoff)
    ensures SumBy(InScope(rows, cutoff), PostingCredit) == CreditsBy(rows, cutoff)
  {
    if rows != [] {
      ScopeSums(rows[1..], cutoff);
      ScopeCons(rows, cutoff);
      SumCons(rows[0], InScope(rows[1..], cutoff));
    }
  }

  lemma ScopeCons(rows: seq<PostingRow>, cutoff: Option<int>)
    requires rows != []
    ensures InScope(rows, cutoff)
         == if UpTo(cutoff)(rows[0]) then [rows[0]] + InScope(rows[1..], cutoff) else InScope(rows[1..], cutoff)
  {
    assert [] + InScope(rows[1..], cutoff) == InScope(rows[1..], cutoff);
  }

  lemma SumCons(r: PostingRow, rows: seq<PostingRow>)
    ensures SumBy([r] + rows, PostingDebit) == r.debit + SumBy(rows, PostingDebit)
    ensures SumBy([r] + rows, PostingCredit) == r.credit + SumBy(rows, PostingCredit)
  {
    assert ([r] + rows)[1..] == rows;
  }

  lemma {:induction false} KeyScopeSums(rows: seq<PostingRow>, key: string, cutoff: Option<int>)
    ensures SumBy(Filter(InScope(rows, cutoff), OfKey(key)), PostingDebit) == KeyDebitsBy(rows, key, cutoff)
    ensures SumBy(Filter(InScope(rows, cutoff), OfKey(key)), PostingCredit) == KeyCreditsBy(rows, key, cutoff)
  {
    if rows != [] {
      var rest := InScope(rows[1..], cutoff);
      KeyScopeSums(rows[1..], key, cutoff);
      ScopeCons(rows, cutoff);
      hide InScope, Filter, SumBy;
      FilterCons(rows[0], rest, OfKey(key));
      SumCons(rows[0], Filter(rest, OfKey(key)));
      assert [] + Filter(rest, OfKey(key)) == Filter(rest, OfKey(key));
    }
  }

  /** Listing an account, keeping what is dated on or before the cutoff and summing gives the
      sums over the account's rows of those dates. */
  lemma ListedIsFiltered(t: Tables, account: string, cutoff: Option<int>)
    ensures ListedDebits(t, account, cutoff)
         == SumBy(Filter(InScope(t.postings, cutoff), OfKey(Fold(account))), PostingDebit)
         == KeyDebitsBy(t.postings, Fold(account), cutoff)
    ensures ListedCredits(t, account, cutoff)
         == SumBy(Filter(InScope(t.postings, cutoff), OfKey(Fold(account))), PostingCredit)
         == KeyCreditsBy(t.postings, Fold(account), cutoff)
  {
    var mine := Filter(t.postings, OfKey(Fold(account)));
    DateOrder();
    FilterSorted(mine, DateLe, DateLe, UpTo(cutoff));
    SumSorted(Filter(mine, UpTo(cutoff)), DateLe, PostingDebit);
    SumSorted(Filter(mine, UpTo(cutoff)), DateLe, PostingCredit);
    FilterSwap(t.postings, OfKey(Fold(account)), UpTo(cutoff));
    KeyScopeSums(t.postings, Fold(account), cutoff);
  }

  /** An account's listing: its postings and no others, earliest first. */
  lemma AccountListing(t: Tables, account: string)
    ensures var rows := AccountRows(t, account);
            && (forall r :: r in rows <==> r in t.postings && r.accountKey == Fold(account))
            && (forall i, j :: 0 <= i < j < |rows| ==> rows[i].date <= rows[j].date)
  {
    var mine := Filter(t.postings, OfKey(Fold(account)));
    SortedMembers(mine, DateLe);
    DateOrder();
    SortGivesOrder(mine, DateLe);
    assert forall i, j :: 0 <= i < j < |AccountRows(t, account)| ==> DateLe(AccountRows(t, account)[i], AccountRows(t, account)[j]);
  }

  /** Some posting of that key is dated on or before the cutoff. */
  ghost predicate DatedBy(rows: seq<PostingRow>, key: string, cutoff: Option<int>) {
    exists r :: r in rows && r.accountKey == key && (cutoff.None? || r.date <= cutoff.value)
  }

  lemma KeyedIsDated(rows: seq<PostingRow>, key: string, cutoff: Option<int>)
    ensures Keyed(InScope(rows, cutoff), key) <==> DatedBy(rows, key, cutoff)
  {
    if DatedBy(rows, key, cutoff) {
      var r :| r in rows && r.accountKey == key && (cutoff.None? || r.date <= cutoff.value);
      assert r in InScope(rows, cutoff);
    }
  }

  /** The report the query gives for reportable rows: it always builds; one row per lookup key
      with a posting dated on or before the cutoff; each row's name folds to its key and its
      totals are those of listing that account and of its rows so dated; the rows are strictly
      ascending; and the report totals are the sums over all rows so dated. */
  lemma ReportRefinesListing(t: Tables, cutoff: Option<int>)
    requires forall r :: r in t.postings ==> ReportableRow(r)
    ensures var groups := Query(t.postings, cutoff);
            && GetAccountBalances(t, cutoff) == Ok(PlainBalances(groups))
            && (forall k :: HasKey(groups, k) <==> DatedBy(t.postings, k, cutoff))
            && DistinctKeys(groups)
            && (forall i :: 0 <= i < |groups| ==>
                  && Fold(groups[i].account) == groups[i].key
                  && groups[i].debit == ListedDebits(t, groups[i].account, cutoff)
                                     == KeyDebitsBy(t.postings, groups[i].key, cutoff)
                  && groups[i].credit == ListedCredits(t, groups[i].account, cutoff)
                                      == KeyCreditsBy(t.postings, groups[i].key, cutoff))
            && (forall i, j :: 0 <= i < j < |groups| ==> StrictlyBefore(groups[i].account, groups[j].account))
            && ReportDebits(PlainBalances(groups)) == FromCents(DebitsBy(t.postings, cutoff))
            && ReportCredits(PlainBalances(groups)) == FromCents(CreditsBy(t.postings, cutoff))
  {
    hide GroupRight, ListedDebits, ListedCredits, InScope, Keyed, DatedBy;
    var rows := InScope(t.postings, cutoff);
    var groups := Query(t.postings, cutoff);
    AggregateIsFilterAndSum(rows);
    SortedMembers(Aggregate(rows), AccountLe);
    SortKeepsKeys(Aggregate(rows));
    AccountOrder();
    SortGivesOrder(Aggregate(rows), AccountLe);
    forall k
      ensures HasKey(groups, k) <==> DatedBy(t.postings, k, cutoff)
    {
      KeyedIsDated(t.postings, k, cutoff);
    }
    forall g | g in groups
      ensures Fold(g.account) == g.key
      ensures BuildBalance(g) == Some(BalanceEntry(g.account, FromCents(g.debit), FromCents(g.credit)))
      ensures g.debit == ListedDebits(t, g.account, cutoff) == KeyDebitsBy(t.postings, g.key, cutoff)
      ensures g.credit == ListedCredits(t, g.account, cutoff) == KeyCreditsBy(t.postings, g.key, cutoff)
    {
      GroupIsListed(t, cutoff, g);
    }
    BalancesBuild(groups);
    ReportTotals(groups);
    AggregateTotals(rows);
    ScopeSums(t.postings, cutoff);
    SumSorted(Aggregate(rows), AccountLe, GroupDebit);
    SumSorted(Aggregate(rows), AccountLe, GroupCredit);
    forall i, j | 0 <= i < j < |groups|
      ensures StrictlyBefore(groups[i].account, groups[j].account)
    {
      assert groups[i] in groups && groups[j] in groups;
      assert AccountLe(groups[i], groups[j]);
    }
  }

  lemma GroupIsListed(t: Tables, cutoff: Option<int>, g: Group)
    requires forall r :: r in t.postings ==> ReportableRow(r)
    requires GroupRight(g, InScope(t.postings, cutoff))
    ensures Fold(g.account) == g.key
    ensures BuildBalance(g) == Some(BalanceEntry(g.account, FromCents(g.debit), FromCents(g.credit)))
    ensures g.debit == ListedDebits(t, g.account, cutoff) == KeyDebitsBy(t.postings, g.key, cutoff)
    ensures g.credit == ListedCredits(t, g.account, cutoff) == KeyCreditsBy(t.postings, g.key, cutoff)
  {
    GroupIsReportable(g, InScope(t.postings, cutoff));
    ListedIsFiltered(t, g.account, cutoff);
  }

  /** Postings dated after the cutoff change no report, wherever they stand in the table. */
  lemma LaterIsUnseen(before: seq<PostingRow>, late: seq<PostingRow>, after: seq<PostingRow>, cutoff: int)
    requires forall r :: r in late ==> r.date > cutoff
    ensures Query(before + late + after, Some(cutoff)) == Query(before + after, Some(cutoff))
  {
    FilterAppend(before + late, after, UpTo(Some(cutoff)));
    FilterAppend(before, late, UpTo(Some(cutoff)));
    FilterAppend(before, after, UpTo(Some(cutoff)));
    FilterNone(late, UpTo(Some(cutoff)));
    assert InScope(before, Some(cutoff)) + [] == InScope(before, Some(cutoff));
  }
}
