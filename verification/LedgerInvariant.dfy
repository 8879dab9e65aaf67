/** Every step of the ledger machine keeps its invariant. */
module LedgerInvariant {
  import opened Outcomes
  import opened Text
  import opened AccountNames
  import opened Accounts
  import opened Seqs
  import opened Journals
  import opened Tables
  import opened JournalStore
  import opened PostingStore
  import AccountStore
  import AccountService
  import JournalService
  import PostingService
  import opened LedgerMachine

  lemma HeldStays(t: Tables, t': Tables, added: Option<int>, number: int, e: Entry)
    requires Grows(t, t', added) && HoldsEntry(t, number, e)
    ensures HoldsEntry(t', number, e)
  {
  }

  /** What a waiting call relies on survives the steps of the others. */
  lemma CallStays(t: Tables, t': Tables, added: Option<int>, c: Call, now: int, now': int)
    requires CallOk(t, c, now) && Grows(t, t', added) && now <= now'
    requires Reserved(c).Some? && !Created(c) ==> Reserved(c) != added
    ensures CallOk(t', c, now')
  {
    match c
    case AccountTask(a) =>
    case EntryTask(e) =>
      if Created(c) {
        assert e.result.value.number in EntryNumbers(t.entries);
      }
    case PostTask(p) =>
      if p.PostLoaded? {
        HeldStays(t, t', added, p.number, p.entry);
      } else if p.PostChecked? {
        var held :| HoldsEntry(t, p.number, held) && p.batch == PlainPostings(held);
        HeldStays(t, t', added, p.number, held);
      }
  }

  /** A journal with the same rows is as well formed, later and with more numbers taken. */
  lemma SameJournal(t: Tables, t': Tables, now: int, now': int)
    requires JournalOk(t, now) && now <= now'
    requires t'.entries == t.entries && t'.lines == t.lines && t.lastNumber <= t'.lastNumber
    ensures JournalOk(t', now')
  {
  }

  lemma SamePostings(t: Tables, t': Tables)
    requires PostingsOk(t)
    requires t'.entries == t.entries && t'.lines == t.lines && t'.postings == t.postings
    ensures PostingsOk(t')
  {
    forall n
      ensures PostedOnce(t', n)
    {
      assert PostedOnce(t, n);
      assert LinesOf(t', n) == LinesOf(t, n);
    }
  }

  lemma SameGrows(t: Tables, t': Tables)
    requires t'.entries == t.entries && t'.lines == t.lines && t'.postings == t.postings
    requires t.lastNumber <= t'.lastNumber
    ensures Grows(t, t', None)
  {
  }

  lemma WrittenRows(t: Tables, a: Account, actor: string)
    requires AccountStore.AccountsOk(t.accounts) && AccountStore.AuditOk(t.accounts, t.audit)
    ensures AccountStore.GoodRow(AccountStore.RowOf(a)) ==>
              AccountStore.AccountsOk(AccountStore.CreateTx(t, a, actor).0.accounts)
    ensures AccountStore.GoodRow(AccountStore.RowOf(a)) ==>
              AccountStore.AccountsOk(AccountStore.UpdateTx(t, a, actor).0.accounts)
    ensures AccountStore.AccountsOk(AccountStore.DeleteTx(t, a.code, actor).0.accounts)
    ensures AccountStore.AuditOk(AccountStore.CreateTx(t, a, actor).0.accounts, AccountStore.CreateTx(t, a, actor).0.audit)
    ensures AccountStore.AuditOk(AccountStore.UpdateTx(t, a, actor).0.accounts, AccountStore.UpdateTx(t, a, actor).0.audit)
    ensures AccountStore.AuditOk(AccountStore.DeleteTx(t, a.code, actor).0.accounts, AccountStore.DeleteTx(t, a.code, actor).0.audit)
  {
    hide AccountStore.AccountsOk, AccountStore.AuditOk;
    if AccountStore.GoodRow(AccountStore.RowOf(a)) {
      AccountStore.CreateKeepsRows(t, a, actor);
      AccountStore.UpdateKeepsRows(t, a, actor);
    }
    AccountStore.DeleteKeepsRows(t, a.code, actor);
    AccountStore.AccountWritesKeepAudit(t, a, actor);
  }

  lemma AccountTables(t: Tables, a: AccountService.AccountCall, now: int)
    requires AccountStore.AccountsOk(t.accounts) && AccountStore.AuditOk(t.accounts, t.audit) && AccountCallOk(a)
    ensures var t' := AccountService.Step(t, a, now).0;
            && AccountStore.AccountsOk(t'.accounts) && AccountStore.AuditOk(t'.accounts, t'.audit)
            && t' == t.(accounts := t'.accounts, audit := t'.audit)
  {
    hide AccountStore.AccountsOk, AccountStore.AuditOk;
    match a {
      case CreateChecked(account, actor) => WrittenRows(t, account, actor);
      case UpdateChecked(account, actor) => WrittenRows(t, account, actor);
      case DeleteChecked(code, actor) => WrittenRows(t, Account(code, "", Asset), actor);
      case _ =>
    }
  }

  lemma AccountNext(t: Tables, a: AccountService.AccountCall, now: int)
    requires AccountCallOk(a)
    ensures AccountCallOk(AccountService.Step(t, a, now).1)
  {
  }

  lemma AccountTurn(t: Tables, a: AccountService.AccountCall, now: int)
    requires TablesOk(t, now) && AccountCallOk(a)
    ensures var (t', a') := AccountService.Step(t, a, now);
            && TablesOk(t', now) && AccountCallOk(a')
            && t' == t.(accounts := t'.accounts, audit := t'.audit)
            && Grows(t, t', None)
  {
    hide AccountService.Step;
    var t' := AccountService.Step(t, a, now).0;
    AccountTables(t, a, now);
    AccountNext(t, a, now);
    SameJournal(t, t', now, now);
    SamePostings(t, t');
    SameGrows(t, t');
  }

  lemma ResolvedIsTrimmed(t: Tables, input: EntryInput, actor: string, now: int)
    requires TablesOk(t, now)
    ensures var e := JournalService.Step(t, JournalService.EntryAsked(input, actor), now).1;
            EntryCallOk(t, e, now) && (e.EntryDone? ==> e.reserved == None)
  {
    var e := JournalService.Step(t, JournalService.EntryAsked(input, actor), now).1;
    if e.EntryResolved? {
      var accounts := AccountStore.ListAll(t).value;
      forall i | 0 <= i < |input.lines|
        ensures Strip(input.lines[i].account) == input.lines[i].account
      {
        var found := FindByName(accounts, input.lines[i].account).value;
        var k :| 0 <= k < |accounts| && accounts[k] == found;
        assert AccountStore.Decode(t.accounts[k]) == Some(found);
        SharedKeyIsTrimmed(input.lines[i].account, found.name);
      }
    }
  }

  /** A built line of trimmed input refers to the account by the very text given. */
  lemma BuiltReference(l: LineInput, built: Line)
    requires BuildLine(l.account, l.debit, l.credit) == Some(built) && Strip(l.account) == l.account
    ensures built.account == l.account && StoredReference(built.account) && ValidLine(built)
  {
  }

  lemma NumberedTurn(t: Tables, number: int, input: EntryInput, actor: string, now: int)
    requires EntryCallOk(t, JournalService.EntryNumbered(number, input, actor), now)
    ensures var e := JournalService.Step(t, JournalService.EntryNumbered(number, input, actor), now).1;
            EntryCallOk(t, e, now) && Reserved(EntryTask(e)) == Some(number) && !Created(EntryTask(e))
  {
    var e := JournalService.Step(t, JournalService.EntryNumbered(number, input, actor), now).1;
    if e.EntryBuilt? {
      forall i | 0 <= i < |e.entry.lines|
        ensures ValidLine(e.entry.lines[i]) && StoredReference(e.entry.lines[i].account)
      {
        BuiltReference(input.lines[i], e.entry.lines[i]);
      }
    }
  }

  lemma NextIsOpen(t: Tables, now: int)
    requires JournalOk(t, now)
    ensures Open(t.(lastNumber := t.lastNumber + 1), t.lastNumber + 1)
  {
  }

  lemma ReserveTurn(t: Tables, input: EntryInput, actor: string, now: int)
    requires TablesOk(t, now) && TrimmedInput(input)
    ensures var (t', e) := JournalService.Step(t, JournalService.EntryResolved(input, actor), now);
            && TablesOk(t', now) && EntryCallOk(t', e, now)
            && e == JournalService.EntryNumbered(t.lastNumber + 1, input, actor)
            && t' == t.(lastNumber := t.lastNumber + 1)
            && Grows(t, t', None)
  {
    hide JournalOk, PostingsOk, Grows, BalancedBooks, AccountStore.AccountsOk, AccountStore.AuditOk, TrimmedInput;
    var t' := t.(lastNumber := t.lastNumber + 1);
    NextIsOpen(t, now);
    SameJournal(t, t', now, now);
    SamePostings(t, t');
    SameGrows(t, t');
  }

  lemma SaveGrows(t: Tables, entry: Entry, actor: string, now: int)
    requires JournalOk(t, now) && ValidEntry(entry, now) && ReferencesStorable(entry) && Open(t, entry.number)
    requires SaveTx(t, entry, actor, now).1.Ok?
    ensures var t' := SaveTx(t, entry, actor, now).0;
            && Grows(t, t', Some(entry.number)) && SavedAs(t', entry, actor)
            && forall n :: n != entry.number ==>
                 FindEntry(t'.entries, n) == FindEntry(t.entries, n) && LinesOf(t', n) == LinesOf(t, n)
  {
    hide JournalOk, ValidEntry, ReferencesStorable, Commits;
    SaveShows(t, entry, actor, now);
    NumbersAppend(t.entries, HeaderOf(entry, actor));
    hide LinesOf, LineRowsOf, HeaderOf, FindEntry;
  }

  lemma SaveKeepsPosted(t: Tables, t': Tables, number: int)
    requires PostingsOk(t) && number !in EntryNumbers(t.entries) && t'.postings == t.postings
    requires forall n :: n != number ==>
               FindEntry(t'.entries, n) == FindEntry(t.entries, n) && LinesOf(t', n) == LinesOf(t, n)
    ensures PostingsOk(t')
  {
    forall n
      ensures PostedOnce(t', n)
    {
      assert PostedOnce(t, n);
    }
  }

  lemma SaveTurn(t: Tables, entry: Entry, actor: string, now: int)
    requires TablesOk(t, now) && ValidEntry(entry, now) && ReferencesStorable(entry) && Open(t, entry.number)
    ensures var (t', r) := SaveTx(t, entry, actor, now);
            && TablesOk(t', now)
            && Grows(t, t', if r.Ok? then Some(entry.number) else None)
            && (r.Ok? ==> SavedAs(t', entry, actor))
            && t' == t.(entries := t'.entries, lines := t'.lines)
            && (r.Err? ==> t' == t)
  {
    hide JournalOk, PostingsOk, Grows, SavedAs, ValidEntry, ReferencesStorable, AccountStore.AuditOk;
    SameGrows(t, t);
    var (t', r) := SaveTx(t, entry, actor, now);
    if r.Ok? {
      SaveKeepsJournal(t, entry, actor, now);
      SaveGrows(t, entry, actor, now);
      SaveKeepsPosted(t, t', entry.number);
    }
  }

  /** What one step of a creating call does to the numbers, the journal and the call. */
  ghost predicate EntryStepOk(t: Tables, t': Tables, e: JournalService.EntryCall, e': JournalService.EntryCall, now: int) {
    var before, after := EntryTask(e), EntryTask(e');
    && TablesOk(t', now) && EntryCallOk(t', e', now)
    && t'.postings == t.postings
    && Grows(t, t', if Created(after) && !Created(before) then Reserved(after) else None)
    && (Reserved(before).Some? ==> Reserved(after) == Reserved(before) && t'.lastNumber == t.lastNumber)
    && (Reserved(before).None? ==>
          if Reserved(after).Some?
          then Reserved(after) == Some(t'.lastNumber) && t'.lastNumber == t.lastNumber + 1
          else t' == t)
  }

  lemma BuiltTurn(t: Tables, entry: Entry, actor: string, now: int)
    requires TablesOk(t, now) && EntryCallOk(t, JournalService.EntryBuilt(entry, actor), now)
    ensures var e := JournalService.EntryBuilt(entry, actor);
            var (t', e') := JournalService.Step(t, e, now);
            EntryStepOk(t, t', e, e', now)
  {
    hide TablesOk, Grows, SaveTx;
    SaveTurn(t, entry, actor, now);
    var (t', r) := SaveTx(t, entry, actor, now);
    var (u, e') := JournalService.Step(t, JournalService.EntryBuilt(entry, actor), now);
    assert u == t';
    assert e' == JournalService.EntryDone(Some(entry.number), if r.Ok? then Ok(entry) else Err(r.error), actor);
  }

  lemma EntryTurn(t: Tables, e: JournalService.EntryCall, now: int)
    requires TablesOk(t, now) && EntryCallOk(t, e, now)
    ensures var (t', e') := JournalService.Step(t, e, now);
            EntryStepOk(t, t', e, e', now)
  {
    hide TablesOk, Grows, SaveTx;
    SameGrows(t, t);
    match e
    case EntryAsked(input, actor) =>
      ResolvedIsTrimmed(t, input, actor, now);
    case EntryResolved(input, actor) =>
      ReserveTurn(t, input, actor, now);
    case EntryNumbered(number, input, actor) =>
      NumberedTurn(t, number, input, actor, now);
    case EntryBuilt(entry, actor) =>
      BuiltTurn(t, entry, actor, now);
    case EntryDone(_, _, _) =>
  }

  lemma PostAskedTurn(t: Tables, number: int, actor: string, now: int)
    requires JournalOk(t, now)
    ensures var (t', p) := PostingService.Step(t, PostingService.PostAsked(number, actor), now);
            t' == t && PostCallOk(t, p) && !PostedBy(PostTask(p), number)
  {
    var header := FindEntry(t.entries, number);
    if header.Some? {
      ReadableIffRoundedBalance(t, header.value, now);
    }
  }

  lemma PostLoadedTurn(t: Tables, number: int, entry: Entry, actor: string, now: int)
    requires JournalOk(t, now) && HoldsEntry(t, number, entry) && NonBlank(actor)
    ensures var (t', p) := PostingService.Step(t, PostingService.PostLoaded(number, entry, actor), now);
            t' == t && PostCallOk(t, p) && !PostedBy(PostTask(p), number)
  {
    hide JournalOk, HoldsEntry;
    HeldBatch(t, number, entry, actor, now);
  }

  lemma PostTurn(t: Tables, p: PostingService.PostCall, now: int)
    requires TablesOk(t, now) && PostCallOk(t, p)
    ensures var (t', p') := PostingService.Step(t, p, now);
            && TablesOk(t', now) && PostCallOk(t', p')
            && t' == t.(postings := t'.postings)
            && Grows(t, t', None)
            && (t' != t ==> PostedBy(PostTask(p'), p.number))
            && (PostedBy(PostTask(p'), p.number) ==>
                  p' == p || Filter(t.postings, OfJournal(p.number)) == [])
            && forall n :: n != p.number ==>
                 Filter(t'.postings, OfJournal(n)) == Filter(t.postings, OfJournal(n))
  {
    hide Grows, HoldsEntry, SaveManyTx;
    SameGrows(t, t);
    match p
    case PostAsked(n, actor) =>
      PostAskedTurn(t, n, actor, now);
    case PostLoaded(n, entry, actor) =>
      PostLoadedTurn(t, n, entry, actor, now);
    case PostChecked(n, batch, actor) =>
      var e :| HoldsEntry(t, n, e) && batch == PlainPostings(e);
      PostCheckedTurn(t, n, e, actor, now);
    case PostDone(_, _, _) =>
  }

  lemma PostCheckedTurn(t: Tables, number: int, e: Entry, actor: string, now: int)
    requires TablesOk(t, now) && HoldsEntry(t, number, e)
    ensures var (t', r) := SaveManyTx(t, PlainPostings(e), actor, now);
            && TablesOk(t', now) && t' == t.(postings := t'.postings) && Grows(t, t', None)
            && (t' != t ==> r.Ok?)
            && (r.Ok? ==>
                  && Filter(t.postings, OfJournal(number)) == [] && PlainPostings(e) != []
                  && Filter(t'.postings, OfJournal(number)) == PostingRowsOf(PlainPostings(e), actor))
            && forall n :: n != number ==>
                 Filter(t'.postings, OfJournal(n)) == Filter(t.postings, OfJournal(n))
  {
    assert PostedOnce(t, number);
    SaveManyOutcome(t, number, e, actor, now);
    if Filter(t.postings, OfJournal(number)) == [] {
      var batch := BatchRows(FindEntry(t.entries, number).value, LinesOf(t, number), actor);
      var t' := t.(postings := t.postings + batch);
      PostedNow(t, number, e, actor, now);
      BatchKeepsBalance(t.postings, FindEntry(t.entries, number).value, LinesOf(t, number), actor);
      SameJournal(t, t', now, now);
      PostedGrows(t, t', number);
    } else {
      SameGrows(t, t);
    }
  }

  lemma PostedGrows(t: Tables, t': Tables, number: int)
    requires t' == t.(postings := t'.postings) && Filter(t.postings, OfJournal(number)) == []
    requires forall n :: n != number ==> Filter(t'.postings, OfJournal(n)) == Filter(t.postings, OfJournal(n))
    ensures Grows(t, t', None)
  {
  }

  function Posted(t: Tables, n: int): seq<PostingRow> { Filter(t.postings, OfJournal(n)) }

  /** What one step of any call does, as the other calls and the tables see it. */
  ghost predicate StepOk(t: Tables, t': Tables, c: Call, c': Call, now: int) {
    && TablesOk(t', now) && CallOk(t', c', now)
    && Grows(t, t', if Created(c') && !Created(c) then Reserved(c') else None)
    && (Reserved(c).Some? ==> Reserved(c') == Reserved(c))
    && (t'.lastNumber == t.lastNumber || t'.lastNumber == t.lastNumber + 1)
    && (t'.lastNumber == t.lastNumber ==> Reserved(c') == Reserved(c))
    && (t'.lastNumber != t.lastNumber ==> Reserved(c).None? && Reserved(c') == Some(t'.lastNumber))
    && (forall n :: PostedBy(c, n) ==> c' == c)
    && (forall n :: PostedBy(c', n) ==> c' == c || Posted(t, n) == [])
    && (forall n :: Posted(t', n) != Posted(t, n) ==> PostedBy(c', n))
  }

  lemma StepIsOk(t: Tables, c: Call, now: int)
    requires TablesOk(t, now) && CallOk(t, c, now)
    ensures var (t', c') := StepCall(t, c, now); StepOk(t, t', c, c', now)
  {
    hide TablesOk, Grows;
    match c
    case AccountTask(a) =>
      AccountTurn(t, a, now);
    case EntryTask(e) =>
      EntryTurn(t, e, now);
    case PostTask(p) =>
      PostTurn(t, p, now);
  }

  lemma ReservedInRange(t: Tables, c: Call, now: int)
    requires CallOk(t, c, now) && Reserved(c).Some?
    ensures 1 <= Reserved(c).value <= t.lastNumber
  {
  }

  lemma CallsStay(s: State, id: nat, t': Tables, c': Call)
    requires Inv(s) && id in s.calls && StepOk(s.t, t', s.calls[id], c', s.now)
    ensures forall j :: j in s.calls && j != id ==> CallOk(t', s.calls[j], s.now)
  {
    hide TablesOk, PostersUnique;
    var c := s.calls[id];
    var added := if Created(c') && !Created(c) then Reserved(c') else None;
    forall j | j in s.calls && j != id
      ensures CallOk(t', s.calls[j], s.now)
    {
      var other := s.calls[j];
      assert CallOk(s.t, other, s.now);
      if Reserved(other).Some? {
        ReservedInRange(s.t, other, s.now);
        assert Reserved(other) != Reserved(c);
        assert Reserved(other) != added;
      }
      CallStays(s.t, t', added, other, s.now, s.now);
    }
  }

  lemma OwnerKept(calls: map<nat, Call>, id: nat, c: Call, n: int)
    requires Owned(calls, n) && (id in calls ==> Reserved(calls[id]).Some? ==> Reserved(c) == Reserved(calls[id]))
    ensures Owned(calls[id := c], n)
  {
    var i :| i in calls && Reserved(calls[i]) == Some(n);
    assert i in calls[id := c] && Reserved(calls[id := c][i]) == Some(n);
  }

  lemma PosterKept(calls: map<nat, Call>, id: nat, c: Call, n: int)
    requires HasPoster(calls, n) && (id in calls ==> PostedBy(calls[id], n) ==> c == calls[id])
    ensures HasPoster(calls[id := c], n)
  {
    var i :| i in calls && PostedBy(calls[i], n);
    assert i in calls[id := c] && PostedBy(calls[id := c][i], n);
  }

  lemma NumbersStay(s: State, id: nat, t': Tables, c': Call)
    requires Inv(s) && id in s.calls && StepOk(s.t, t', s.calls[id], c', s.now)
    ensures NumbersOwned(s.calls[id := c'], t'.lastNumber)
  {
    hide TablesOk, PostersUnique, Grows, Owned;
    var calls := s.calls[id := c'];
    forall j | j in s.calls && Reserved(s.calls[j]).Some?
      ensures 1 <= Reserved(s.calls[j]).value <= s.t.lastNumber
    {
      ReservedInRange(s.t, s.calls[j], s.now);
    }
    forall n | 1 <= n <= t'.lastNumber
      ensures Owned(calls, n)
    {
      if n <= s.t.lastNumber {
        OwnerKept(s.calls, id, c', n);
      } else {
        NewOwner(s.calls, id, c', n);
      }
    }
  }

  lemma NewOwner(calls: map<nat, Call>, id: nat, c: Call, n: int)
    requires Reserved(c) == Some(n)
    ensures Owned(calls[id := c], n)
  {
    assert id in calls[id := c];
  }

  lemma PostedShows(t: Tables, c: Call, n: int, now: int)
    requires CallOk(t, c, now) && PostedBy(c, n)
    ensures Posted(t, n) != []
  {
  }

  /** Replacing one call keeps one poster per posted number, when a finished poster stays as it
      is and only the replaced call can have posted something new. */
  lemma PostersKept(calls: map<nat, Call>, id: nat, c': Call, t: Tables, t': Tables)
    requires PostersUnique(calls, t.postings) && id in calls
    requires forall j, n | j in calls :: PostedBy(calls[j], n) ==> Posted(t, n) != []
    requires forall n :: PostedBy(calls[id], n) ==> c' == calls[id]
    requires forall n :: PostedBy(c', n) ==> c' == calls[id] || Posted(t, n) == []
    requires forall n :: Posted(t', n) != Posted(t, n) ==> PostedBy(c', n)
    ensures PostersUnique(calls[id := c'], t'.postings)
  {
    hide PostedBy, HasPoster;
    var after := calls[id := c'];
    assert forall j :: j in after ==> after[j] == if j == id then c' else calls[j];
    forall n | Filter(t'.postings, OfJournal(n)) != []
      ensures HasPoster(after, n)
    {
      assert Posted(t', n) != [];
      if Posted(t', n) == Posted(t, n) {
        PosterKept(calls, id, c', n);
      } else {
        NewPoster(calls, id, c', n);
      }
    }
  }

  lemma NewPoster(calls: map<nat, Call>, id: nat, c: Call, n: int)
    requires PostedBy(c, n)
    ensures HasPoster(calls[id := c], n)
  {
    assert id in calls[id := c];
  }

  lemma PostersStay(s: State, id: nat, t': Tables, c': Call)
    requires Inv(s) && id in s.calls && StepOk(s.t, t', s.calls[id], c', s.now)
    ensures PostersUnique(s.calls[id := c'], t'.postings)
  {
    hide TablesOk, NumbersOwned, Grows, CallOk, PostedBy, Posted;
    forall j, n | j in s.calls && PostedBy(s.calls[j], n)
      ensures Posted(s.t, n) != []
    {
      PostedShows(s.t, s.calls[j], n, s.now);
    }
    PostersKept(s.calls, id, c', s.t, t');
  }

  lemma ArriveKeeps(s: State, id: nat, call: Call)
    requires Inv(s) && id !in s.calls && IsArrival(call)
    ensures Inv(s.(calls := s.calls[id := call]))
  {
    hide TablesOk, Owned, HasPoster;
    assert Reserved(call) == None;
    var calls := s.calls[id := call];
    forall n | 1 <= n <= s.t.lastNumber
      ensures Owned(calls, n)
    {
      OwnerKept(s.calls, id, call, n);
    }
    forall n | Filter(s.t.postings, OfJournal(n)) != []
      ensures HasPoster(calls, n)
    {
      PosterKept(s.calls, id, call, n);
    }
  }

  lemma PassKeeps(s: State, elapsed: nat)
    requires Inv(s)
    ensures Inv(s.(now := s.now + elapsed))
  {
  }

  lemma StepKeeps(s: State, ev: Event)
    requires Inv(s)
    ensures Inv(Apply(s, ev))
  {
    hide TablesOk, CallOk, NumbersOwned, PostersUnique;
    match ev
    case Arrive(id, call) =>
      if id !in s.calls && IsArrival(call) {
        ArriveKeeps(s, id, call);
      }
    case Pass(elapsed) => PassKeeps(s, elapsed);
    case Turn(id) =>
      if id in s.calls {
        var (t', c') := StepCall(s.t, s.calls[id], s.now);
        StepIsOk(s.t, s.calls[id], s.now);
        CallsStay(s, id, t', c');
        NumbersStay(s, id, t', c');
        PostersStay(s, id, t', c');
      }
  }

  lemma StartIsOk(now: int)
    ensures Inv(Start(now))
  {
  }

  /** The invariant holds in every reachable state, whatever calls arrive and however their
      steps interleave. */
  lemma {:induction false} Reachable(start: int, events: seq<Event>)
    ensures Inv(Exec(Start(start), events))
  {
    hide Inv, Apply;
    if events == [] {
      StartIsOk(start);
    } else {
      Reachable(start, events[..|events| - 1]);
      StepKeeps(Exec(Start(start), events[..|events| - 1]), events[|events| - 1]);
    }
  }
}
