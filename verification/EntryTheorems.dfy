/** What creating a journal entry does, said of its input and of the tables alone. */
module EntryTheorems {
  import opened Outcomes
  import opened Text
  import opened AccountNames
  import opened Accounts
  import opened Money
  import opened Journals
  import opened Tables
  import opened JournalStore
  import AccountStore
  import JournalService
  import opened LedgerMachine
  import opened LedgerInvariant
  import opened LedgerTheorems
  import opened AccountTheorems

  /** Every stored account can be read. */
  predicate Readable(t: Tables) {
    forall i :: 0 <= i < |t.accounts| ==> |t.accounts[i].name| >= 2
  }

  ghost predicate KeyStored(t: Tables, name: string) {
    exists i :: 0 <= i < |t.accounts| && t.accounts[i].nameKey == Fold(name)
  }

  /** Every line's lookup key is that of a stored account. */
  ghost predicate Resolvable(t: Tables, lines: seq<LineInput>) {
    forall i :: 0 <= i < |lines| ==> KeyStored(t, lines[i].account)
  }

  function Debited(lines: seq<LineInput>): real { if lines == [] then 0.0 else lines[0].debit + Debited(lines[1..]) }

  function Credited(lines: seq<LineInput>): real { if lines == [] then 0.0 else lines[0].credit + Credited(lines[1..]) }

  /** A line with a name of 2 to 100 characters and value on exactly one side. */
  predicate GoodInput(l: LineInput) {
    && 2 <= |l.account| <= 100
    && ((l.debit > 0.0 && l.credit == 0.0) || (l.credit > 0.0 && l.debit == 0.0))
  }

  /** What the domain asks of an entry: two lines or more, each good, a date after the start of
      2020 and not in the future, a description of at most 255 characters, and balance. */
  predicate Acceptable(input: EntryInput, now: int) {
    && |input.lines| >= 2 && 1_577_836_800_000_000 < input.date <= now
    && (input.description.Some? ==> |input.description.value| <= 255)
    && (forall i :: 0 <= i < |input.lines| ==> GoodInput(input.lines[i]))
    && Debited(input.lines) == Credited(input.lines)
  }

  /** What storage asks besides: half a cent or more on a line, and less than the column's
      limit. */
  predicate Fits(lines: seq<LineInput>) {
    forall i :: 0 <= i < |lines| ==>
      && (lines[i].debit >= 0.005 || lines[i].credit >= 0.005)
      && lines[i].debit < 9_999_999_999_999_999.995 && lines[i].credit < 9_999_999_999_999_999.995
  }

  function AsLines(inputs: seq<LineInput>): (lines: seq<Line>)
    ensures |lines| == |inputs|
    ensures forall i :: 0 <= i < |inputs| ==> lines[i] == Line(inputs[i].account, inputs[i].debit, inputs[i].credit)
  {
    seq(|inputs|, i requires 0 <= i < |inputs| => Line(inputs[i].account, inputs[i].debit, inputs[i].credit))
  }

  lemma KnownName(t: Tables, name: string)
    requires AccountStore.AccountsOk(t.accounts) && KeyStored(t, name)
    ensures CleanAccountName(name) == Some(name)
  {
    var i :| 0 <= i < |t.accounts| && t.accounts[i].nameKey == Fold(name);
    assert AccountStore.GoodRow(t.accounts[i]);
    CleanFixpoint(t.accounts[i].name);
    SharedKeyIsTrimmed(name, t.accounts[i].name);
    SameKeySameRule(name, t.accounts[i].name);
    StripTrims(name);
    CleanFixpoint(name);
  }

  lemma KnownLine(t: Tables, l: LineInput)
    requires AccountStore.AccountsOk(t.accounts) && KeyStored(t, l.account)
    ensures BuildLine(l.account, l.debit, l.credit)
         == if GoodInput(l) then Some(Line(l.account, l.debit, l.credit)) else None
  {
    KnownName(t, l.account);
    hide CleanAccountName;
  }

  lemma KnownLines(t: Tables, lines: seq<LineInput>)
    requires AccountStore.AccountsOk(t.accounts) && Resolvable(t, lines)
    ensures BuildLines(lines)
         == if forall i :: 0 <= i < |lines| ==> GoodInput(lines[i]) then Some(AsLines(lines)) else None
  {
    forall i | 0 <= i < |lines|
      ensures BuildLine(lines[i].account, lines[i].debit, lines[i].credit)
           == if GoodInput(lines[i]) then Some(Line(lines[i].account, lines[i].debit, lines[i].credit)) else None
    {
      KnownLine(t, lines[i]);
    }
    hide BuildLine, GoodInput;
    var r := BuildLines(lines);
    if r.Some? {
      assert r.value == AsLines(lines);
    }
  }

  lemma {:induction false} SameTotals(lines: seq<LineInput>)
    ensures TotalDebits(AsLines(lines)) == Debited(lines) && TotalCredits(AsLines(lines)) == Credited(lines)
  {
    if lines != [] {
      SameTotals(lines[1..]);
      assert AsLines(lines)[1..] == AsLines(lines[1..]);
    }
  }

  lemma ResolvedIff(t: Tables, lines: seq<LineInput>)
    requires AccountStore.AccountsOk(t.accounts)
    ensures JournalService.GetChart(t).Ok? <==> Readable(t)
    ensures JournalService.GetChart(t).Err? ==> JournalService.GetChart(t).error == UncaughtValidation
    ensures Readable(t) ==> (JournalService.AllKnown(JournalService.GetChart(t).value, lines) <==> Resolvable(t, lines))
  {
    hide JournalService.GetChart, AccountStore.AccountsOk, AccountStore.Keys, KeyStored, FindByName, Fold;
    ChartOfTable(t);
    assert forall i :: 0 <= i < |t.accounts| ==> t.accounts[i] in t.accounts;
    if Readable(t) {
      forall name
        ensures Fold(name) in AccountStore.Keys(t.accounts) <==> KeyStored(t, name)
      {
        KeyStoredIff(t, name);
      }
    }
  }

  lemma KeyStoredIff(t: Tables, name: string)
    ensures Fold(name) in AccountStore.Keys(t.accounts) <==> KeyStored(t, name)
  {
    if Fold(name) in AccountStore.Keys(t.accounts) {
      var r :| r in t.accounts && r.nameKey == Fold(name);
      var i :| 0 <= i < |t.accounts| && t.accounts[i] == r;
    }
  }

  lemma StorableIff(lines: seq<LineInput>)
    requires forall i :: 0 <= i < |lines| ==> GoodInput(lines[i])
    ensures Storable(AsLines(lines)) <==> Fits(lines)
  {
    forall i | 0 <= i < |lines|
      ensures FitsNumeric(ToCents(lines[i].debit)) <==> lines[i].debit < 9_999_999_999_999_999.995
      ensures FitsNumeric(ToCents(lines[i].credit)) <==> lines[i].credit < 9_999_999_999_999_999.995
    {
      ColumnHolds(lines[i].debit);
      ColumnHolds(lines[i].credit);
    }
    hide FitsNumeric, ToCents;
  }

  /** The entry and its rows are stored as typed, under the next number and the actor's name:
      line i at index i with its two amounts in cents. */
  ghost predicate StoredAsTyped(t: Tables, t': Tables, input: EntryInput, actor: string) {
    var n := t.lastNumber + 1;
    && |t'.lines| == |t.lines| + |input.lines| && t'.lines[..|t.lines|] == t.lines
    && (forall i :: 0 <= i < |input.lines| ==>
          var l := input.lines[i];
          t'.lines[|t.lines| + i] == LineRow(n, i, l.account, ToCents(l.debit), ToCents(l.credit)))
    && t' == t.(lastNumber := n, entries := t.entries + [EntryRow(n, input.date, input.description, actor)], lines := t'.lines)
  }

  /** The answer of a creating call and what it leaves behind, guard by guard. */
  ghost predicate EntryAnswered(t: Tables, t': Tables, c: JournalService.EntryCall, input: EntryInput, actor: string, now: int) {
    var n := t.lastNumber + 1;
    if !NonBlank(actor) then t' == t && c == JournalService.EntryDone(None, Err(RequiredField), actor)
    else if !Readable(t) then t' == t && c == JournalService.EntryDone(None, Err(UncaughtValidation), actor)
    else if !Resolvable(t, input.lines) then t' == t && c == JournalService.EntryDone(None, Err(UnknownAccount), actor)
    else if !Acceptable(input, now) then
      t' == t.(lastNumber := n) && c == JournalService.EntryDone(Some(n), Err(ValidationError), actor)
    else if !Fits(input.lines) then
      t' == t.(lastNumber := n) && c == JournalService.EntryDone(Some(n), Err(UnknownError), actor)
    else
      && StoredAsTyped(t, t', input, actor)
      && c == JournalService.EntryDone(Some(n), Ok(Entry(n, input.date, AsLines(input.lines), input.description)), actor)
  }

  lemma AcceptableIff(t: Tables, input: EntryInput, number: int, now: int)
    requires AccountStore.AccountsOk(t.accounts) && Resolvable(t, input.lines) && number > 0
    ensures var lines := BuildLines(input.lines);
            && (lines.Some? && BuildEntry(number, input.date, lines.value, input.description, now).Some? <==> Acceptable(input, now))
            && (lines.Some? ==> lines.value == AsLines(input.lines) && (Storable(lines.value) <==> Fits(input.lines)))
  {
    KnownLines(t, input.lines);
    SameTotals(input.lines);
    if BuildLines(input.lines).Some? {
      StorableIff(input.lines);
    }
    hide BuildLines, Storable, Fits, TotalDebits, TotalCredits, Debited, Credited, GoodInput, AsLines;
  }

  lemma TypedCommits(t: Tables, input: EntryInput, actor: string, now: int)
    requires TablesOk(t, now) && Resolvable(t, input.lines) && Acceptable(input, now) && Fits(input.lines)
    ensures var n := t.lastNumber + 1;
            var e := Entry(n, input.date, AsLines(input.lines), input.description);
            Commits(t.(lastNumber := n), HeaderOf(e, actor), LineRowsOf(n, e.lines), now)
  {
    var n := t.lastNumber + 1;
    TypedIsValid(t, input, now);
    StorableIff(input.lines);
    hide Storable, Fits, Resolvable, ValidEntry, GoodInput, Commits;
    NextIsOpen(t, now);
    SameJournal(t, t.(lastNumber := n), now, now);
    CommitsIffStorable(t.(lastNumber := n), Entry(n, input.date, AsLines(input.lines), input.description), actor, now);
  }

  lemma SavedAsTyped(t: Tables, input: EntryInput, actor: string, now: int)
    requires TablesOk(t, now) && Resolvable(t, input.lines) && Acceptable(input, now) && Fits(input.lines)
    ensures var n := t.lastNumber + 1;
            var e := Entry(n, input.date, AsLines(input.lines), input.description);
            StoredAsTyped(t, SaveTx(t.(lastNumber := n), e, actor, now).0, input, actor)
  {
    hide Commits, ToCents, TablesOk, Acceptable, Fits, Resolvable;
    TypedCommits(t, input, actor, now);
    var n := t.lastNumber + 1;
    var rows := LineRowsOf(n, AsLines(input.lines));
    assert forall i :: 0 <= i < |input.lines| ==> (t.lines + rows)[|t.lines| + i] == rows[i];
    assert (t.lines + rows)[..|t.lines|] == t.lines;
  }

  lemma TypedIsValid(t: Tables, input: EntryInput, now: int)
    requires AccountStore.AccountsOk(t.accounts) && Resolvable(t, input.lines) && Acceptable(input, now)
    ensures ValidEntry(Entry(t.lastNumber + 1, input.date, AsLines(input.lines), input.description), now)
  {
    SameTotals(input.lines);
    forall i | 0 <= i < |input.lines|
      ensures CleanAccountName(input.lines[i].account) == Some(input.lines[i].account)
    {
      KnownName(t, input.lines[i].account);
    }
    hide CleanAccountName, Debited, Credited, TotalDebits, TotalCredits;
  }

  /** A creating call run alone from any reachable state, decided by its input and the tables. */
  lemma EntryAnswers(start: int, events: seq<Event>, input: EntryInput, actor: string)
    ensures var s := Exec(Start(start), events);
            var (t', c) := JournalService.Run(s.t, JournalService.EntryAsked(input, actor), s.now);
            EntryAnswered(s.t, t', c, input, actor, s.now)
  {
    CreateSucceedsIff(start, events, input, actor);
    Reachable(start, events);
    hide Exec, JournalService.Run, EntryAnswered, CreateLeaves;
    var s := Exec(Start(start), events);
    var (t', c) := JournalService.Run(s.t, JournalService.EntryAsked(input, actor), s.now);
    AnsweredAsLeft(s.t, t', c, input, actor, s.now);
  }

  lemma AnsweredAsLeft(t: Tables, t': Tables, c: JournalService.EntryCall, input: EntryInput, actor: string, now: int)
    requires TablesOk(t, now) && CreateLeaves(t, t', c, input, actor, now)
    ensures EntryAnswered(t, t', c, input, actor, now)
  {
    hide NonBlank, Readable, Resolvable, Acceptable, Fits, StoredAsTyped, TablesOk, BuildLines, BuildEntry, Storable, SaveTx, AsLines,
         JournalService.GetChart, JournalService.AllKnown, AccountStore.AccountsOk;
    OkAccounts(t, now);
    ResolvedIff(t, input.lines);
    if Readable(t) && Resolvable(t, input.lines) {
      AcceptableIff(t, input, t.lastNumber + 1, now);
      if Acceptable(input, now) && Fits(input.lines) {
        SavedAsTyped(t, input, actor, now);
      }
    }
  }

  lemma OkAccounts(t: Tables, now: int)
    requires TablesOk(t, now)
    ensures AccountStore.AccountsOk(t.accounts)
  {
  }

  /** The account check of a creating call among any others: at that turn, whatever has changed
      since it arrived, the call goes on exactly when its actor is named, every account reads
      and every line's key is stored; and it changes nothing and takes no number. */
  lemma ResolvesAtItsTurn(start: int, events: seq<Event>, id: nat, input: EntryInput, actor: string)
    requires var s := Exec(Start(start), events);
             id in s.calls && s.calls[id] == EntryTask(JournalService.EntryAsked(input, actor))
    ensures var s, s' := Exec(Start(start), events), Exec(Start(start), events + [Turn(id)]);
            && s'.t == s.t && id in s'.calls
            && s'.calls[id] == EntryTask(
                 if !NonBlank(actor) then JournalService.EntryDone(None, Err(RequiredField), actor)
                 else if !Readable(s.t) then JournalService.EntryDone(None, Err(UncaughtValidation), actor)
                 else if !Resolvable(s.t, input.lines) then JournalService.EntryDone(None, Err(UnknownAccount), actor)
                 else JournalService.EntryResolved(input, actor))
  {
    Reachable(start, events);
    var s := Exec(Start(start), events);
    assert (events + [Turn(id)])[..|events|] == events;
    hide Exec, NonBlank, Readable, Resolvable, TablesOk, JournalService.GetChart, JournalService.AllKnown;
    OkAccounts(s.t, s.now);
    ResolvedIff(s.t, input.lines);
  }
}
