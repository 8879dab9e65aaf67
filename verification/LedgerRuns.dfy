/** Runs of the ledger from the empty database, each reaching a state where an expectation of the
    code fails. */
module LedgerRuns {
  import opened Outcomes
  import opened Text
  import opened AccountNames
  import opened Accounts
  import opened Seqs
  import opened Journals
  import opened Tables
  import opened JournalStore
  import opened PostingStore
  import AccountStore
  import AccountService
  import JournalService
  import PostingService
  import opened LedgerMachine
  import opened LedgerInvariant
  import opened LedgerTheorems
  import opened AccountTheorems

  const ACTOR: string := "ann"

  const CASH: Account := Account("1000", "Cash", Asset)
  const SALES: Account := Account("4000", "Sales", Revenue)
  const CHARGES: Account := Account("5000", "Charges", Expense)

  /** The tables once the three accounts have been created. */
  const BOOKS: Tables :=
    EMPTY.(accounts := [AccountStore.RowOf(CASH)] + [AccountStore.RowOf(SALES)] + [AccountStore.RowOf(CHARGES)],
           audit := [AuditRow("1000", Create, ACTOR)] + [AuditRow("4000", Create, ACTOR)] + [AuditRow("5000", Create, ACTOR)])

  lemma {:induction false} ExecSplit(s: State, a: seq<Event>, b: seq<Event>)
    ensures Exec(s, a + b) == Exec(Exec(s, a), b)
  {
    if b == [] {
      assert a + b == a;
    } else {
      assert (a + b)[..|a + b| - 1] == a + b[..|b| - 1];
      ExecSplit(s, a, b[..|b| - 1]);
    }
  }

  /** One call arriving and running to its end with nothing in between. */
  function Alone(id: nat, call: Call): seq<Event> { [Arrive(id, call)] + Turns(id, RankOf(call)) }

  lemma CallAlone(s: State, id: nat, call: Call)
    requires id !in s.calls && IsArrival(call)
    ensures var (t', c') := RunCall(s.t, call, s.now);
            Exec(s, Alone(id, call)) == State(t', s.now, s.calls[id := c'])
  {
    hide RunCall, RankOf;
    ExecFirst(s, Arrive(id, call), Turns(id, RankOf(call)));
    var arrived := Apply(s, Arrive(id, call));
    SoloRun(arrived, id, RankOf(call));
    var (t', c') := RunCall(s.t, call, s.now);
    assert s.calls[id := call][id := c'] == s.calls[id := c'];
  }

  lemma AfterAlone(start: int, events: seq<Event>, id: nat, call: Call)
    requires id !in Exec(Start(start), events).calls && IsArrival(call)
    ensures var s := Exec(Start(start), events);
            var (t', c') := RunCall(s.t, call, s.now);
            Exec(Start(start), events + Alone(id, call)) == State(t', s.now, s.calls[id := c'])
  {
    hide RunCall, Alone, Exec;
    ExecSplit(Start(start), events, Alone(id, call));
    CallAlone(Exec(Start(start), events), id, call);
  }

  lemma LetterName(name: string)
    requires 2 <= |name| <= 100 && forall i :: 0 <= i < |name| ==> IsLetter(name[i])
    ensures CleanAccountName(name) == Some(name) && Strip(name) == name && StoredReference(name)
  {
    CleanFixpoint(name);
    StripTrims(name);
  }

  predicate IsOurs(a: Account) { a == CASH || a == SALES || a == CHARGES }

  lemma OurCodes()
    ensures ValidCode("1000") && ValidCode("4000") && ValidCode("5000")
  {
  }

  lemma LetterAccount(code: string, name: string, category: Category)
    requires ValidCode(code) && CleanAccountName(name) == Some(name) && 2 <= |name| <= 100
    ensures BuildAccount(code, name, category) == Some(Account(code, name, category))
  {
  }

  lemma Named(a: Account)
    requires IsOurs(a)
    ensures CleanAccountName(a.name) == Some(a.name) && Strip(a.name) == a.name && StoredReference(a.name)
    ensures BuildAccount(a.code, a.name, a.category) == Some(a)
  {
    OurCodes();
    LetterName(a.name);
    hide ValidCode, BuildAccount, CleanAccountName;
    LetterAccount(a.code, a.name, a.category);
  }

  lemma Differ()
    ensures CASH.code != SALES.code && CASH.code != CHARGES.code && SALES.code != CHARGES.code
    ensures Fold("Cash") != Fold("Sales") && Fold("Cash") != Fold("Charges") && Fold("Sales") != Fold("Charges")
  {
    assert CASH.code[0] != SALES.code[0] && CASH.code[0] != CHARGES.code[0] && SALES.code[0] != CHARGES.code[0];
    assert |Fold("Cash")| == 4 && |Fold("Sales")| == 5 && |Fold("Charges")| == 7;
  }

  lemma Signed()
    ensures NonBlank(ACTOR)
  {
    StripTrims(ACTOR);
  }

  function Creating(a: Account): Call { AccountTask(AccountService.CreateAsked(a.code, a.name, a.category, ACTOR)) }

  predicate NewTo(rows: seq<AccountRow>, a: Account) {
    forall i :: 0 <= i < |rows| ==> rows[i].code != a.code && rows[i].nameKey != Fold(a.name)
  }

  lemma Opened(start: int, events: seq<Event>, id: nat, a: Account)
    requires id !in Exec(Start(start), events).calls && IsOurs(a)
    requires NewTo(Exec(Start(start), events).t.accounts, a)
    ensures var s, s' := Exec(Start(start), events), Exec(Start(start), events + Alone(id, Creating(a)));
            && s'.t == s.t.(accounts := s.t.accounts + [AccountStore.RowOf(a)],
                            audit := s.t.audit + [AuditRow(a.code, Create, ACTOR)])
            && s'.now == s.now && s'.calls.Keys == s.calls.Keys + {id}
  {
    Named(a);
    Signed();
    CreateAccountSucceedsIff(start, events, a.code, a.name, a.category, ACTOR);
    AfterAlone(start, events, id, Creating(a));
    hide Exec, AccountService.Run, BuildAccount, Alone;
  }

  /** The run that opens the books. */
  function Opening(): seq<Event> {
    Alone(0, Creating(CASH)) + Alone(1, Creating(SALES)) + Alone(2, Creating(CHARGES))
  }

  lemma BooksOpen(start: int)
    ensures var s := Exec(Start(start), Opening());
            s.t == BOOKS && s.now == start && s.calls.Keys == {0, 1, 2}
  {
    hide Alone, Fold, Exec;
    Differ();
    var first := Alone(0, Creating(CASH));
    assert [] + first == first;
    NothingYet(start);
    Opened(start, [], 0, CASH);
    assert Exec(Start(start), first).t.accounts == [AccountStore.RowOf(CASH)];
    Opened(start, first, 1, SALES);
    var second := first + Alone(1, Creating(SALES));
    assert Exec(Start(start), second).t.accounts == [AccountStore.RowOf(CASH)] + [AccountStore.RowOf(SALES)];
    Opened(start, second, 2, CHARGES);
  }

  lemma NothingYet(start: int)
    ensures Exec(Start(start), []) == State(EMPTY, start, map[])
  {
  }

  lemma BooksRows()
    ensures BOOKS.accounts == [AccountStore.RowOf(CASH), AccountStore.RowOf(SALES), AccountStore.RowOf(CHARGES)]
    ensures AccountStore.IndexOf(BOOKS.accounts, "1000") == 0 && AccountStore.IndexOf(BOOKS.accounts, "4000") == 1
    ensures Fold("Cash") in AccountStore.Keys(BOOKS.accounts)
    ensures AccountStore.KeyTaken(BOOKS.accounts, 1, Fold("Cash")) && !AccountStore.KeyTaken(BOOKS.accounts, 0, Fold("Cash"))
  {
    Differ();
    hide Fold;
    var rows := BOOKS.accounts;
    assert rows == [AccountStore.RowOf(CASH), AccountStore.RowOf(SALES), AccountStore.RowOf(CHARGES)];
    assert rows[0] in rows && rows[0].code != "4000";
  }

  /** A change of letter case only: the lookup refuses what the unique key would take. */
  lemma CaseOnlyRename(start: int)
    ensures var s := Exec(Start(start), Opening());
            && AccountService.Run(s.t, AccountService.UpdateAsked("1000", Some("CASH"), None, ACTOR), s.now)
               == (s.t, AccountService.Failed(DuplicateAccountName))
            && BuildAccount("1000", "CASH", Asset) == Some(CASH.(name := "CASH"))
            && AccountStore.UpdateTx(s.t, CASH.(name := "CASH"), ACTOR).1 == Ok(())
  {
    Signed();
    CashUpper();
    BooksOpen(start);
    BooksRows();
    Reachable(start, Opening());
    hide Exec, Opening, Fold, AccountService.Run, AccountStore.AccountsOk, AccountStore.Keys, AccountStore.KeyTaken, BuildAccount, NonBlank, CleanAccountName;
    UpdateStart(BOOKS, Change("1000", Some("CASH"), None), ACTOR, start);
    UpdateFinish(BOOKS, CASH, Some("CASH"), None, ACTOR, start);
  }

  lemma CashUpper()
    ensures BuildAccount("1000", "CASH", Asset) == Some(CASH.(name := "CASH"))
    ensures Fold("CASH") == Fold("Cash") && "CASH" != "Cash"
  {
    OurCodes();
    LetterName("CASH");
    LetterAccount("1000", "CASH", Asset);
    assert "CASH"[1] != "Cash"[1];
    hide BuildAccount, CleanAccountName, ValidCode;
    assert Fold("CASH") == Fold("Cash");
  }

  /** A padded form of another account's name: the lookup misses what the unique key refuses. */
  lemma PaddedRename(start: int)
    ensures var s := Exec(Start(start), Opening());
            && !AccountStore.ExistsByName(s.t, " Cash")
            && BuildAccount("4000", " Cash", Revenue) == Some(SALES.(name := "Cash"))
            && AccountStore.UpdateTx(s.t, SALES.(name := "Cash"), ACTOR).1 == Err(DuplicateAccountName)
            && AccountService.Run(s.t, AccountService.UpdateAsked("4000", Some(" Cash"), None, ACTOR), s.now)
               == (s.t, AccountService.Failed(DuplicateAccountName))
  {
    hide Exec, Opening, Fold, Strip, AccountService.Run, AccountStore.AccountsOk, AccountStore.Keys, BuildAccount, NonBlank,
         AccountStore.UpdateTx;
    Signed();
    BooksOpen(start);
    BooksRows();
    Reachable(start, Opening());
    CashPadded();
    PaddedTaken();
    if Fold(" Cash") in AccountStore.Keys(BOOKS.accounts) {
      StoredKey(BOOKS, " Cash");
    }
    UpdateStart(BOOKS, Change("4000", Some(" Cash"), None), ACTOR, start);
    UpdateFinish(BOOKS, SALES, Some(" Cash"), None, ACTOR, start);
  }

  lemma CashPadded()
    ensures Strip(" Cash") == "Cash" && " Cash" != "Cash" && " Cash" != "Sales"
    ensures BuildAccount("4000", " Cash", Revenue) == Some(SALES.(name := "Cash"))
  {
    var padded := " Cash";
    assert padded[0] == ' ' && padded[1..] == "Cash" && TrimLeft(padded) == TrimLeft("Cash");
    LetterName("Cash");
    OurCodes();
    hide ValidCode;
    assert CleanAccountName(padded) == CleanAccountName("Cash");
  }

  lemma PaddedTaken()
    ensures AccountStore.UpdateTx(BOOKS, SALES.(name := "Cash"), ACTOR) == (BOOKS, Err(DuplicateAccountName))
  {
    hide Fold, AccountStore.KeyTaken, AccountStore.IndexOf;
    BooksRows();
  }

  predicate OurLines(lines: seq<LineInput>) {
    forall i :: 0 <= i < |lines| ==> lines[i].account in ["Cash", "Sales", "Charges"]
  }

  lemma BooksResolve(start: int, lines: seq<LineInput>)
    requires OurLines(lines)
    ensures var chart := JournalService.GetChart(BOOKS); chart.Ok? && JournalService.AllKnown(chart.value, lines)
  {
    hide Exec, Opening, Fold, JournalService.GetChart, AccountStore.Keys, FindByName, AccountStore.ListAll;
    BooksOpen(start);
    ChartConsistent(start, Opening());
    KeysOfBooks();
    BooksNames();
  }

  lemma BooksNames()
    ensures forall r :: r in BOOKS.accounts ==> |r.name| >= 2
  {
    forall r | r in BOOKS.accounts
      ensures |r.name| >= 2
    {
      assert r == AccountStore.RowOf(CASH) || r == AccountStore.RowOf(SALES) || r == AccountStore.RowOf(CHARGES);
    }
  }

  lemma KeysOfBooks()
    ensures forall name :: name in ["Cash", "Sales", "Charges"] ==> Fold(name) in AccountStore.Keys(BOOKS.accounts)
  {
    hide Fold;
    BooksRows();
    var rows := BOOKS.accounts;
    assert rows[0] in rows && rows[1] in rows && rows[2] in rows;
  }

  function Recording(start: int, lines: seq<LineInput>): Call {
    EntryTask(JournalService.EntryAsked(EntryInput(start, lines, None), ACTOR))
  }

  /** With the books open, a balanced entry between the three accounts is created as entry 1. */
  lemma Recorded(start: int, lines: seq<LineInput>, built: seq<Line>)
    requires start > EARLIEST && OurLines(lines) && BuildLines(lines) == Some(built) && |built| >= 2
    requires TotalDebits(built) == TotalCredits(built) && Storable(built)
    ensures var s := Exec(Start(start), Opening() + Alone(3, Recording(start, lines)));
            var e := Entry(1, start, built, None);
            && s.t == SaveTx(BOOKS.(lastNumber := 1), e, ACTOR, start).0
            && s.now == start && s.calls.Keys == {0, 1, 2, 3}
            && s.calls[3] == EntryTask(JournalService.EntryDone(Some(1), Ok(e), ACTOR))
  {
    hide Exec, Opening, Alone, SaveTx, BuildLines, Storable, TotalDebits, TotalCredits, OurLines, NonBlank,
         JournalService.GetChart, JournalService.AllKnown;
    BooksOpen(start);
    BooksResolve(start, lines);
    Signed();
    RecordedAfter(start, Opening(), lines, built);
  }

  lemma RecordedAfter(start: int, events: seq<Event>, lines: seq<LineInput>, built: seq<Line>)
    requires start > EARLIEST && NonBlank(ACTOR) && BuildLines(lines) == Some(built) && |built| >= 2
    requires TotalDebits(built) == TotalCredits(built) && Storable(built)
    requires var s := Exec(Start(start), events);
             && 3 !in s.calls && s.now == start && s.t.lastNumber == 0
             && JournalService.GetChart(s.t).Ok? && JournalService.AllKnown(JournalService.GetChart(s.t).value, lines)
    ensures var s, s' := Exec(Start(start), events), Exec(Start(start), events + Alone(3, Recording(start, lines)));
            var e := Entry(1, start, built, None);
            && s'.t == SaveTx(s.t.(lastNumber := 1), e, ACTOR, start).0
            && s'.now == start && s'.calls.Keys == s.calls.Keys + {3}
            && s'.calls[3] == EntryTask(JournalService.EntryDone(Some(1), Ok(e), ACTOR))
  {
    hide Exec, Alone, SaveTx, BuildLines, Storable, TotalDebits, TotalCredits, NonBlank, CreateLeaves,
         JournalService.GetChart, JournalService.AllKnown, JournalService.Run;
    var s := Exec(Start(start), events);
    CreateSucceedsIff(start, events, EntryInput(start, lines, None), ACTOR);
    AfterAlone(start, events, 3, Recording(start, lines));
    var (t', c') := JournalService.Run(s.t, JournalService.EntryAsked(EntryInput(start, lines, None), ACTOR), start);
    EntryLeft(s.t, t', c', lines, built, start);
  }

  lemma EntryLeft(t: Tables, t': Tables, c: JournalService.EntryCall, lines: seq<LineInput>, built: seq<Line>, now: int)
    requires t.lastNumber == 0 && NonBlank(ACTOR) && now > EARLIEST
    requires JournalService.GetChart(t).Ok? && JournalService.AllKnown(JournalService.GetChart(t).value, lines)
    requires BuildLines(lines) == Some(built) && |built| >= 2
    requires TotalDebits(built) == TotalCredits(built) && Storable(built)
    requires CreateLeaves(t, t', c, EntryInput(now, lines, None), ACTOR, now)
    ensures var e := Entry(1, now, built, None);
            && t' == SaveTx(t.(lastNumber := 1), e, ACTOR, now).0
            && c == JournalService.EntryDone(Some(1), Ok(e), ACTOR)
  {
    hide NonBlank, JournalService.GetChart, JournalService.AllKnown, BuildLines, Storable, TotalDebits, TotalCredits, SaveTx;
    assert BuildEntry(1, now, built, None, now) == Some(Entry(1, now, built, None));
  }

  /** One cent against two half-cents. */
  const UNEVEN: seq<Line> := [Line("Cash", 0.01, 0.0), Line("Sales", 0.0, 0.005), Line("Charges", 0.0, 0.005)]

  const UNEVEN_INPUT: seq<LineInput> :=
    [LineInput("Cash", 0.01, 0.0), LineInput("Sales", 0.0, 0.005), LineInput("Charges", 0.0, 0.005)]

  const UNEVEN_ROWS: seq<LineRow> :=
    [LineRow(1, 0, "Cash", 1, 0), LineRow(1, 1, "Sales", 0, 1), LineRow(1, 2, "Charges", 0, 1)]

  lemma OurLine(a: Account, debit: real, credit: real)
    requires IsOurs(a) && debit >= 0.0 && credit >= 0.0 && ValidLineAmounts(debit, credit)
    ensures BuildLine(a.name, debit, credit) == Some(Line(a.name, debit, credit))
  {
    Named(a);
  }

  lemma BuiltAll(inputs: seq<LineInput>, built: seq<Line>)
    requires |inputs| == |built|
    requires forall i :: 0 <= i < |inputs| ==>
               BuildLine(inputs[i].account, inputs[i].debit, inputs[i].credit) == Some(built[i])
    ensures BuildLines(inputs) == Some(built)
  {
    hide BuildLine;
    var r := BuildLines(inputs);
    assert r.Some?;
    assert r.value == built;
  }

  lemma UnevenBuilds()
    ensures BuildLines(UNEVEN_INPUT) == Some(UNEVEN) && OurLines(UNEVEN_INPUT)
  {
    hide BuildLine, BuildLines;
    OurLine(CASH, 0.01, 0.0);
    OurLine(SALES, 0.0, 0.005);
    OurLine(CHARGES, 0.0, 0.005);
    BuiltAll(UNEVEN_INPUT, UNEVEN);
  }

  lemma UnevenTotals()
    ensures TotalDebits(UNEVEN) == TotalCredits(UNEVEN) && Storable(UNEVEN)
    ensures LineRowsOf(1, UNEVEN) == UNEVEN_ROWS
    ensures SumBy(UNEVEN_ROWS, RowDebit) == 1 && SumBy(UNEVEN_ROWS, RowCredit) == 2
  {
  }

  /** The rounding condition at a real input: the service accepts and saves an entry that
      balances exactly; it then cannot be read, listed or posted. */
  lemma AcceptedEntryThatCannotBeRead(start: int)
    requires start > EARLIEST
    ensures var s := Exec(Start(start), Opening() + Alone(3, Recording(start, UNEVEN_INPUT)));
            && 3 in s.calls
            && s.calls[3] == EntryTask(JournalService.EntryDone(Some(1), Ok(Entry(1, start, UNEVEN, None)), ACTOR))
            && GetByNumber(s.t, 1, s.now) == Err(UncaughtValidation)
            && GetAll(s.t, AscendingNumbers(s.t), s.now).Err?
            && PostingService.Run(s.t, PostingService.PostAsked(1, ACTOR), s.now)
               == (s.t, PostingService.PostDone(1, Err(UncaughtValidation), ACTOR))
  {
    hide Exec, Opening, Alone, SaveTx, PostingService.Run, GetByNumber, GetAll, AscendingNumbers, LinesOf, BuildLines,
         Storable, TotalDebits, TotalCredits, OurLines;
    UnevenBuilds();
    UnevenTotals();
    Signed();
    Recorded(start, UNEVEN_INPUT, UNEVEN);
    var events := Opening() + Alone(3, Recording(start, UNEVEN_INPUT));
    CreatedEntryReadsBack(start, events, 3);
    ListReadableIff(start, events);
    PostSucceedsIff(start, events, 1, ACTOR);
    SavedLinesOf(start, events, 3);
  }

  lemma SavedLinesOf(start: int, events: seq<Event>, id: nat)
    requires var s := Exec(Start(start), events); id in s.calls && Created(s.calls[id])
    ensures var s := Exec(Start(start), events);
            var c := s.calls[id].e;
            SavedAs(s.t, c.result.value, c.actor) && c.result.value.number in EntryNumbers(s.t.entries)
  {
    Reachable(start, events);
    var s := Exec(Start(start), events);
    hide Exec;
    assert CallOk(s.t, s.calls[id], s.now);
  }

  const EVEN: seq<Line> := [Line("Cash", 10.0, 0.0), Line("Sales", 0.0, 10.0)]

  const EVEN_INPUT: seq<LineInput> := [LineInput("Cash", 10.0, 0.0), LineInput("Sales", 0.0, 10.0)]

  const EVEN_ROWS: seq<LineRow> := [LineRow(1, 0, "Cash", 1000, 0), LineRow(1, 1, "Sales", 0, 1000)]

  lemma EvenBuilds()
    ensures BuildLines(EVEN_INPUT) == Some(EVEN) && OurLines(EVEN_INPUT)
  {
    hide BuildLine, BuildLines;
    OurLine(CASH, 10.0, 0.0);
    OurLine(SALES, 0.0, 10.0);
    BuiltAll(EVEN_INPUT, EVEN);
  }

  lemma EvenTotals()
    ensures TotalDebits(EVEN) == TotalCredits(EVEN) && Storable(EVEN)
    ensures LineRowsOf(1, EVEN) == EVEN_ROWS && RoundedBalance(EVEN_ROWS)
  {
  }

  /** The run that opens the books and records ten from sales to cash. */
  function Trading(start: int): seq<Event> { Opening() + Alone(3, Recording(start, EVEN_INPUT)) }

  /** The accounts as opened, the entry saved, nothing posted. */
  ghost predicate Traded(t: Tables, start: int) {
    && t.accounts == BOOKS.accounts && t.postings == []
    && FindEntry(t.entries, 1) == Some(EntryRow(1, start, None, ACTOR)) && LinesOf(t, 1) == EVEN_ROWS
  }

  lemma TradingRuns(start: int)
    requires start > EARLIEST
    ensures var s := Exec(Start(start), Trading(start));
            Traded(s.t, start) && s.now == start && s.calls.Keys == {0, 1, 2, 3} && TablesOk(s.t, start)
  {
    EvenBuilds();
    EvenTotals();
    hide Exec, Opening, Alone, BuildLines, Storable, TotalDebits, TotalCredits, OurLines, TablesOk, Commits;
    Recorded(start, EVEN_INPUT, EVEN);
    SavedLinesOf(start, Trading(start), 3);
    Reachable(start, Trading(start));
  }

  lemma Arrived(start: int, events: seq<Event>, id: nat, call: Call)
    requires id !in Exec(Start(start), events).calls && IsArrival(call)
    ensures var s := Exec(Start(start), events);
            Exec(Start(start), events + [Arrive(id, call)]) == s.(calls := s.calls[id := call])
  {
    assert (events + [Arrive(id, call)])[..|events|] == events;
  }

  lemma Turned(start: int, events: seq<Event>, id: nat, t': Tables, c': Call)
    requires var s := Exec(Start(start), events); id in s.calls && StepCall(s.t, s.calls[id], s.now) == (t', c')
    ensures var s := Exec(Start(start), events);
            Exec(Start(start), events + [Turn(id)]) == State(t', s.now, s.calls[id := c'])
  {
    hide StepCall;
    assert (events + [Turn(id)])[..|events|] == events;
  }

  function TradedEntry(start: int): Entry { PlainEntry(EntryRow(1, start, None, ACTOR), EVEN_ROWS) }

  function Sold(start: int): seq<PostingRow> { BatchRows(EntryRow(1, start, None, ACTOR), EVEN_ROWS, ACTOR) }

  /** The posting call of the run, and how far it is. */
  function PostingAsked(): Call { PostTask(PostingService.PostAsked(1, ACTOR)) }

  function PostingLoaded(start: int): Call { PostTask(PostingService.PostLoaded(1, TradedEntry(start), ACTOR)) }

  function PostingChecked(start: int): Call {
    PostTask(PostingService.PostChecked(1, PlainPostings(TradedEntry(start)), ACTOR))
  }

  function PostingDone(start: int): Call {
    PostTask(PostingService.PostDone(1, Ok(PlainPostings(TradedEntry(start))), ACTOR))
  }

  lemma PostingLoads(t: Tables, start: int)
    requires Traded(t, start) && TablesOk(t, start)
    ensures StepCall(t, PostingAsked(), start) == (t, PostingLoaded(start))
  {
    hide NonBlank, LinesOf, TablesOk, JournalOk, GetByNumber;
    Signed();
    EvenTotals();
    TradedIsOk(t, start);
    ReadableIffRoundedBalance(t, EntryRow(1, start, None, ACTOR), start);
  }

  lemma TradedIsOk(t: Tables, start: int)
    requires Traded(t, start) && TablesOk(t, start)
    ensures JournalOk(t, start) && PostedOnce(t, 1) && Posted(t, 1) == []
    ensures HoldsEntry(t, 1, TradedEntry(start))
  {
    EvenTotals();
    hide LinesOf, JournalOk;
  }

  lemma PostingChecks(t: Tables, start: int)
    requires Traded(t, start) && TablesOk(t, start)
    ensures StepCall(t, PostingLoaded(start), start) == (t, PostingChecked(start))
  {
    hide DerivePostings, LinesOf, JournalOk, TablesOk, PostedOnce, GetByJournalNumber, HoldsEntry, PlainPostings;
    TradedIsOk(t, start);
    HeldBatch(t, 1, TradedEntry(start), ACTOR, start);
    ReadBack(t, 1, start);
  }

  lemma PostingSaves(t: Tables, start: int)
    requires Traded(t, start) && TablesOk(t, start)
    ensures StepCall(t, PostingChecked(start), start) == (t.(postings := Sold(start)), PostingDone(start))
  {
    hide SaveManyTx, LinesOf, JournalOk, TablesOk, PostedOnce, HoldsEntry, PlainPostings;
    TradedIsOk(t, start);
    SaveManyOutcome(t, 1, TradedEntry(start), ACTOR, start);
    assert [] + Sold(start) == Sold(start);
  }

  lemma PostingTurns(t: Tables, start: int)
    requires Traded(t, start) && TablesOk(t, start)
    ensures StepCall(t, PostingAsked(), start) == (t, PostingLoaded(start))
    ensures StepCall(t, PostingLoaded(start), start) == (t, PostingChecked(start))
    ensures StepCall(t, PostingChecked(start), start) == (t.(postings := Sold(start)), PostingDone(start))
  {
    hide StepCall, TablesOk, Traded;
    PostingLoads(t, start);
    PostingChecks(t, start);
    PostingSaves(t, start);
  }

  /** The guarded delete of the cash account, and how far it is. */
  function Deleting(): Call { AccountTask(AccountService.DeleteAsked("1000", true, ACTOR)) }

  function DeletingLoaded(): Call { AccountTask(AccountService.DeleteLoaded(CASH, true, ACTOR)) }

  function DeletingChecked(): Call { AccountTask(AccountService.DeleteChecked("1000", ACTOR)) }

  lemma DeletingTurns(t: Tables, start: int)
    requires Traded(t, start) && TablesOk(t, start)
    ensures StepCall(t, Deleting(), start) == (t, DeletingLoaded())
    ensures StepCall(t, DeletingLoaded(), start) == (t, DeletingChecked())
  {
    hide Traded, TablesOk, HistoryFree, AccountService.Step;
    HistoryNone(t, start);
    DeletingLoads(t, start);
    DeleteLoadedTurn(t, CASH, true, ACTOR, start);
  }

  lemma DeletingLoads(t: Tables, start: int)
    requires Traded(t, start)
    ensures StepCall(t, Deleting(), start) == (t, DeletingLoaded())
  {
    hide NonBlank, AccountStore.GetByCode, AccountStore.RowOf;
    CashFound(t);
    Signed();
  }

  lemma HistoryNone(t: Tables, start: int)
    requires Traded(t, start)
    ensures HistoryFree(t, "Cash")
  {
  }

  lemma CashFound(t: Tables)
    requires t.accounts == BOOKS.accounts
    ensures AccountStore.GetByCode(t, "1000") == Ok(Some(CASH))
  {
    BooksRows();
    Named(CASH);
    hide BuildAccount;
  }

  /** The last step does not look at the postings. */
  lemma DeletingEnds(t: Tables, start: int)
    requires t.accounts == BOOKS.accounts
    ensures var (t', c) := StepCall(t, DeletingChecked(), start);
            && c == AccountTask(AccountService.AccountDone(Ok(()))) && t'.postings == t.postings
            && "1000" !in AccountStore.Codes(t'.accounts)
  {
    RowsRemoved(t.accounts);
    assert |t.accounts| == 3;
    hide AccountStore.Codes, AccountStore.IndexOf, AccountStore.RowOf;
  }

  lemma RowsRemoved(rows: seq<AccountRow>)
    requires rows == BOOKS.accounts
    ensures AccountStore.IndexOf(rows, "1000") == 0
    ensures "1000" !in AccountStore.Codes(rows[..0] + rows[1..])
  {
    BooksRows();
    Differ();
    assert rows[..0] + rows[1..] == [rows[1], rows[2]];
  }

  /** A call that arrives and takes two turns, neither of them a write. */
  function Checking(id: nat, call: Call): seq<Event> { [Arrive(id, call)] + [Turn(id)] + [Turn(id)] }

  lemma Checked(start: int, events: seq<Event>, id: nat, call: Call, c1: Call, c2: Call)
    requires id !in Exec(Start(start), events).calls && IsArrival(call)
    requires var s := Exec(Start(start), events);
             StepCall(s.t, call, s.now) == (s.t, c1) && StepCall(s.t, c1, s.now) == (s.t, c2)
    ensures var s := Exec(Start(start), events);
            Exec(Start(start), events + Checking(id, call)) == s.(calls := s.calls[id := c2])
  {
    hide StepCall, Exec;
    var s := Exec(Start(start), events);
    Arrived(start, events, id, call);
    Turned(start, events + [Arrive(id, call)], id, s.t, c1);
    Turned(start, events + [Arrive(id, call)] + [Turn(id)], id, s.t, c2);
    assert events + [Arrive(id, call)] + [Turn(id)] + [Turn(id)] == events + Checking(id, call);
    assert s.calls[id := call][id := c1][id := c2] == s.calls[id := c2];
  }

  /** A posting call and a guarded delete of one of its accounts, both past their checks before
      either writes; then the posting is saved, and then the account is deleted. */
  function Racing(start: int): seq<Event> {
    Trading(start) + Checking(4, PostingAsked()) + Checking(5, Deleting()) + [Turn(4)] + [Turn(5)]
  }

  lemma BothChecked(start: int)
    requires start > EARLIEST
    ensures var s := Exec(Start(start), Trading(start));
            Exec(Start(start), Trading(start) + Checking(4, PostingAsked()) + Checking(5, Deleting()))
            == s.(calls := s.calls[4 := PostingChecked(start)][5 := DeletingChecked()])
  {
    hide Exec, Trading, Checking, StepCall, TablesOk, Traded, PostingLoaded, PostingChecked, DeletingLoaded, DeletingChecked;
    TradingRuns(start);
    var s := Exec(Start(start), Trading(start));
    PostingTurns(s.t, start);
    DeletingTurns(s.t, start);
    Checked(start, Trading(start), 4, PostingAsked(), PostingLoaded(start), PostingChecked(start));
    Checked(start, Trading(start) + Checking(4, PostingAsked()), 5, Deleting(), DeletingLoaded(), DeletingChecked());
  }

  /** The delete goes through although its account has just been posted to. */
  lemma DeleteRace(start: int)
    requires start > EARLIEST
    ensures var s := Exec(Start(start), Racing(start));
            && 4 in s.calls && PostedBy(s.calls[4], 1)
            && 5 in s.calls && s.calls[5] == AccountTask(AccountService.AccountDone(Ok(())))
            && "1000" !in AccountStore.Codes(s.t.accounts)
            && !HistoryFree(s.t, "Cash")
  {
    hide Exec, Trading, Checking, StepCall, TablesOk, Sold, AccountStore.Codes, HistoryFree, PostingChecked, DeletingChecked;
    TradingRuns(start);
    BothChecked(start);
    SoldCash(start);
    var s := Exec(Start(start), Trading(start));
    PostingTurns(s.t, start);
    var t1 := s.t.(postings := Sold(start));
    DeletingEnds(t1, start);
    var run := Trading(start) + Checking(4, PostingAsked()) + Checking(5, Deleting());
    Turned(start, run, 4, t1, PostingDone(start));
    var (t2, c) := StepCall(t1, DeletingChecked(), start);
    Turned(start, run + [Turn(4)], 5, t2, c);
  }

  lemma SoldCash(start: int)
    ensures forall t: Tables :: t.postings == Sold(start) ==> !HistoryFree(t, "Cash")
    ensures forall r :: r in Sold(start) ==> r.accountKey == Fold("Cash") || r.accountKey == Fold("Sales")
  {
    hide Fold;
    assert Sold(start)[0] in Sold(start) && Sold(start)[0].accountKey == Fold("Cash");
  }


  function Renaming(): Change { Change("1000", Some("Drawer"), None) }

  function RenameCall(): Call { AccountTask(AccountService.UpdateAsked("1000", Some("Drawer"), None, ACTOR)) }

  const DRAWER: Account := CASH.(name := "Drawer")

  /** Trade, post, rename the cash account, and delete it with the guard on, one call after the
      other. */
  function Renamed(start: int): seq<Event> { Trading(start) + Alone(4, PostingAsked()) + Alone(5, RenameCall()) }

  lemma TradePosted(start: int)
    requires start > EARLIEST
    ensures var s, s' := Exec(Start(start), Trading(start)), Exec(Start(start), Trading(start) + Alone(4, PostingAsked()));
            && s'.t == s.t.(postings := Sold(start)) && s'.now == start
            && s'.calls.Keys == {0, 1, 2, 3, 4} && s.t.accounts == BOOKS.accounts
  {
    hide Exec, Trading, Alone, LinesOf, PostingService.Run, TablesOk, NonBlank, Sold;
    TradingRuns(start);
    EvenTotals();
    Signed();
    var s := Exec(Start(start), Trading(start));
    TradedIsOk(s.t, start);
    PostSucceedsIff(start, Trading(start), 1, ACTOR);
    AfterAlone(start, Trading(start), 4, PostingAsked());
    assert [] + Sold(start) == Sold(start);
    TradeOutcome(s.t, start);
  }

  lemma TradeOutcome(t: Tables, start: int)
    requires Traded(t, start) && NonBlank(ACTOR)
    ensures PostOutcome(t, 1, ACTOR) == None
    ensures BatchRows(FindEntry(t.entries, 1).value, LinesOf(t, 1), ACTOR) == Sold(start)
  {
    EvenTotals();
    hide LinesOf, NonBlank;
  }

  lemma DrawerAllowed(t: Tables)
    requires t.accounts == BOOKS.accounts
    ensures AccountStore.IndexOf(t.accounts, "1000") == 0
    ensures Merged(t.accounts[0], Renaming()) == Some(DRAWER)
    ensures UpdateAllowed(t, 0, Renaming())
  {
    BooksRows();
    OurCodes();
    LetterName("Drawer");
    LetterAccount("1000", "Drawer", Asset);
    assert |Fold("Drawer")| == 6 && |Fold("Cash")| == 4 && |Fold("Sales")| == 5 && |Fold("Charges")| == 7;
    hide BuildAccount, CleanAccountName, ValidCode, Fold;
  }

  lemma TradeRenamed(start: int)
    requires start > EARLIEST
    ensures var s := Exec(Start(start), Renamed(start));
            && s.t.postings == Sold(start) && s.now == start && s.calls.Keys == {0, 1, 2, 3, 4, 5}
            && s.t.accounts == BOOKS.accounts[0 := AccountStore.RowOf(DRAWER)]
  {
    hide Exec, Trading, Alone, AccountService.Run, NonBlank, Sold, UpdateAllowed, Merged, AccountStore.IndexOf, AccountStore.RowOf;
    TradePosted(start);
    Signed();
    var events := Trading(start) + Alone(4, PostingAsked());
    DrawerAllowed(Exec(Start(start), events).t);
    UpdateAccountSucceedsIff(start, events, Renaming(), ACTOR);
    AfterAlone(start, events, 5, RenameCall());
  }

  /** History under an earlier name holds no delete back: the account goes, and what was posted
      to it stays. */
  lemma RenamedHistoryDeleted(start: int)
    requires start > EARLIEST
    ensures var s := Exec(Start(start), Renamed(start) + Alone(6, Deleting()));
            && 6 in s.calls && s.calls[6] == AccountTask(AccountService.AccountDone(Ok(())))
            && "1000" !in AccountStore.Codes(s.t.accounts)
            && !HistoryFree(s.t, "Cash")
  {
    hide Exec, Renamed, Alone, AccountService.Run, NonBlank, Sold, AccountStore.Codes, Fold;
    TradeRenamed(start);
    Signed();
    SoldCash(start);
    DrawerRow();
    var s := Exec(Start(start), Renamed(start));
    var n := AccountStore.IndexOf(s.t.accounts, "1000");
    assert n == 0;
    assert forall r :: r in s.t.postings ==> r.accountKey != s.t.accounts[n].nameKey;
    DeleteAccountSucceedsIff(start, Renamed(start), "1000", true, ACTOR);
    var (t', c) := AccountService.Run(s.t, AccountService.DeleteAsked("1000", true, ACTOR), s.now);
    assert c.result.Ok? && c.result.value == ();
    assert c == AccountService.AccountDone(Ok(()));
    AfterAlone(start, Renamed(start), 6, Deleting());
  }

  lemma DrawerRow()
    ensures var rows := BOOKS.accounts[0 := AccountStore.RowOf(DRAWER)];
            && AccountStore.IndexOf(rows, "1000") == 0
            && |rows| == 3 && rows[0].name == "Drawer" && |rows[0].name| >= 2
            && rows[0].nameKey == Fold("Drawer")
    ensures Fold("Drawer") != Fold("Cash") && Fold("Drawer") != Fold("Sales")
  {
    BooksRows();
    assert |Fold("Drawer")| == 6 && |Fold("Cash")| == 4 && |Fold("Sales")| == 5;
    hide Fold;
  }
}
