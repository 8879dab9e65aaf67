/** What holds of the ledger in every reachable state. */
module LedgerTheorems {
  import opened Outcomes
  import opened Text
  import opened Money
  import opened Seqs
  import opened Journals
  import opened Tables
  import opened JournalStore
  import opened PostingStore
  import AccountStore
  import AccountService
  import JournalService
  import PostingService
  import opened TrialBalance
  import opened LedgerMachine
  import opened LedgerInvariant

  /** Exactly-once posting: a number holds nothing, or one posting per line of its entry in
      line order: the very batch the one call that succeeded for it reported, attributed to that
      call's actor. */
  lemma ExactlyOncePosting(start: int, events: seq<Event>, number: int)
    ensures var s := Exec(Start(start), events);
            && PostedOnce(s.t, number)
            && (Posted(s.t, number) != [] <==> HasPoster(s.calls, number))
            && (forall i, j | i in s.calls && j in s.calls ::
                  PostedBy(s.calls[i], number) && PostedBy(s.calls[j], number) ==> i == j)
            && (forall i | i in s.calls && PostedBy(s.calls[i], number) ::
                  && NonBlank(s.calls[i].p.actor)
                  && Posted(s.t, number) == PostingRowsOf(s.calls[i].p.result.value, s.calls[i].p.actor))
  {
    Reachable(start, events);
    var s := Exec(Start(start), events);
    forall i | i in s.calls && PostedBy(s.calls[i], number)
      ensures NonBlank(s.calls[i].p.actor) && Posted(s.t, number) != []
      ensures Posted(s.t, number) == PostingRowsOf(s.calls[i].p.result.value, s.calls[i].p.actor)
    {
      assert CallOk(s.t, s.calls[i], s.now);
    }
  }

  /** Rows that decode, and the postings they decode to. */
  function PlainRows(rows: seq<PostingRow>): (ps: seq<Posting>)
    ensures |ps| == |rows|
    ensures forall i :: 0 <= i < |rows| ==>
              ps[i] == Posting(rows[i].account, FromCents(rows[i].debit), FromCents(rows[i].credit),
                               rows[i].number, rows[i].date)
  {
    seq(|rows|, i requires 0 <= i < |rows| =>
      Posting(rows[i].account, FromCents(rows[i].debit), FromCents(rows[i].credit), rows[i].number, rows[i].date))
  }

  ghost predicate GoodPosting(r: PostingRow, now: int) {
    && StoredReference(r.account) && r.accountKey == Fold(r.account)
    && ExactlyOneSide(r.debit, r.credit) && r.number > 0 && EARLIEST < r.date <= now
  }

  lemma GoodPostingDecodes(r: PostingRow, now: int)
    requires GoodPosting(r, now)
    ensures DecodePosting(r, now)
         == Some(Posting(r.account, FromCents(r.debit), FromCents(r.credit), r.number, r.date))
  {
  }

  lemma {:induction false} GoodPostingsDecode(rows: seq<PostingRow>, now: int)
    requires forall i :: 0 <= i < |rows| ==> GoodPosting(rows[i], now)
    ensures DecodePostings(rows, now) == Ok(PlainRows(rows))
  {
    hide GoodPosting, DecodePosting, FromCents;
    if rows == [] {
      assert PlainRows(rows) == [];
    } else {
      GoodPostingsDecode(rows[1..], now);
      GoodPostingDecodes(rows[0], now);
      assert PlainRows(rows) == [PlainRows(rows)[0]] + PlainRows(rows[1..]);
    }
  }

  lemma BatchIsGood(header: EntryRow, rows: seq<LineRow>, createdBy: string, now: int)
    requires GoodLines(header.number, rows) && header.number > 0 && EARLIEST < header.date <= now
    ensures var batch := BatchRows(header, rows, createdBy);
            && (forall i :: 0 <= i < |batch| ==> GoodPosting(batch[i], now))
            && SortBy(batch, LineIndexLe) == batch
            && PlainRows(batch) == PlainPostings(PlainEntry(header, rows))
  {
    var batch := BatchRows(header, rows, createdBy);
    SortOrdered(batch, LineIndexLe);
    forall i | 0 <= i < |rows|
      ensures GoodPosting(batch[i], now)
    {
      assert GoodLine(rows[i]);
    }
  }

  lemma HeaderFacts(t: Tables, number: int, now: int)
    requires JournalOk(t, now) && FindEntry(t.entries, number).Some?
    ensures var header := FindEntry(t.entries, number).value;
            && header.number == number > 0 && EARLIEST < header.date <= now
            && GoodLines(number, LinesOf(t, number))
  {
    var header := FindEntry(t.entries, number).value;
    assert GoodEntry(t, header, now);
    SavedLines(t, number, now);
  }

  /** Whatever is posted can be read back, and is one posting per line of the entry as read. */
  lemma PostingsReadBack(start: int, events: seq<Event>, number: int)
    ensures var s := Exec(Start(start), events);
            var read := GetByJournalNumber(s.t, number, s.now);
            var header := FindEntry(s.t.entries, number);
            if Posted(s.t, number) == [] then read == Ok([])
            else header.Some? && read == Ok(PlainPostings(PlainEntry(header.value, LinesOf(s.t, number))))
  {
    Reachable(start, events);
    var s := Exec(Start(start), events);
    assert PostedOnce(s.t, number);
    ReadBack(s.t, number, s.now);
  }

  lemma ReadBack(t: Tables, number: int, now: int)
    requires JournalOk(t, now) && PostedOnce(t, number)
    ensures GetByJournalNumber(t, number, now)
         == if Posted(t, number) == [] then Ok([])
            else Ok(PlainPostings(PlainEntry(FindEntry(t.entries, number).value, LinesOf(t, number))))
  {
    var posted := Posted(t, number);
    if posted != [] {
      var header, rows := FindEntry(t.entries, number).value, LinesOf(t, number);
      HeaderFacts(t, number, now);
      BatchIsGood(header, rows, posted[0].createdBy, now);
      GoodPostingsDecode(posted, now);
    }
  }

  /** The outcome of a posting call run alone, by the guard it meets first. */
  function PostOutcome(t: Tables, number: int, actor: string): Option<ErrorCode> {
    if !NonBlank(actor) then Some(RequiredField)
    else if number !in EntryNumbers(t.entries) then Some(UnknownJournalEntry)
    else if SumBy(LinesOf(t, number), RowDebit) != SumBy(LinesOf(t, number), RowCredit) then Some(UncaughtValidation)
    else if Filter(t.postings, OfJournal(number)) != [] then Some(JournalAlreadyPosted)
    else None
  }

  /** A posting call run alone from a reachable state succeeds exactly when its actor is not
      blank, the entry is saved, its stored totals agree and nothing is posted for it; it then
      appends the entry's batch, and otherwise changes nothing. */
  lemma PostSucceedsIff(start: int, events: seq<Event>, number: int, actor: string)
    ensures var s := Exec(Start(start), events);
            var (t', c) := PostingService.Run(s.t, PostingService.PostAsked(number, actor), s.now);
            match PostOutcome(s.t, number, actor)
            case Some(error) => t' == s.t && c == PostingService.PostDone(number, Err(error), actor)
            case None =>
              var header, rows := FindEntry(s.t.entries, number).value, LinesOf(s.t, number);
              && t' == s.t.(postings := s.t.postings + BatchRows(header, rows, actor))
              && c == PostingService.PostDone(number, Ok(PlainPostings(PlainEntry(header, rows))), actor)
  {
    Reachable(start, events);
    var s := Exec(Start(start), events);
    assert PostedOnce(s.t, number);
    PostAlone(s.t, number, actor, s.now);
  }

  lemma PostAlone(t: Tables, number: int, actor: string, now: int)
    requires JournalOk(t, now) && PostedOnce(t, number)
    ensures var (t', c) := PostingService.Run(t, PostingService.PostAsked(number, actor), now);
            match PostOutcome(t, number, actor)
            case Some(error) => t' == t && c == PostingService.PostDone(number, Err(error), actor)
            case None =>
              var header, rows := FindEntry(t.entries, number).value, LinesOf(t, number);
              && t' == t.(postings := t.postings + BatchRows(header, rows, actor))
              && c == PostingService.PostDone(number, Ok(PlainPostings(PlainEntry(header, rows))), actor)
  {
    hide JournalOk, PostedOnce, GetByNumber, GetByJournalNumber, SaveManyTx, DerivePostings;
    var found := FindEntry(t.entries, number);
    if NonBlank(actor) {
      var asked := PostingService.PostAsked(number, actor);
      if found.Some? {
        ReadableIffRoundedBalance(t, found.value, now);
        if RoundedBalance(LinesOf(t, number)) {
          var entry := PlainEntry(found.value, LinesOf(t, number));
          var loaded := PostingService.PostLoaded(number, entry, actor);
          assert PostingService.Run(t, asked, now) == PostingService.Run(t, loaded, now);
          ReadBack(t, number, now);
          HeaderFacts(t, number, now);
          HeldBatch(t, number, entry, actor, now);
          SaveManyOutcome(t, number, entry, actor, now);
          if Posted(t, number) == [] {
            var checked := PostingService.PostChecked(number, PlainPostings(entry), actor);
            assert PostingService.Run(t, loaded, now) == PostingService.Run(t, checked, now);
          }
        }
      } else {
        MissingEntry(t, number, now);
      }
    }
  }

  lemma MissingEntry(t: Tables, number: int, now: int)
    requires FindEntry(t.entries, number).None?
    ensures GetByNumber(t, number, now) == Ok(None)
  {
  }

  lemma PostingRowsReportable(t: Tables, now: int)
    requires JournalOk(t, now) && PostingsOk(t)
    ensures forall r :: r in t.postings ==> ReportableRow(r)
  {
    forall r | r in t.postings
      ensures ReportableRow(r)
    {
      assert PostedOnce(t, r.number);
      var posted := Posted(t, r.number);
      assert r in posted;
      var i :| 0 <= i < |posted| && posted[i] == r;
      HeaderFacts(t, r.number, now);
      BatchIsGood(FindEntry(t.entries, r.number).value, LinesOf(t, r.number), posted[0].createdBy, now);
      assert GoodPosting(posted[i], now);
    }
  }

  /** Every trial balance of every reachable state can be produced and is balanced, for all
      time and at every cutoff date: the postings dated on or before it debit what they credit,
      and the report's two totals are that sum. */
  lemma TrialBalanceBalances(start: int, events: seq<Event>, cutoff: Option<int>)
    ensures var t := Exec(Start(start), events).t;
            var report := GetAccountBalances(t, cutoff);
            && report.Ok? && IsBalanced(report.value)
            && DebitsBy(t.postings, cutoff) == CreditsBy(t.postings, cutoff)
            && ReportDebits(report.value) == FromCents(DebitsBy(t.postings, cutoff))
  {
    Reachable(start, events);
    var s := Exec(Start(start), events);
    PostingRowsReportable(s.t, s.now);
    ReportRefinesListing(s.t, cutoff);
    assert BalancedAt(s.t.postings, cutoff);
  }

  /** Some row of the report is that of the lookup key. */
  ghost predicate Reported(report: seq<BalanceEntry>, key: string) {
    exists i :: 0 <= i < |report| && Fold(report[i].account) == key
  }

  /** A report that says what the postings dated on or before the cutoff say: its keys are
      theirs, once each and in order, with the sums over each key's rows, which are also those
      of listing the account; and its totals are the sums over all of them. */
  ghost predicate Refines(report: seq<BalanceEntry>, t: Tables, cutoff: Option<int>) {
    && (forall key :: Reported(report, key) <==> DatedBy(t.postings, key, cutoff))
    && (forall i :: 0 <= i < |report| ==>
          && report[i].debit == FromCents(KeyDebitsBy(t.postings, Fold(report[i].account), cutoff))
                             == FromCents(ListedDebits(t, report[i].account, cutoff))
          && report[i].credit == FromCents(KeyCreditsBy(t.postings, Fold(report[i].account), cutoff))
                              == FromCents(ListedCredits(t, report[i].account, cutoff)))
    && (forall i, j :: 0 <= i < j < |report| ==>
          StrictlyBefore(report[i].account, report[j].account) && Fold(report[i].account) != Fold(report[j].account))
    && ReportDebits(report) == FromCents(DebitsBy(t.postings, cutoff))
    && ReportCredits(report) == FromCents(CreditsBy(t.postings, cutoff))
  }

  /** And it is a refinement of reading the postings by key and date. */
  lemma TrialBalanceRefines(start: int, events: seq<Event>, cutoff: Option<int>)
    ensures var t := Exec(Start(start), events).t;
            GetAccountBalances(t, cutoff).Ok? && Refines(GetAccountBalances(t, cutoff).value, t, cutoff)
  {
    Reachable(start, events);
    var s := Exec(Start(start), events);
    PostingRowsReportable(s.t, s.now);
    hide Exec, TablesOk, Refines;
    ReportRows(s.t, cutoff);
  }

  lemma ReportRows(t: Tables, cutoff: Option<int>)
    requires forall r :: r in t.postings ==> ReportableRow(r)
    ensures GetAccountBalances(t, cutoff).Ok? && Refines(GetAccountBalances(t, cutoff).value, t, cutoff)
  {
    ReportRefinesListing(t, cutoff);
    var groups := Query(t.postings, cutoff);
    hide StrictlyBefore, Query, FromCents, ListedDebits, ListedCredits, ReportDebits, ReportCredits, DatedBy, KeyDebitsBy, KeyCreditsBy,
         DebitsBy, CreditsBy, GetAccountBalances;
    ReportedKeys(groups);
  }

  /** The cutoff in every reachable state: postings dated after it change nothing of the report,
      and an account with a posting dated on it is there. */
  lemma CutoffIsInclusive(start: int, events: seq<Event>, cutoff: int, late: seq<PostingRow>, r: PostingRow)
    requires forall p :: p in late ==> p.date > cutoff
    requires r in Exec(Start(start), events).t.postings && r.date == cutoff
    ensures var t := Exec(Start(start), events).t;
            var report := GetAccountBalances(t, Some(cutoff));
            && GetAccountBalances(t.(postings := t.postings + late), Some(cutoff)) == report
            && report.Ok? && Reported(report.value, r.accountKey)
  {
    TrialBalanceRefines(start, events, Some(cutoff));
    var t := Exec(Start(start), events).t;
    LaterIsUnseen(t.postings, late, [], cutoff);
    assert t.postings + late + [] == t.postings + late && t.postings + [] == t.postings;
    hide Exec;
    assert DatedBy(t.postings, r.accountKey, Some(cutoff));
  }

  lemma ReportedKeys(groups: seq<Group>)
    requires forall i :: 0 <= i < |groups| ==> Fold(groups[i].account) == groups[i].key
    ensures forall key :: Reported(PlainBalances(groups), key) <==> HasKey(groups, key)
  {
    var report := PlainBalances(groups);
    hide PlainBalances, Fold;
    forall key
      ensures Reported(report, key) <==> HasKey(groups, key)
    {
      if HasKey(groups, key) {
        var i :| 0 <= i < |groups| && groups[i].key == key;
        assert Fold(report[i].account) == key;
      }
      if Reported(report, key) {
        var i :| 0 <= i < |report| && Fold(report[i].account) == key;
        assert groups[i].key == key;
      }
    }
  }

  /** Every number the sequence has given out belongs to exactly one call; it is saved exactly
      when that call succeeded, and otherwise is held or is a gap for ever. */
  lemma NumbersAccountedFor(start: int, events: seq<Event>, number: int)
    ensures var s := Exec(Start(start), events);
            && (1 <= number <= s.t.lastNumber <==> Owned(s.calls, number))
            && (number in EntryNumbers(s.t.entries) <==>
                  exists i :: i in s.calls && Reserved(s.calls[i]) == Some(number) && Created(s.calls[i]))
            && forall i, j | i in s.calls && j in s.calls ::
                 Reserved(s.calls[i]) == Reserved(s.calls[j]) == Some(number) ==> i == j
  {
    Reachable(start, events);
    var s := Exec(Start(start), events);
    if Owned(s.calls, number) {
      var i :| i in s.calls && Reserved(s.calls[i]) == Some(number);
      ReservedInRange(s.t, s.calls[i], s.now);
      CreatedIffSaved(s.t, s.calls[i], number, s.now);
    }
    if number in EntryNumbers(s.t.entries) {
      var row :| row in s.t.entries && row.number == number;
      assert GoodEntry(s.t, row, s.now);
      assert Owned(s.calls, number);
    }
    forall i | i in s.calls && Reserved(s.calls[i]) == Some(number)
      ensures Created(s.calls[i]) <==> number in EntryNumbers(s.t.entries)
    {
      CreatedIffSaved(s.t, s.calls[i], number, s.now);
    }
  }

  lemma CreatedIffSaved(t: Tables, c: Call, number: int, now: int)
    requires CallOk(t, c, now) && Reserved(c) == Some(number)
    ensures Created(c) <==> number in EntryNumbers(t.entries)
  {
  }

  /** The primary-key collision the repository guards against is out of reach: a call about to
      save holds a number no entry has. */
  lemma CollisionUnreachable(start: int, events: seq<Event>, id: nat)
    ensures var s := Exec(Start(start), events);
            id in s.calls && Reserved(s.calls[id]).Some? && !Created(s.calls[id]) ==>
              Reserved(s.calls[id]).value !in EntryNumbers(s.t.entries)
  {
    Reachable(start, events);
    var s := Exec(Start(start), events);
    if id in s.calls && Reserved(s.calls[id]).Some? {
      CreatedIffSaved(s.t, s.calls[id], Reserved(s.calls[id]).value, s.now);
    }
  }

  /** An entry some call created reads back, ever after, as its amounts rounded to cents,
      exactly when the rounded totals agree; a whole-cent entry reads back as itself. */
  lemma CreatedEntryReadsBack(start: int, events: seq<Event>, id: nat)
    ensures var s := Exec(Start(start), events);
            id in s.calls && Created(s.calls[id]) ==>
              var e := s.calls[id].e.result.value;
              var rows := LineRowsOf(e.number, e.lines);
              && (GetByNumber(s.t, e.number, s.now)
                  == if RoundedBalance(rows) then Ok(Some(e.(lines := PlainLines(rows))))
                     else Err(UncaughtValidation))
              && (WholeCentEntry(e) ==> GetByNumber(s.t, e.number, s.now) == Ok(Some(e)))
  {
    Reachable(start, events);
    var s := Exec(Start(start), events);
    if id in s.calls && Created(s.calls[id]) {
      var c := s.calls[id].e;
      var e := c.result.value;
      assert CallOk(s.t, s.calls[id], s.now);
      ReadableIffRoundedBalance(s.t, HeaderOf(e, c.actor), s.now);
      WholeCentsBalance(e, s.now);
    }
  }

  lemma WholeCentsBalance(e: Entry, now: int)
    requires ValidEntry(e, now)
    ensures WholeCentEntry(e) ==>
              && RoundedBalance(LineRowsOf(e.number, e.lines))
              && PlainLines(LineRowsOf(e.number, e.lines)) == e.lines
  {
    WholeCentsStoredExactly(e);
    DecodedTotals(LineRowsOf(e.number, e.lines));
  }

  lemma AscendingNumbersComplete(t: Tables)
    requires UniqueNumbers(t.entries)
    ensures var numbers := AscendingNumbers(t);
            && (forall n :: n in numbers <==> n in EntryNumbers(t.entries))
            && (forall i, j :: 0 <= i < j < |numbers| ==> numbers[i] < numbers[j])
  {
    var headers, numbers := SortBy(t.entries, NumberLe), AscendingNumbers(t);
    SortedMembers(t.entries, NumberLe);
    NumberOrder();
    SortGivesOrder(t.entries, NumberLe);
    SortedStaysUnique(t.entries);
    forall n | n in EntryNumbers(t.entries)
      ensures n in numbers
    {
      var r :| r in t.entries && r.number == n;
      assert r in headers;
      var i :| 0 <= i < |headers| && headers[i] == r;
      assert numbers[i] == n;
    }
    forall i | 0 <= i < |numbers|
      ensures numbers[i] in EntryNumbers(t.entries)
    {
      assert headers[i] in headers;
    }
    forall i, j | 0 <= i < j < |numbers|
      ensures numbers[i] < numbers[j]
    {
      assert NumberLe(headers[i], headers[j]);
    }
  }

  lemma NumberOrder()
    ensures Preorder(NumberLe)
  {
  }

  lemma {:induction false} InsertStaysUnique(x: EntryRow, entries: seq<EntryRow>)
    requires UniqueNumbers(entries) && forall e :: e in entries ==> e.number != x.number
    ensures UniqueNumbers(InsertBy(x, entries, NumberLe))
  {
    if entries != [] && !NumberLe(x, entries[0]) {
      InsertStaysUnique(x, entries[1..]);
      InsertMembers(x, entries[1..], NumberLe);
      var tail := InsertBy(x, entries[1..], NumberLe);
      forall j | 0 <= j < |tail|
        ensures tail[j].number != entries[0].number
      {
        assert tail[j] in tail;
        assert forall k :: 1 <= k < |entries| ==> entries[k].number != entries[0].number;
      }
    }
  }

  lemma {:induction false} SortedStaysUnique(entries: seq<EntryRow>)
    requires UniqueNumbers(entries)
    ensures UniqueNumbers(SortBy(entries, NumberLe))
  {
    if entries != [] {
      SortedStaysUnique(entries[1..]);
      SortedMembers(entries[1..], NumberLe);
      InsertStaysUnique(entries[0], SortBy(entries[1..], NumberLe));
    }
  }

  lemma {:induction false} AllReadable(t: Tables, numbers: seq<int>, now: int)
    requires JournalOk(t, now) && forall n :: n in numbers ==> n in EntryNumbers(t.entries)
    ensures GetAll(t, numbers, now).Ok? <==> forall n :: n in numbers ==> RoundedBalance(LinesOf(t, n))
  {
    hide JournalOk, RoundedBalance, LinesOf, GetByNumber;
    if numbers != [] {
      var n := numbers[0];
      AllReadable(t, numbers[1..], now);
      var header := FindEntry(t.entries, n).value;
      ReadableIffRoundedBalance(t, header, now);
      assert numbers == [n] + numbers[1..];
    }
  }

  /** Listing the journal works exactly when every saved entry still balances after rounding:
      one entry that does not makes the whole list unreadable. */
  lemma ListReadableIff(start: int, events: seq<Event>)
    ensures var s := Exec(Start(start), events);
            GetAll(s.t, AscendingNumbers(s.t), s.now).Ok?
            <==> forall n :: n in EntryNumbers(s.t.entries) ==> RoundedBalance(LinesOf(s.t, n))
  {
    Reachable(start, events);
    var s := Exec(Start(start), events);
    AscendingNumbersComplete(s.t);
    AllReadable(s.t, AscendingNumbers(s.t), s.now);
  }

  /** Two decimals keep the line's side and fit its column. */
  predicate Storable(lines: seq<Line>) {
    forall i :: 0 <= i < |lines| ==>
      && (lines[i].debit >= 0.005 || lines[i].credit >= 0.005)
      && FitsNumeric(ToCents(lines[i].debit)) && FitsNumeric(ToCents(lines[i].credit))
  }

  lemma CommitsIffStorable(t: Tables, e: Entry, actor: string, now: int)
    requires JournalOk(t, now) && ValidEntry(e, now) && e.number !in EntryNumbers(t.entries)
    ensures Commits(t, HeaderOf(e, actor), LineRowsOf(e.number, e.lines), now) <==> Storable(e.lines)
  {
  }

  /** The outcome of a creating call run alone, by the guard it meets first; the second part
      says whether the number was already taken by then. */
  function CreateOutcome(t: Tables, input: EntryInput, actor: string, now: int): (Option<ErrorCode>, bool) {
    var chart := JournalService.GetChart(t);
    var lines := BuildLines(input.lines);
    if !NonBlank(actor) then (Some(RequiredField), false)
    else if chart.Err? then (Some(chart.error), false)
    else if !JournalService.AllKnown(chart.value, input.lines) then (Some(UnknownAccount), false)
    else if lines.None? || BuildEntry(t.lastNumber + 1, input.date, lines.value, input.description, now).None?
    then (Some(ValidationError), true)
    else if !Storable(lines.value) then (Some(UnknownError), true)
    else (None, true)
  }

  /** What that outcome leaves behind: a failure before the number changes nothing, one after
      it only moves the sequence, and success saves the entry under the next number. */
  ghost predicate CreateLeaves(t: Tables, t': Tables, c: JournalService.EntryCall, input: EntryInput, actor: string, now: int) {
    match CreateOutcome(t, input, actor, now)
    case (Some(error), false) => t' == t && c == JournalService.EntryDone(None, Err(error), actor)
    case (Some(error), true) =>
      && t' == t.(lastNumber := t.lastNumber + 1)
      && c == JournalService.EntryDone(Some(t.lastNumber + 1), Err(error), actor)
    case (None, _) =>
      var e := Entry(t.lastNumber + 1, input.date, BuildLines(input.lines).value, input.description);
      && t' == SaveTx(t.(lastNumber := t.lastNumber + 1), e, actor, now).0
      && c == JournalService.EntryDone(Some(e.number), Ok(e), actor)
  }

  lemma CreateAlone(t: Tables, input: EntryInput, actor: string, now: int)
    requires TablesOk(t, now)
    ensures var (t', c) := JournalService.Run(t, JournalService.EntryAsked(input, actor), now);
            CreateLeaves(t, t', c, input, actor, now)
  {
    hide TablesOk, BuildLines, BuildEntry, JournalService.GetChart, Storable, Commits, TrimmedInput;
    var asked := JournalService.EntryAsked(input, actor);
    var outcome := CreateOutcome(t, input, actor, now);
    if outcome.1 {
      ResolvedIsTrimmed(t, input, actor, now);
      var resolved := JournalService.EntryResolved(input, actor);
      assert JournalService.Run(t, asked, now) == JournalService.Run(t, resolved, now);
      ReserveTurn(t, input, actor, now);
      NumberedAlone(t.(lastNumber := t.lastNumber + 1), t.lastNumber + 1, input, actor, now);
    }
  }

  lemma NumberedAlone(t: Tables, number: int, input: EntryInput, actor: string, now: int)
    requires TablesOk(t, now) && EntryCallOk(t, JournalService.EntryNumbered(number, input, actor), now)
    ensures var (t', c) := JournalService.Run(t, JournalService.EntryNumbered(number, input, actor), now);
            var lines := BuildLines(input.lines);
            if lines.None? || BuildEntry(number, input.date, lines.value, input.description, now).None?
            then t' == t && c == JournalService.EntryDone(Some(number), Err(ValidationError), actor)
            else if !Storable(lines.value)
            then t' == t && c == JournalService.EntryDone(Some(number), Err(UnknownError), actor)
            else
              var e := Entry(number, input.date, lines.value, input.description);
              && t' == SaveTx(t, e, actor, now).0
              && c == JournalService.EntryDone(Some(number), Ok(e), actor)
  {
    hide TablesOk, Storable, Commits;
    NumberedTurn(t, number, input, actor, now);
    var numbered := JournalService.EntryNumbered(number, input, actor);
    var c := JournalService.Step(t, numbered, now).1;
    if c.EntryBuilt? {
      assert JournalService.Run(t, numbered, now) == JournalService.Run(t, c, now);
      BuiltCommits(t, c.entry, actor, now);
    }
  }

  lemma BuiltCommits(t: Tables, e: Entry, actor: string, now: int)
    requires TablesOk(t, now) && EntryCallOk(t, JournalService.EntryBuilt(e, actor), now)
    ensures Commits(t, HeaderOf(e, actor), LineRowsOf(e.number, e.lines), now) <==> Storable(e.lines)
  {
    CommitsIffStorable(t, e, actor, now);
  }

  /** A creating call run alone from a reachable state: which input succeeds, what each failure
      reports, and that only a failure after the number was taken leaves a gap. */
  lemma CreateSucceedsIff(start: int, events: seq<Event>, input: EntryInput, actor: string)
    ensures var s := Exec(Start(start), events);
            var (t', c) := JournalService.Run(s.t, JournalService.EntryAsked(input, actor), s.now);
            CreateLeaves(s.t, t', c, input, actor, s.now)
  {
    hide CreateLeaves, JournalService.Run;
    Reachable(start, events);
    var s := Exec(Start(start), events);
    CreateAlone(s.t, input, actor, s.now);
  }

  /** The whole of one call with nothing else in between, for any kind of call. */
  function RunCall(t: Tables, c: Call, now: int): (Tables, Call) {
    match c
    case AccountTask(a) => var (t', a') := AccountService.Run(t, a, now); (t', AccountTask(a'))
    case EntryTask(e) => var (t', e') := JournalService.Run(t, e, now); (t', EntryTask(e'))
    case PostTask(p) => var (t', p') := PostingService.Run(t, p, now); (t', PostTask(p'))
  }

  function RankOf(c: Call): nat {
    match c
    case AccountTask(a) => AccountService.Rank(a)
    case EntryTask(e) => JournalService.Rank(e)
    case PostTask(p) => PostingService.Rank(p)
  }

  function Turns(id: nat, k: nat): (events: seq<Event>)
    ensures |events| == k && forall i :: 0 <= i < k ==> events[i] == Turn(id)
  {
    seq(k, _ => Turn(id))
  }

  lemma {:induction false} ExecFirst(s: State, first: Event, rest: seq<Event>)
    ensures Exec(s, [first] + rest) == Exec(Apply(s, first), rest)
  {
    var events := [first] + rest;
    if rest == [] {
      assert events[..|events| - 1] == [];
    } else {
      assert events[..|events| - 1] == [first] + rest[..|rest| - 1];
      ExecFirst(s, first, rest[..|rest| - 1]);
    }
  }

  lemma RunUnrolls(t: Tables, c: Call, now: int)
    ensures var (t', c') := StepCall(t, c, now);
            && RunCall(t, c, now) == RunCall(t', c', now)
            && (RankOf(c') < RankOf(c) || (RankOf(c) == 0 && c' == c && t' == t) || RankOf(c') == 0)
            && (RankOf(c) == 0 ==> RunCall(t, c, now) == (t, c))
  {
  }

  /** The sequential services and the machine are one and the same: giving a call its turns
      with nothing else in between ends where the service method ends. */
  lemma {:induction false} SoloRun(s: State, id: nat, k: nat)
    requires id in s.calls && k >= RankOf(s.calls[id])
    ensures var (t', c') := RunCall(s.t, s.calls[id], s.now);
            Exec(s, Turns(id, k)) == State(t', s.now, s.calls[id := c'])
    decreases k
  {
    hide RunCall, RankOf, StepCall;
    var c := s.calls[id];
    RunUnrolls(s.t, c, s.now);
    if k == 0 {
      assert s.calls[id := c] == s.calls;
    } else {
      var next := Apply(s, Turn(id));
      assert Turns(id, k) == [Turn(id)] + Turns(id, k - 1);
      ExecFirst(s, Turn(id), Turns(id, k - 1));
      SoloRun(next, id, k - 1);
      var (t', c') := RunCall(s.t, c, s.now);
      assert next.calls[id := c'] == s.calls[id := c'];
    }
  }
}
