/** The posting repository: the batch write, its constraints, and the two lookups. */
module PostingStore {
  import opened Outcomes
  import opened Text
  import opened Money
  import opened Seqs
  import opened Journals
  import opened Tables
  import opened JournalStore

  function PostingRowOf(p: Posting, index: nat, createdBy: string): PostingRow {
    PostingRow(p.account, Fold(p.account), ToCents(p.debit), ToCents(p.credit),
               p.number, p.date, index, createdBy)
  }

  function PostingRowsOf(batch: seq<Posting>, createdBy: string): (rows: seq<PostingRow>)
    ensures |rows| == |batch|
    ensures forall i :: 0 <= i < |batch| ==> rows[i] == PostingRowOf(batch[i], i, createdBy)
  {
    seq(|batch|, i requires 0 <= i < |batch| => PostingRowOf(batch[i], i, createdBy))
  }

  /** UNIQUE (journal_number, line_index), the foreign key and the CHECKs. */
  predicate Accepts(t: Tables, rows: seq<PostingRow>, now: int) {
    && (forall r :: r in rows ==>
          && r.number in EntryNumbers(t.entries)
          && ExactlyOneSide(r.debit, r.credit) && DateInRange(r.date, now))
    && (forall i, j :: 0 <= i < j < |rows| ==>
          !(rows[i].number == rows[j].number && rows[i].lineIndex == rows[j].lineIndex))
    && (forall p, r :: p in t.postings && r in rows ==>
          !(p.number == r.number && p.lineIndex == r.lineIndex))
  }

  predicate Representable(rows: seq<PostingRow>) {
    forall r :: r in rows ==> FitsNumeric(r.debit) && FitsNumeric(r.credit)
  }

  /** One transaction: the whole batch, or nothing.  Every rejected constraint is reported as
      an already posted entry; a value too wide for its column is not. */
  function SaveManyTx(t: Tables, batch: seq<Posting>, createdBy: string, now: int)
    : (Tables, Result<(), ErrorCode>)
  {
    var rows := PostingRowsOf(batch, createdBy);
    if !Representable(rows) then (t, Err(UnknownError))
    else if !Accepts(t, rows, now) then (t, Err(JournalAlreadyPosted))
    else (t.(postings := t.postings + rows), Ok(()))
  }

  function OfJournal(number: int): PostingRow -> bool { (r: PostingRow) => r.number == number }

  function OfKey(key: string): PostingRow -> bool { (r: PostingRow) => r.accountKey == key }

  predicate LineIndexLe(a: PostingRow, b: PostingRow) { a.lineIndex <= b.lineIndex }

  predicate DateLe(a: PostingRow, b: PostingRow) { a.date <= b.date }

  function PostingDebit(r: PostingRow): int { r.debit }

  function PostingCredit(r: PostingRow): int { r.credit }

  function DecodePosting(r: PostingRow, now: int): Option<Posting> {
    BuildPosting(r.account, FromCents(r.debit), FromCents(r.credit), r.number, r.date, now)
  }

  function DecodePostings(rows: seq<PostingRow>, now: int): Result<seq<Posting>, ErrorCode> {
    if rows == [] then Ok([])
    else
      var posting := DecodePosting(rows[0], now);
      var rest := DecodePostings(rows[1..], now);
      if posting.None? then Err(UncaughtValidation)
      else if rest.Err? then rest
      else Ok([posting.value] + rest.value)
  }

  function JournalRows(t: Tables, number: int): seq<PostingRow> {
    SortBy(Filter(t.postings, OfJournal(number)), LineIndexLe)
  }

  function AccountRows(t: Tables, account: string): seq<PostingRow> {
    SortBy(Filter(t.postings, OfKey(Fold(account))), DateLe)
  }

  function GetByJournalNumber(t: Tables, number: int, now: int): Result<seq<Posting>, ErrorCode> {
    DecodePostings(JournalRows(t, number), now)
  }

  function GetByAccount(t: Tables, account: string, now: int): Result<seq<Posting>, ErrorCode> {
    DecodePostings(AccountRows(t, account), now)
  }

  class PostingRepo {
    const db: Database

    constructor (db: Database)
      ensures this.db == db
    {
      this.db := db;
    }

    method SaveMany(batch: seq<Posting>, createdBy: string, now: int) returns (r: Result<(), ErrorCode>)
      modifies db
      ensures (db.tables, r) == SaveManyTx(old(db.tables), batch, createdBy, now)
    {
      var session: seq<PostingRow> := [];
      for index := 0 to |batch|
        invariant session == PostingRowsOf(batch, createdBy)[..index]
      {
        var p := batch[index];
        session := session + [PostingRow(p.account, Fold(p.account), ToCents(p.debit), ToCents(p.credit),
                                         p.number, p.date, index, createdBy)];
      }
      assert session == PostingRowsOf(batch, createdBy);
      var t := db.tables;
      if !Representable(session) {
        return Err(UnknownError);
      }
      if !Accepts(t, session, now) {
        return Err(JournalAlreadyPosted);
      }
      db.tables := t.(postings := t.postings + session);
      r := Ok(());
    }
  }

  /** The rows one saved entry posts: one per line, in line order, with the line's account and
      cents and the entry's number and date. */
  function BatchRows(header: EntryRow, rows: seq<LineRow>, createdBy: string): (batch: seq<PostingRow>)
    ensures |batch| == |rows|
    ensures forall i :: 0 <= i < |rows| ==>
              batch[i] == PostingRow(rows[i].account, Fold(rows[i].account), rows[i].debit, rows[i].credit,
                                     header.number, header.date, i, createdBy)
  {
    seq(|rows|, i requires 0 <= i < |rows| =>
      PostingRow(rows[i].account, Fold(rows[i].account), rows[i].debit, rows[i].credit,
                 header.number, header.date, i, createdBy))
  }

  /** What the ledger holds for one journal number: nothing, or exactly the batch of a saved
      entry whose stored totals agree. */
  ghost predicate PostedOnce(t: Tables, number: int) {
    var posted := Filter(t.postings, OfJournal(number));
    posted == [] ||
    (var header := FindEntry(t.entries, number);
     && header.Some?
     && RoundedBalance(LinesOf(t, number))
     && posted == BatchRows(header.value, LinesOf(t, number), posted[0].createdBy))
  }

  ghost predicate PostingsOk(t: Tables) {
    forall n :: PostedOnce(t, n)
  }

  function PlainPostings(e: Entry): (ps: seq<Posting>)
    ensures |ps| == |e.lines|
    ensures forall i :: 0 <= i < |e.lines| ==>
              ps[i] == Posting(e.lines[i].account, e.lines[i].debit, e.lines[i].credit, e.number, e.date)
  {
    seq(|e.lines|, i requires 0 <= i < |e.lines| =>
      Posting(e.lines[i].account, e.lines[i].debit, e.lines[i].credit, e.number, e.date))
  }

  ghost predicate PostableLine(l: Line) {
    StoredReference(l.account) && l.debit >= 0.0 && l.credit >= 0.0 && ValidLineAmounts(l.debit, l.credit)
  }

  lemma {:induction false} LinesDerive(lines: seq<Line>, number: int, date: int, now: int)
    requires number > 0 && EARLIEST < date <= now
    requires forall i :: 0 <= i < |lines| ==> PostableLine(lines[i])
    ensures DeriveLines(lines, number, date, now) == Some(PlainPostings(Entry(number, date, lines, None)))
  {
    var whole := PlainPostings(Entry(number, date, lines, None));
    if lines != [] {
      LinesDerive(lines[1..], number, date, now);
      assert PostableLine(lines[0]);
      assert whole == [whole[0]] + PlainPostings(Entry(number, date, lines[1..], None));
    }
  }

  lemma StoredLineIsPostable(r: LineRow)
    requires GoodLine(r)
    ensures PostableLine(Line(r.account, FromCents(r.debit), FromCents(r.credit)))
  {
  }

  /** Deriving from an entry that was read back always succeeds, and writing the result
      reproduces the stored lines cent for cent. */
  lemma DerivedBatch(header: EntryRow, rows: seq<LineRow>, createdBy: string, now: int)
    requires GoodLines(header.number, rows)
    requires header.number > 0 && EARLIEST < header.date <= now
    ensures var e := PlainEntry(header, rows);
            && DerivePostings(e, now) == Some(PlainPostings(e))
            && PostingRowsOf(PlainPostings(e), createdBy) == BatchRows(header, rows, createdBy)
  {
    var e := PlainEntry(header, rows);
    forall i | 0 <= i < |rows|
      ensures PostableLine(e.lines[i])
    {
      assert GoodLine(rows[i]);
      StoredLineIsPostable(rows[i]);
    }
    LinesDerive(e.lines, e.number, e.date, now);
    assert PlainPostings(e) == PlainPostings(Entry(e.number, e.date, e.lines, None));
    forall i | 0 <= i < |rows|
      ensures PostingRowsOf(PlainPostings(e), createdBy)[i] == BatchRows(header, rows, createdBy)[i]
    {
      CentsRoundTrip(rows[i].debit);
      CentsRoundTrip(rows[i].credit);
    }
  }

  function UpTo(cutoff: Option<int>): PostingRow -> bool {
    (r: PostingRow) => cutoff.None? || r.date <= cutoff.value
  }

  /** The rows a report with this cutoff is computed from. */
  function InScope(rows: seq<PostingRow>, cutoff: Option<int>): seq<PostingRow> {
    Filter(rows, UpTo(cutoff))
  }

  /** What the rows dated on or before the cutoff debit and credit, added up directly. */
  function DebitsBy(rows: seq<PostingRow>, cutoff: Option<int>): int {
    if rows == [] then 0
    else (if cutoff.None? || rows[0].date <= cutoff.value then rows[0].debit else 0) + DebitsBy(rows[1..], cutoff)
  }

  function CreditsBy(rows: seq<PostingRow>, cutoff: Option<int>): int {
    if rows == [] then 0
    else (if cutoff.None? || rows[0].date <= cutoff.value then rows[0].credit else 0) + CreditsBy(rows[1..], cutoff)
  }

  ghost predicate BalancedAt(rows: seq<PostingRow>, cutoff: Option<int>) {
    DebitsBy(rows, cutoff) == CreditsBy(rows, cutoff)
  }

  /** Debits equal credits whatever the cutoff. */
  ghost predicate BalancedBooks(rows: seq<PostingRow>) {
    forall cutoff :: BalancedAt(rows, cutoff)
  }

  lemma {:induction false} ByAppend(a: seq<PostingRow>, b: seq<PostingRow>, cutoff: Option<int>)
    ensures DebitsBy(a + b, cutoff) == DebitsBy(a, cutoff) + DebitsBy(b, cutoff)
    ensures CreditsBy(a + b, cutoff) == CreditsBy(a, cutoff) + CreditsBy(b, cutoff)
  {
    if a == [] {
      assert a + b == b;
    } else {
      assert (a + b)[1..] == a[1..] + b;
      ByAppend(a[1..], b, cutoff);
    }
  }

  /** Rows of one date count whole or not at all. */
  lemma {:induction false} BatchTotals(date: int, rows: seq<LineRow>, batch: seq<PostingRow>, cutoff: Option<int>)
    requires |batch| == |rows|
    requires forall i :: 0 <= i < |rows| ==>
               batch[i].debit == rows[i].debit && batch[i].credit == rows[i].credit && batch[i].date == date
    ensures DebitsBy(batch, cutoff) == if cutoff.None? || date <= cutoff.value then SumBy(rows, RowDebit) else 0
    ensures CreditsBy(batch, cutoff) == if cutoff.None? || date <= cutoff.value then SumBy(rows, RowCredit) else 0
  {
    if rows != [] {
      BatchTotals(date, rows[1..], batch[1..], cutoff);
    }
  }

  /** Appending a batch that balances and carries one date keeps the books balanced at every
      cutoff. */
  lemma BatchKeepsBalance(old_: seq<PostingRow>, header: EntryRow, rows: seq<LineRow>, createdBy: string)
    requires BalancedBooks(old_) && RoundedBalance(rows)
    ensures BalancedBooks(old_ + BatchRows(header, rows, createdBy))
  {
    var batch := BatchRows(header, rows, createdBy);
    forall cutoff
      ensures BalancedAt(old_ + batch, cutoff)
    {
      assert BalancedAt(old_, cutoff);
      ByAppend(old_, batch, cutoff);
      BatchTotals(header.date, rows, batch, cutoff);
    }
  }

  /** The call holds the entry of `number` as the journal stores it. */
  ghost predicate HoldsEntry(t: Tables, number: int, e: Entry) {
    var header := FindEntry(t.entries, number);
    header.Some? && RoundedBalance(LinesOf(t, number)) && e == PlainEntry(header.value, LinesOf(t, number))
  }

  lemma HeldBatch(t: Tables, number: int, e: Entry, createdBy: string, now: int)
    requires JournalOk(t, now) && HoldsEntry(t, number, e)
    ensures var header := FindEntry(t.entries, number).value;
            var rows := LinesOf(t, number);
            && GoodLines(number, rows) && number > 0 && EARLIEST < header.date <= now
            && DerivePostings(e, now) == Some(PlainPostings(e))
            && PostingRowsOf(PlainPostings(e), createdBy) == BatchRows(header, rows, createdBy)
  {
    var header := FindEntry(t.entries, number).value;
    SavedLines(t, number, now);
    assert GoodEntry(t, header, now);
    DerivedBatch(header, LinesOf(t, number), createdBy, now);
  }

  /** A batch whose rows pass their own CHECKs and are numbered by position is accepted
      exactly when no row of its number is in the way. */
  lemma BatchAccepted(t: Tables, number: int, rows: seq<PostingRow>, now: int)
    requires number in EntryNumbers(t.entries)
    requires forall i :: 0 <= i < |rows| ==>
               && rows[i].number == number && rows[i].lineIndex == i
               && ExactlyOneSide(rows[i].debit, rows[i].credit) && DateInRange(rows[i].date, now)
    ensures Accepts(t, rows, now) <==>
            forall p :: p in t.postings && p.number == number ==> p.lineIndex >= |rows|
  {
    forall r | r in rows
      ensures r.number == number && r.lineIndex < |rows|
      ensures ExactlyOneSide(r.debit, r.credit) && DateInRange(r.date, now)
    {
      var i :| 0 <= i < |rows| && rows[i] == r;
    }
    forall p | p in t.postings && p.number == number && p.lineIndex < |rows|
      ensures !Accepts(t, rows, now)
    {
      assert rows[p.lineIndex] in rows;
    }
  }

  lemma GoodBatch(t: Tables, header: EntryRow, lines: seq<LineRow>, createdBy: string, now: int)
    requires GoodLines(header.number, lines) && header.number in EntryNumbers(t.entries)
    requires EARLIEST < header.date <= now
    ensures var rows := BatchRows(header, lines, createdBy);
            && Representable(rows)
            && (Accepts(t, rows, now) <==>
                  forall p :: p in t.postings && p.number == header.number ==> p.lineIndex >= |rows|)
  {
    var rows := BatchRows(header, lines, createdBy);
    forall r | r in rows
      ensures FitsNumeric(r.debit) && FitsNumeric(r.credit)
    {
      var i :| 0 <= i < |rows| && rows[i] == r;
    }
    BatchAccepted(t, header.number, rows, now);
  }

  lemma {:induction false} FilterEmpty(rows: seq<PostingRow>, number: int)
    ensures Filter(rows, OfJournal(number)) == [] <==> forall p :: p in rows ==> p.number != number
  {
    if Filter(rows, OfJournal(number)) == [] {
      assert forall p :: p in rows && p.number == number ==> p in Filter(rows, OfJournal(number));
    } else {
      assert Filter(rows, OfJournal(number))[0] in Filter(rows, OfJournal(number));
    }
  }

  /** The save step of a posting call succeeds exactly when nothing is posted for its number
      yet, and otherwise reports that; a race can only end in this refusal. */
  lemma SaveManyOutcome(t: Tables, number: int, e: Entry, createdBy: string, now: int)
    requires JournalOk(t, now) && PostedOnce(t, number) && HoldsEntry(t, number, e)
    ensures SaveManyTx(t, PlainPostings(e), createdBy, now)
         == if Filter(t.postings, OfJournal(number)) == []
            then (t.(postings := t.postings
                       + BatchRows(FindEntry(t.entries, number).value, LinesOf(t, number), createdBy)), Ok(()))
            else (t, Err(JournalAlreadyPosted))
  {
    HeldBatch(t, number, e, createdBy, now);
    GoodBatch(t, FindEntry(t.entries, number).value, LinesOf(t, number), createdBy, now);
    FilterEmpty(t.postings, number);
    var posted := Filter(t.postings, OfJournal(number));
    if posted != [] {
      assert posted[0] in posted;
      assert posted[0].lineIndex == 0;
      assert posted[0] in t.postings && posted[0].number == number;
    }
  }

  /** The batch written is what its number then holds; every other number is untouched. */
  lemma BatchShows(old_: seq<PostingRow>, batch: seq<PostingRow>, number: int)
    requires Filter(old_, OfJournal(number)) == []
    requires forall r :: r in batch ==> r.number == number
    ensures Filter(old_ + batch, OfJournal(number)) == batch
    ensures forall n :: n != number ==> Filter(old_ + batch, OfJournal(n)) == Filter(old_, OfJournal(n))
  {
    FilterAppend(old_, batch, OfJournal(number));
    FilterAll(batch, OfJournal(number));
    forall n | n != number
      ensures Filter(old_ + batch, OfJournal(n)) == Filter(old_, OfJournal(n))
    {
      FilterAppend(old_, batch, OfJournal(n));
      FilterNone(batch, OfJournal(n));
    }
  }

  lemma PostedNow(t: Tables, number: int, e: Entry, createdBy: string, now: int)
    requires JournalOk(t, now) && PostingsOk(t) && HoldsEntry(t, number, e)
    requires Filter(t.postings, OfJournal(number)) == []
    ensures var header, rows := FindEntry(t.entries, number).value, LinesOf(t, number);
            var t' := t.(postings := t.postings + BatchRows(header, rows, createdBy));
            && PostingsOk(t') && rows != []
            && Filter(t'.postings, OfJournal(number)) == PostingRowsOf(PlainPostings(e), createdBy)
            && forall n :: n != number ==> Filter(t'.postings, OfJournal(n)) == Filter(t.postings, OfJournal(n))
  {
    var header, rows := FindEntry(t.entries, number).value, LinesOf(t, number);
    HeldBatch(t, number, e, createdBy, now);
    var batch := BatchRows(header, rows, createdBy);
    var t' := t.(postings := t.postings + batch);
    BatchShows(t.postings, batch, number);
    forall n
      ensures PostedOnce(t', n)
    {
      assert PostedOnce(t, n);
      assert LinesOf(t', n) == LinesOf(t, n);
    }
  }
}
