/** The journal repository: what each of its transactions does to the tables. */
module JournalStore {
  import opened Outcomes
  import opened Money
  import opened Seqs
  import opened Journals
  import opened Tables

  function LineRowOf(number: int, index: nat, l: Line): LineRow {
    LineRow(number, index, l.account, ToCents(l.debit), ToCents(l.credit))
  }

  function LineRowsOf(number: int, lines: seq<Line>): (rows: seq<LineRow>)
    ensures |rows| == |lines|
    ensures forall i :: 0 <= i < |lines| ==> rows[i] == LineRowOf(number, i, lines[i])
  {
    seq(|lines|, i requires 0 <= i < |lines| => LineRowOf(number, i, lines[i]))
  }

  function HeaderOf(e: Entry, createdBy: string): EntryRow {
    EntryRow(e.number, e.date, e.description, createdBy)
  }

  /** Primary key, CHECKs, column width and UNIQUE (journal_number, line_index). */
  predicate Commits(t: Tables, header: EntryRow, rows: seq<LineRow>, now: int) {
    && header.number !in EntryNumbers(t.entries)
    && DateInRange(header.date, now)
    && (forall r :: r in rows ==>
          ExactlyOneSide(r.debit, r.credit) && FitsNumeric(r.debit) && FitsNumeric(r.credit))
    && (forall l, r :: l in t.lines && r in rows ==>
          !(l.number == r.number && l.lineIndex == r.lineIndex))
  }

  function SaveTx(t: Tables, e: Entry, createdBy: string, now: int): (Tables, Result<(), ErrorCode>) {
    var header := HeaderOf(e, createdBy);
    var rows := LineRowsOf(e.number, e.lines);
    if Commits(t, header, rows, now) then
      (t.(entries := t.entries + [header], lines := t.lines + rows), Ok(()))
    else
      (t, Err(UnknownError))
  }

  function NextNumberTx(t: Tables): (Tables, int) {
    (t.(lastNumber := t.lastNumber + 1), t.lastNumber + 1)
  }

  function OfEntry(number: int): LineRow -> bool { (r: LineRow) => r.number == number }

  predicate IndexLe(a: LineRow, b: LineRow) { a.lineIndex <= b.lineIndex }

  predicate NumberThenIndexLe(a: LineRow, b: LineRow) {
    a.number < b.number || (a.number == b.number && a.lineIndex <= b.lineIndex)
  }

  predicate NumberLe(a: EntryRow, b: EntryRow) { a.number <= b.number }

  function RowDebit(r: LineRow): int { r.debit }

  function RowCredit(r: LineRow): int { r.credit }

  function FindEntry(entries: seq<EntryRow>, number: int): (r: Option<EntryRow>)
    ensures r.Some? ==> r.value in entries && r.value.number == number
    ensures r.None? <==> number !in EntryNumbers(entries)
  {
    if entries == [] then None
    else if entries[0].number == number then Some(entries[0])
    else
      assert entries == [entries[0]] + entries[1..];
      FindEntry(entries[1..], number)
  }

  function LinesOf(t: Tables, number: int): seq<LineRow> {
    SortBy(Filter(t.lines, OfEntry(number)), IndexLe)
  }

  function DecodeLine(r: LineRow): Option<Line> {
    BuildLine(r.account, FromCents(r.debit), FromCents(r.credit))
  }

  function DecodeLines(rows: seq<LineRow>): Option<seq<Line>> {
    if rows == [] then Some([])
    else
      var line := DecodeLine(rows[0]);
      var rest := DecodeLines(rows[1..]);
      if line.Some? && rest.Some? then Some([line.value] + rest.value) else None
  }

  /** Reading rebuilds the domain object, so every validator runs again on the stored values. */
  function Decode(header: EntryRow, rows: seq<LineRow>, now: int): Result<Entry, ErrorCode> {
    var lines := DecodeLines(rows);
    if lines.None? then Err(UncaughtValidation)
    else
      var entry := BuildEntry(header.number, header.date, lines.value, header.description, now);
      if entry.Some? then Ok(entry.value) else Err(UncaughtValidation)
  }

  function GetByNumber(t: Tables, number: int, now: int): Result<Option<Entry>, ErrorCode> {
    var header := FindEntry(t.entries, number);
    if header.None? then Ok(None)
    else
      match Decode(header.value, LinesOf(t, number), now)
      case Ok(e) => Ok(Some(e))
      case Err(code) => Err(code)
  }

  function AscendingNumbers(t: Tables): seq<int> {
    var headers := SortBy(t.entries, NumberLe);
    seq(|headers|, i requires 0 <= i < |headers| => headers[i].number)
  }

  /** Every number looked up in turn, failing on the first row that no longer validates. */
  function GetAll(t: Tables, numbers: seq<int>, now: int): Result<seq<Entry>, ErrorCode> {
    if numbers == [] then Ok([])
    else
      match GetByNumber(t, numbers[0], now)
      case Err(code) => Err(code)
      case Ok(None) => GetAll(t, numbers[1..], now)
      case Ok(Some(e)) =>
        match GetAll(t, numbers[1..], now)
        case Err(code) => Err(code)
        case Ok(rest) => Ok([e] + rest)
  }

  ghost predicate UniqueNumbers(entries: seq<EntryRow>) {
    forall i, j :: 0 <= i < j < |entries| ==> entries[i].number != entries[j].number
  }

  /** The lines of one saved entry: indexed by position, each a valid stored line. */
  ghost predicate GoodLines(number: int, rows: seq<LineRow>) {
    && |rows| >= 2
    && forall i :: 0 <= i < |rows| ==>
         && rows[i].lineIndex == i && rows[i].number == number
         && StoredReference(rows[i].account)
         && ExactlyOneSide(rows[i].debit, rows[i].credit)
         && FitsNumeric(rows[i].debit) && FitsNumeric(rows[i].credit)
  }

  ghost predicate GoodEntry(t: Tables, row: EntryRow, now: int) {
    && 1 <= row.number <= t.lastNumber
    && EARLIEST < row.date <= now
    && (row.description.Some? ==> |row.description.value| <= 255)
    && GoodLines(row.number, Filter(t.lines, OfEntry(row.number)))
  }

  /** What every reachable journal satisfies. */
  ghost predicate JournalOk(t: Tables, now: int) {
    && UniqueNumbers(t.entries)
    && (forall row :: row in t.entries ==> GoodEntry(t, row, now))
    && (forall l :: l in t.lines ==> l.number in EntryNumbers(t.entries))
  }

  lemma GoodLinesAreOrdered(number: int, rows: seq<LineRow>)
    requires GoodLines(number, rows)
    ensures SortBy(rows, IndexLe) == rows
  {
    SortOrdered(rows, IndexLe);
  }

  /** A saved entry's lines, in the order a reader sees them. */
  lemma SavedLines(t: Tables, number: int, now: int)
    requires JournalOk(t, now) && number in EntryNumbers(t.entries)
    ensures LinesOf(t, number) == Filter(t.lines, OfEntry(number))
    ensures GoodLines(number, LinesOf(t, number))
  {
    var row :| row in t.entries && row.number == number;
    assert GoodEntry(t, row, now);
    GoodLinesAreOrdered(number, Filter(t.lines, OfEntry(number)));
  }

  function PlainLines(rows: seq<LineRow>): (lines: seq<Line>)
    ensures |lines| == |rows|
    ensures forall i :: 0 <= i < |rows| ==>
              lines[i] == Line(rows[i].account, FromCents(rows[i].debit), FromCents(rows[i].credit))
  {
    seq(|rows|, i requires 0 <= i < |rows| =>
      Line(rows[i].account, FromCents(rows[i].debit), FromCents(rows[i].credit)))
  }

  ghost predicate GoodLine(r: LineRow) {
    StoredReference(r.account) && ExactlyOneSide(r.debit, r.credit)
  }

  lemma GoodLineDecodes(r: LineRow)
    requires GoodLine(r)
    ensures DecodeLine(r) == Some(Line(r.account, FromCents(r.debit), FromCents(r.credit)))
  {
  }

  lemma {:induction false} GoodLinesDecode(rows: seq<LineRow>)
    requires forall i :: 0 <= i < |rows| ==> GoodLine(rows[i])
    ensures DecodeLines(rows) == Some(PlainLines(rows))
  {
    hide GoodLine, DecodeLine;
    if rows == [] {
      assert PlainLines(rows) == [];
    } else {
      GoodLinesDecode(rows[1..]);
      GoodLineDecodes(rows[0]);
      assert PlainLines(rows) == [PlainLines(rows)[0]] + PlainLines(rows[1..]);
    }
  }

  lemma {:induction false} DecodedTotals(rows: seq<LineRow>)
    ensures TotalDebits(PlainLines(rows)) == FromCents(SumBy(rows, RowDebit))
    ensures TotalCredits(PlainLines(rows)) == FromCents(SumBy(rows, RowCredit))
  {
    if rows != [] {
      DecodedTotals(rows[1..]);
      assert PlainLines(rows)[1..] == PlainLines(rows[1..]);
    }
  }

  ghost predicate RoundedBalance(rows: seq<LineRow>) {
    SumBy(rows, RowDebit) == SumBy(rows, RowCredit)
  }

  function PlainEntry(header: EntryRow, rows: seq<LineRow>): Entry {
    Entry(header.number, header.date, PlainLines(rows), header.description)
  }

  lemma DecodeGood(header: EntryRow, rows: seq<LineRow>, now: int)
    requires GoodLines(header.number, rows)
    requires header.number > 0 && EARLIEST < header.date <= now
    requires header.description.Some? ==> |header.description.value| <= 255
    ensures Decode(header, rows, now)
         == if RoundedBalance(rows) then Ok(PlainEntry(header, rows)) else Err(UncaughtValidation)
  {
    forall i | 0 <= i < |rows|
      ensures GoodLine(rows[i])
    {
    }
    GoodLinesDecode(rows);
    DecodedTotals(rows);
  }

  /** A saved entry can be read back exactly when its stored totals agree, and is then what
      its rows say. */
  lemma ReadableIffRoundedBalance(t: Tables, header: EntryRow, now: int)
    requires JournalOk(t, now) && header in t.entries
    ensures var rows := LinesOf(t, header.number);
            GetByNumber(t, header.number, now)
            == if RoundedBalance(rows) then Ok(Some(PlainEntry(header, rows))) else Err(UncaughtValidation)
  {
    SavedLines(t, header.number, now);
    FoundHeader(t.entries, header);
    assert GoodEntry(t, header, now);
    DecodeGood(header, LinesOf(t, header.number), now);
  }

  lemma FoundHeader(entries: seq<EntryRow>, header: EntryRow)
    requires UniqueNumbers(entries) && header in entries
    ensures FindEntry(entries, header.number) == Some(header)
  {
  }

  /** Cents moved by storing one line: its two sides together by at most half a cent. */
  lemma LineRounding(l: Line)
    requires ValidLine(l)
    ensures var r := LineRowOf(1, 0, l);
            var drift := (r.debit - r.credit) as real - (l.debit - l.credit) * 100.0;
            -0.5 <= drift <= 0.5
  {
  }

  lemma {:induction false} TotalsDrift(rows: seq<LineRow>, lines: seq<Line>)
    requires |rows| == |lines|
    requires forall i :: 0 <= i < |lines| ==> ValidLine(lines[i])
    requires forall i :: 0 <= i < |lines| ==>
               rows[i].debit == ToCents(lines[i].debit) && rows[i].credit == ToCents(lines[i].credit)
    ensures var drift := (SumBy(rows, RowDebit) - SumBy(rows, RowCredit)) as real
                         - (TotalDebits(lines) - TotalCredits(lines)) * 100.0;
            -(|lines| as real) <= 2.0 * drift <= |lines| as real
  {
    if lines != [] {
      TotalsDrift(rows[1..], lines[1..]);
      LineRounding(lines[0]);
    }
  }

  /** For every accepted entry of n lines, storage moves debits minus credits by at most n
      half-cents. */
  lemma StoredImbalanceBound(e: Entry, now: int)
    requires ValidEntry(e, now)
    ensures var rows := LineRowsOf(e.number, e.lines);
            -|e.lines| <= 2 * (SumBy(rows, RowDebit) - SumBy(rows, RowCredit)) <= |e.lines|
  {
    TotalsDrift(LineRowsOf(e.number, e.lines), e.lines);
  }

  ghost predicate WholeCentEntry(e: Entry) {
    forall i :: 0 <= i < |e.lines| ==> WholeCents(e.lines[i].debit) && WholeCents(e.lines[i].credit)
  }

  /** Whole-cent amounts are stored exactly: the rows decode to the very lines saved, and only
      then. */
  lemma WholeCentsStoredExactly(e: Entry)
    ensures PlainLines(LineRowsOf(e.number, e.lines)) == e.lines <==> WholeCentEntry(e)
  {
    var back := PlainLines(LineRowsOf(e.number, e.lines));
    forall i | 0 <= i < |e.lines|
      ensures back[i] == e.lines[i] <==> WholeCents(e.lines[i].debit) && WholeCents(e.lines[i].credit)
    {
      RoundingError(e.lines[i].debit);
      RoundingError(e.lines[i].credit);
    }
    if back == e.lines {
      assert forall i :: 0 <= i < |e.lines| ==> back[i] == e.lines[i];
    }
  }

  /** The journal's CHECK on line sides refuses exactly the lines whose value rounds away. */
  lemma StoredSide(l: Line)
    requires ValidLine(l)
    ensures var r := LineRowOf(1, 0, l);
            && (ExactlyOneSide(r.debit, r.credit) <==> l.debit >= 0.005 || l.credit >= 0.005)
            && (ExactlyOneSide(r.debit, r.credit) ==> (r.debit > 0 <==> l.debit > 0.0))
  {
  }

  /** A row set appended for a number no row had is exactly what that number then selects. */
  lemma AppendedLines(old_: seq<LineRow>, rows: seq<LineRow>, number: int)
    requires forall l :: l in old_ ==> l.number != number
    requires forall r :: r in rows ==> r.number == number
    ensures Filter(old_ + rows, OfEntry(number)) == rows
    ensures forall n :: n != number ==> Filter(old_ + rows, OfEntry(n)) == Filter(old_, OfEntry(n))
  {
    FilterAppend(old_, rows, OfEntry(number));
    FilterNone(old_, OfEntry(number));
    FilterAll(rows, OfEntry(number));
    forall n | n != number
      ensures Filter(old_ + rows, OfEntry(n)) == Filter(old_, OfEntry(n))
    {
      FilterAppend(old_, rows, OfEntry(n));
      FilterNone(rows, OfEntry(n));
    }
  }

  ghost predicate ReferencesStorable(e: Entry) {
    forall i :: 0 <= i < |e.lines| ==> StoredReference(e.lines[i].account)
  }

  lemma NewLinesAreGood(t: Tables, e: Entry, createdBy: string, now: int)
    requires ValidEntry(e, now) && ReferencesStorable(e)
    requires Commits(t, HeaderOf(e, createdBy), LineRowsOf(e.number, e.lines), now)
    ensures GoodLines(e.number, LineRowsOf(e.number, e.lines))
  {
  }

  /** What a committed save shows: its own rows under its number, every other number as before. */
  lemma SaveShows(t: Tables, e: Entry, createdBy: string, now: int)
    requires JournalOk(t, now) && ValidEntry(e, now) && ReferencesStorable(e)
    requires SaveTx(t, e, createdBy, now).1.Ok?
    ensures var t' := SaveTx(t, e, createdBy, now).0;
            && FindEntry(t'.entries, e.number) == Some(HeaderOf(e, createdBy))
            && LinesOf(t', e.number) == LineRowsOf(e.number, e.lines)
            && Filter(t'.lines, OfEntry(e.number)) == LineRowsOf(e.number, e.lines)
            && forall n :: n != e.number ==>
                 && FindEntry(t'.entries, n) == FindEntry(t.entries, n)
                 && Filter(t'.lines, OfEntry(n)) == Filter(t.lines, OfEntry(n))
                 && LinesOf(t', n) == LinesOf(t, n)
  {
    var t' := SaveTx(t, e, createdBy, now).0;
    var header := HeaderOf(e, createdBy);
    NewLinesAreGood(t, e, createdBy, now);
    GoodLinesAreOrdered(e.number, LineRowsOf(e.number, e.lines));
    AppendedLines(t.lines, LineRowsOf(e.number, e.lines), e.number);
    FindNew(t.entries, header);
    forall n | n != e.number
      ensures FindEntry(t'.entries, n) == FindEntry(t.entries, n)
    {
      FindAppend(t.entries, header, n);
    }
  }

  lemma SaveKeepsEntry(t: Tables, e: Entry, createdBy: string, now: int, row: EntryRow)
    requires JournalOk(t, now) && ValidEntry(e, now) && ReferencesStorable(e)
    requires e.number <= t.lastNumber && SaveTx(t, e, createdBy, now).1.Ok?
    requires row in t.entries || row == HeaderOf(e, createdBy)
    ensures GoodEntry(SaveTx(t, e, createdBy, now).0, row, now)
  {
    NewLinesAreGood(t, e, createdBy, now);
    SaveShows(t, e, createdBy, now);
    if row in t.entries {
      assert GoodEntry(t, row, now);
      assert row.number in EntryNumbers(t.entries);
    }
  }

  /** Saving a validated entry under an allocated number keeps the journal well formed. */
  lemma SaveKeepsJournal(t: Tables, e: Entry, createdBy: string, now: int)
    requires JournalOk(t, now) && ValidEntry(e, now) && ReferencesStorable(e)
    requires e.number <= t.lastNumber
    ensures JournalOk(SaveTx(t, e, createdBy, now).0, now)
  {
    hide GoodEntry, ValidEntry, ReferencesStorable, ExactlyOneSide, FitsNumeric;
    var (t', r) := SaveTx(t, e, createdBy, now);
    if r.Ok? {
      var header := HeaderOf(e, createdBy);
      NumbersAppend(t.entries, header);
      forall row | row in t'.entries
        ensures GoodEntry(t', row, now)
      {
        SaveKeepsEntry(t, e, createdBy, now, row);
      }
      forall l | l in t'.lines
        ensures l.number in EntryNumbers(t'.entries)
      {
        assert l in t.lines || l in LineRowsOf(e.number, e.lines);
      }
      assert UniqueNumbers(t'.entries) by {
        assert forall i :: 0 <= i < |t.entries| ==> t.entries[i] in t.entries;
      }
    }
  }

  /** What a save leaves to read: the entry as rounded, if its rounded totals still agree,
      and otherwise a row that no longer validates. */
  lemma SavedEntryReadsBack(t: Tables, e: Entry, createdBy: string, now: int)
    requires JournalOk(t, now) && ValidEntry(e, now) && ReferencesStorable(e)
    requires e.number <= t.lastNumber && SaveTx(t, e, createdBy, now).1.Ok?
    ensures var rows := LineRowsOf(e.number, e.lines);
            GetByNumber(SaveTx(t, e, createdBy, now).0, e.number, now)
            == if RoundedBalance(rows) then Ok(Some(e.(lines := PlainLines(rows)))) else Err(UncaughtValidation)
  {
    SaveKeepsJournal(t, e, createdBy, now);
    SaveShows(t, e, createdBy, now);
    ReadableIffRoundedBalance(SaveTx(t, e, createdBy, now).0, HeaderOf(e, createdBy), now);
  }

  lemma NumbersAppend(entries: seq<EntryRow>, header: EntryRow)
    ensures EntryNumbers(entries + [header]) == EntryNumbers(entries) + {header.number}
  {
  }

  lemma FindNew(entries: seq<EntryRow>, header: EntryRow)
    requires header.number !in EntryNumbers(entries)
    ensures FindEntry(entries + [header], header.number) == Some(header)
  {
  }

  lemma {:induction false} FindAppend(entries: seq<EntryRow>, header: EntryRow, n: int)
    requires header.number != n
    ensures FindEntry(entries + [header], n) == FindEntry(entries, n)
  {
    if entries != [] {
      assert (entries + [header])[1..] == entries[1..] + [header];
      FindAppend(entries[1..], header, n);
    }
  }

  lemma LineOrders()
    ensures Preorder(NumberThenIndexLe)
  {
  }

  function Prepend(done: seq<Entry>, rest: Result<seq<Entry>, ErrorCode>): Result<seq<Entry>, ErrorCode> {
    match rest
    case Ok(entries) => Ok(done + entries)
    case Err(code) => Err(code)
  }

  lemma PrependLaws(a: seq<Entry>, b: seq<Entry>, rest: Result<seq<Entry>, ErrorCode>)
    ensures Prepend([], rest) == rest
    ensures Prepend(a, Prepend(b, rest)) == Prepend(a + b, rest)
  {
    if rest.Ok? {
      assert [] + rest.value == rest.value;
      assert a + (b + rest.value) == a + b + rest.value;
    }
  }

  function GroupOf(groups: map<int, seq<LineRow>>, number: int): seq<LineRow> {
    if number in groups then groups[number] else []
  }

  class JournalRepo {
    const db: Database

    constructor (db: Database)
      ensures this.db == db
    {
      this.db := db;
    }

    method Save(e: Entry, createdBy: string, now: int) returns (r: Result<(), ErrorCode>)
      modifies db
      ensures (db.tables, r) == SaveTx(old(db.tables), e, createdBy, now)
    {
      var header := HeaderOf(e, createdBy);
      var session: seq<LineRow> := [];
      for index := 0 to |e.lines|
        invariant session == LineRowsOf(e.number, e.lines)[..index]
      {
        var line := e.lines[index];
        session := session + [LineRow(e.number, index, line.account, ToCents(line.debit), ToCents(line.credit))];
      }
      assert session == LineRowsOf(e.number, e.lines);
      var t := db.tables;
      if !Commits(t, header, session, now) {
        return Err(UnknownError);
      }
      db.tables := t.(entries := t.entries + [header], lines := t.lines + session);
      r := Ok(());
    }

    method NextJournalNumber() returns (number: int)
      modifies db
      ensures (db.tables, number) == NextNumberTx(old(db.tables))
    {
      db.tables := db.tables.(lastNumber := db.tables.lastNumber + 1);
      number := db.tables.lastNumber;
    }

    /** The grouping pass: a dictionary from journal number to its lines in query order. */
    static method GroupLines(lineRows: seq<LineRow>) returns (groups: map<int, seq<LineRow>>)
      ensures forall n :: GroupOf(groups, n) == Filter(lineRows, OfEntry(n))
    {
      groups := map[];
      for i := 0 to |lineRows|
        invariant forall n :: GroupOf(groups, n) == Filter(lineRows[..i], OfEntry(n))
      {
        var line := lineRows[i];
        assert lineRows[..i + 1] == lineRows[..i] + [line];
        GroupStep(groups, lineRows[..i], line);
        groups := groups[line.number := GroupOf(groups, line.number) + [line]];
      }
      assert lineRows[..|lineRows|] == lineRows;
    }

    /** Listing groups all lines in one pass, yet gives what looking up every saved number in
        ascending order gives, including the failure on the first unreadable entry. */
    method ListEntries(now: int) returns (r: Result<seq<Entry>, ErrorCode>)
      requires UniqueNumbers(db.tables.entries)
      ensures r == GetAll(db.tables, AscendingNumbers(db.tables), now)
    {
      var t := db.tables;
      var entryRows := SortBy(t.entries, NumberLe);
      var linesByJournal := GroupLines(SortBy(t.lines, NumberThenIndexLe));
      var result: seq<Entry> := [];
      ghost var numbers := AscendingNumbers(t);
      assert numbers[0..] == numbers;
      PrependLaws([], [], GetAll(t, numbers, now));
      for i := 0 to |entryRows|
        invariant GetAll(t, numbers, now) == Prepend(result, GetAll(t, numbers[i..], now))
      {
        var row := entryRows[i];
        var entry := Decode(row, GroupOf(linesByJournal, row.number), now);
        GroupedRow(t, i, GroupOf(linesByJournal, row.number), now);
        if entry.Err? {
          return Err(entry.error);
        }
        PrependLaws(result, [entry.value], GetAll(t, numbers[i + 1..], now));
        result := result + [entry.value];
      }
      assert result + [] == result;
      r := Ok(result);
    }
  }

  lemma GroupStep(groups: map<int, seq<LineRow>>, seen: seq<LineRow>, line: LineRow)
    requires forall n :: GroupOf(groups, n) == Filter(seen, OfEntry(n))
    ensures forall n :: GroupOf(groups[line.number := GroupOf(groups, line.number) + [line]], n)
                     == Filter(seen + [line], OfEntry(n))
  {
    var grown := groups[line.number := GroupOf(groups, line.number) + [line]];
    forall n
      ensures GroupOf(grown, n) == Filter(seen + [line], OfEntry(n))
    {
      FilterAppend(seen, [line], OfEntry(n));
      if n == line.number {
        FilterAll([line], OfEntry(n));
        assert GroupOf(grown, n) == GroupOf(groups, n) + [line];
      } else {
        FilterNone([line], OfEntry(n));
        assert GroupOf(grown, n) == GroupOf(groups, n);
      }
    }
  }

  /** One turn of the listing loop agrees with one lookup. */
  lemma GroupedRow(t: Tables, i: nat, group: seq<LineRow>, now: int)
    requires UniqueNumbers(t.entries) && i < |SortBy(t.entries, NumberLe)|
    requires group == Filter(SortBy(t.lines, NumberThenIndexLe), OfEntry(SortBy(t.entries, NumberLe)[i].number))
    ensures var numbers := AscendingNumbers(t);
            var row := SortBy(t.entries, NumberLe)[i];
            GetAll(t, numbers[i..], now) ==
              (match Decode(row, group, now)
               case Err(code) => Err(code)
               case Ok(e) => Prepend([e], GetAll(t, numbers[i + 1..], now)))
  {
    var row := SortBy(t.entries, NumberLe)[i];
    var numbers := AscendingNumbers(t);
    SortedMembers(t.entries, NumberLe);
    FoundHeader(t.entries, row);
    LineOrders();
    FilterSorted(t.lines, NumberThenIndexLe, IndexLe, OfEntry(row.number));
    assert group == LinesOf(t, row.number);
    assert numbers[i..][0] == row.number && numbers[i..][1..] == numbers[i + 1..];
  }
}
