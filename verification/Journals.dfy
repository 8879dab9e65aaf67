/** The journal and posting domain models and their validators. */
module Journals {
  import opened Outcomes
  import opened AccountNames
  import opened Seqs

  /** 2020-01-01T00:00:00 in microseconds; dates are microseconds on the same axis. */
  const EARLIEST: int := 1_577_836_800_000_000

  datatype LineInput = LineInput(account: string, debit: real, credit: real)

  datatype EntryInput = EntryInput(date: int, lines: seq<LineInput>, description: Option<string>)

  datatype Line = Line(account: string, debit: real, credit: real)

  datatype Entry = Entry(number: int, date: int, lines: seq<Line>, description: Option<string>)

  datatype Posting = Posting(account: string, debit: real, credit: real, number: int, date: int)

  function DebitOf(l: Line): real { l.debit }

  function CreditOf(l: Line): real { l.credit }

  /** Exactly one side carries value. */
  predicate ValidLineAmounts(debit: real, credit: real) {
    (debit > 0.0) != (credit > 0.0)
  }

  /** An account reference as a journal line or a posting accepts it. */
  function BuildReference(account: string): (r: Option<string>) {
    if 2 <= |account| <= 100 then CleanAccountName(account) else None
  }

  function BuildLine(account: string, debit: real, credit: real): Option<Line> {
    var reference := BuildReference(account);
    if reference.Some? && debit >= 0.0 && credit >= 0.0 && ValidLineAmounts(debit, credit) then
      Some(Line(reference.value, debit, credit))
    else
      None
  }

  function BuildLines(inputs: seq<LineInput>): (r: Option<seq<Line>>)
    ensures r.Some? ==>
              && |r.value| == |inputs|
              && forall i :: 0 <= i < |inputs| ==>
                   BuildLine(inputs[i].account, inputs[i].debit, inputs[i].credit) == Some(r.value[i])
    ensures r.None? ==>
              exists i :: 0 <= i < |inputs|
                       && BuildLine(inputs[i].account, inputs[i].debit, inputs[i].credit) == None
  {
    if inputs == [] then Some([])
    else
      var line := BuildLine(inputs[0].account, inputs[0].debit, inputs[0].credit);
      var rest := BuildLines(inputs[1..]);
      if line.Some? && rest.Some? then Some([line.value] + rest.value) else None
  }

  function TotalDebits(lines: seq<Line>): real { SumReal(lines, DebitOf) }

  function TotalCredits(lines: seq<Line>): real { SumReal(lines, CreditOf) }

  function BuildEntry(number: int, date: int, lines: seq<Line>, description: Option<string>, now: int)
    : (r: Option<Entry>)
  {
    if && number > 0
       && EARLIEST < date <= now
       && |lines| >= 2
       && (description.Some? ==> |description.value| <= 255)
       && TotalDebits(lines) == TotalCredits(lines)
    then Some(Entry(number, date, lines, description))
    else None
  }

  function BuildPosting(account: string, debit: real, credit: real, number: int, date: int, now: int)
    : (r: Option<Posting>)
  {
    var reference := BuildReference(account);
    if && reference.Some? && debit >= 0.0 && credit >= 0.0 && ValidLineAmounts(debit, credit)
       && number > 0 && EARLIEST < date <= now
    then Some(Posting(reference.value, debit, credit, number, date))
    else None
  }

  /** Validation of the postings derived from an entry, one per line in line order. */
  function DerivePostings(e: Entry, now: int): Option<seq<Posting>> {
    DeriveLines(e.lines, e.number, e.date, now)
  }

  function DeriveLines(lines: seq<Line>, number: int, date: int, now: int): (r: Option<seq<Posting>>)
    ensures r.Some? ==> |r.value| == |lines|
  {
    if lines == [] then Some([])
    else
      var posting := BuildPosting(lines[0].account, lines[0].debit, lines[0].credit, number, date, now);
      var rest := DeriveLines(lines[1..], number, date, now);
      if posting.Some? && rest.Some? then Some([posting.value] + rest.value) else None
  }

  /** An account reference that reads back as itself. */
  predicate StoredReference(account: string) {
    2 <= |account| <= 100 && CleanAccountName(account) == Some(account)
  }

  ghost predicate ValidLine(l: Line) {
    && CleanAccountName(l.account) == Some(l.account) && |l.account| <= 100
    && l.debit >= 0.0 && l.credit >= 0.0 && ValidLineAmounts(l.debit, l.credit)
  }

  /** Everything the validators of an entry establish. */
  ghost predicate ValidEntry(e: Entry, now: int) {
    && e.number > 0 && EARLIEST < e.date <= now && |e.lines| >= 2
    && (e.description.Some? ==> |e.description.value| <= 255)
    && TotalDebits(e.lines) == TotalCredits(e.lines)
    && forall i :: 0 <= i < |e.lines| ==> ValidLine(e.lines[i])
  }

}
