/** The ledger as a machine: any number of service calls, interleaved at every await, over one
    database and one non-decreasing clock. */
module LedgerMachine {
  import opened Outcomes
  import opened Text
  import opened Seqs
  import opened Journals
  import opened Tables
  import opened JournalStore
  import opened PostingStore
  import AccountStore
  import AccountService
  import JournalService
  import PostingService

  datatype Call =
    | AccountTask(a: AccountService.AccountCall)
    | EntryTask(e: JournalService.EntryCall)
    | PostTask(p: PostingService.PostCall)

  datatype State = State(t: Tables, now: int, calls: map<nat, Call>)

  /** A call arrives, time passes, or one call runs to its next await. */
  datatype Event = Arrive(id: nat, call: Call) | Pass(elapsed: nat) | Turn(id: nat)

  predicate IsArrival(c: Call) {
    match c
    case AccountTask(a) => a.CreateAsked? || a.UpdateAsked? || a.DeleteAsked?
    case EntryTask(e) => e.EntryAsked?
    case PostTask(p) => p.PostAsked?
  }

  function StepCall(t: Tables, c: Call, now: int): (Tables, Call) {
    match c
    case AccountTask(a) => var (t', a') := AccountService.Step(t, a, now); (t', AccountTask(a'))
    case EntryTask(e) => var (t', e') := JournalService.Step(t, e, now); (t', EntryTask(e'))
    case PostTask(p) => var (t', p') := PostingService.Step(t, p, now); (t', PostTask(p'))
  }

  function Apply(s: State, ev: Event): State {
    match ev
    case Arrive(id, call) =>
      if id !in s.calls && IsArrival(call) then s.(calls := s.calls[id := call]) else s
    case Pass(elapsed) => s.(now := s.now + elapsed)
    case Turn(id) =>
      if id !in s.calls then s
      else
        var (t', c') := StepCall(s.t, s.calls[id], s.now);
        s.(t := t', calls := s.calls[id := c'])
  }

  function Start(now: int): State { State(EMPTY, now, map[]) }

  /** The state after a sequence of events; every reachable state is one of these. */
  function Exec(s: State, events: seq<Event>): State {
    if events == [] then s
    else Apply(Exec(s, events[..|events| - 1]), events[|events| - 1])
  }

  /** The journal number a creating call has taken from the sequence. */
  function Reserved(c: Call): Option<int> {
    match c
    case EntryTask(EntryNumbered(n, _, _)) => Some(n)
    case EntryTask(EntryBuilt(e, _)) => Some(e.number)
    case EntryTask(EntryDone(n, _, _)) => n
    case _ => None
  }

  predicate Created(c: Call) {
    c.EntryTask? && c.e.EntryDone? && c.e.result.Ok?
  }

  predicate PostedBy(c: Call, number: int) {
    c.PostTask? && c.p.PostDone? && c.p.number == number && c.p.result.Ok?
  }

  predicate TrimmedInput(input: EntryInput) {
    forall i :: 0 <= i < |input.lines| ==> Strip(input.lines[i].account) == input.lines[i].account
  }

  ghost predicate AccountCallOk(a: AccountService.AccountCall) {
    match a
    case CreateChecked(account, _) => AccountStore.GoodRow(AccountStore.RowOf(account))
    case UpdateChecked(account, _) => AccountStore.GoodRow(AccountStore.RowOf(account))
    case _ => true
  }

  ghost predicate Open(t: Tables, number: int) {
    1 <= number <= t.lastNumber && number !in EntryNumbers(t.entries)
  }

  /** The entry is in the tables, line for line as rounded. */
  ghost predicate SavedAs(t: Tables, e: Entry, actor: string) {
    && FindEntry(t.entries, e.number) == Some(HeaderOf(e, actor))
    && LinesOf(t, e.number) == LineRowsOf(e.number, e.lines)
    && 1 <= e.number <= t.lastNumber
  }

  ghost predicate EntryCallOk(t: Tables, e: JournalService.EntryCall, now: int) {
    match e
    case EntryAsked(_, _) => true
    case EntryResolved(input, _) => TrimmedInput(input)
    case EntryNumbered(n, input, _) => TrimmedInput(input) && Open(t, n)
    case EntryBuilt(entry, _) => ValidEntry(entry, now) && ReferencesStorable(entry) && Open(t, entry.number)
    case EntryDone(None, result, _) => result.Err?
    case EntryDone(Some(n), Err(_), _) => Open(t, n)
    case EntryDone(Some(n), Ok(entry), actor) =>
      n == entry.number && ValidEntry(entry, now) && SavedAs(t, entry, actor)
  }

  ghost predicate PostCallOk(t: Tables, p: PostingService.PostCall) {
    match p
    case PostAsked(_, _) => true
    case PostLoaded(n, entry, actor) => NonBlank(actor) && HoldsEntry(t, n, entry)
    case PostChecked(n, batch, actor) => NonBlank(actor) && exists e :: HoldsEntry(t, n, e) && batch == PlainPostings(e)
    case PostDone(n, Err(_), _) => true
    case PostDone(n, Ok(batch), actor) =>
      NonBlank(actor) && batch != [] && Filter(t.postings, OfJournal(n)) == PostingRowsOf(batch, actor)
  }

  ghost predicate CallOk(t: Tables, c: Call, now: int) {
    match c
    case AccountTask(a) => AccountCallOk(a)
    case EntryTask(e) => EntryCallOk(t, e, now)
    case PostTask(p) => PostCallOk(t, p)
  }

  /** What the tables alone always satisfy. */
  ghost predicate TablesOk(t: Tables, now: int) {
    && AccountStore.AccountsOk(t.accounts) && AccountStore.AuditOk(t.accounts, t.audit)
    && JournalOk(t, now)
    && PostingsOk(t) && BalancedBooks(t.postings)
  }

  ghost predicate Owned(calls: map<nat, Call>, n: int) {
    exists i :: i in calls && Reserved(calls[i]) == Some(n)
  }

  /** Allocated numbers belong to one call each, and none is unaccounted for. */
  ghost predicate NumbersOwned(calls: map<nat, Call>, lastNumber: nat) {
    && (forall i, j :: i in calls && j in calls && i != j && Reserved(calls[i]).Some? ==>
          Reserved(calls[i]) != Reserved(calls[j]))
    && (forall n :: 1 <= n <= lastNumber ==> Owned(calls, n))
  }

  ghost predicate HasPoster(calls: map<nat, Call>, n: int) {
    exists i :: i in calls && PostedBy(calls[i], n)
  }

  /** One successful posting call for each posted number, and none for the others. */
  ghost predicate PostersUnique(calls: map<nat, Call>, postings: seq<PostingRow>) {
    && (forall i, j, n :: i in calls && j in calls && PostedBy(calls[i], n) && PostedBy(calls[j], n) ==> i == j)
    && (forall n :: Filter(postings, OfJournal(n)) != [] ==> HasPoster(calls, n))
  }

  ghost predicate Inv(s: State) {
    && TablesOk(s.t, s.now)
    && (forall i :: i in s.calls ==> CallOk(s.t, s.calls[i], s.now))
    && NumbersOwned(s.calls, s.t.lastNumber)
    && PostersUnique(s.calls, s.t.postings)
  }

  /** How one step may change the journal and the postings: entries are only added, under the
      given number, and what was saved or posted stays as it was. */
  ghost predicate Grows(t: Tables, t': Tables, added: Option<int>) {
    && t.lastNumber <= t'.lastNumber
    && (forall n :: n in EntryNumbers(t'.entries) <==> n in EntryNumbers(t.entries) || added == Some(n))
    && (forall n :: n in EntryNumbers(t.entries) ==>
          FindEntry(t'.entries, n) == FindEntry(t.entries, n) && LinesOf(t', n) == LinesOf(t, n))
    && (forall n :: Filter(t.postings, OfJournal(n)) != [] ==>
          Filter(t'.postings, OfJournal(n)) == Filter(t.postings, OfJournal(n)))
  }
}
