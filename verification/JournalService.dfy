/** The journal service: creating an entry in four steps, each one repository access or one
    validation. */
module JournalService {
  import opened Outcomes
  import opened Text
  import opened Accounts
  import opened Journals
  import opened Tables
  import AccountStore
  import opened JournalStore

  datatype EntryCall =
    | EntryAsked(input: EntryInput, actor: string)
    | EntryResolved(input: EntryInput, actor: string)
    | EntryNumbered(number: int, input: EntryInput, actor: string)
    | EntryBuilt(entry: Entry, actor: string)
    | EntryDone(reserved: Option<int>, result: Result<Entry, ErrorCode>, actor: string)

  function Rank(c: EntryCall): nat {
    match c
    case EntryAsked(_, _) => 4
    case EntryResolved(_, _) => 3
    case EntryNumbered(_, _, _) => 2
    case EntryBuilt(_, _) => 1
    case EntryDone(_, _, _) => 0
  }

  /** The chart snapshot; an unreadable or ambiguous list of accounts fails instead. */
  function GetChart(t: Tables): Result<seq<Account>, ErrorCode> {
    match AccountStore.ListAll(t)
    case Err(error) => Err(error)
    case Ok(accounts) =>
      if DistinctCodes(accounts) && DistinctNames(accounts) then Ok(accounts) else Err(UncaughtValidation)
  }

  /** Some account's name has the lookup key of the reference. */
  ghost predicate Known(accounts: seq<Account>, reference: string) {
    exists a :: a in accounts && Fold(a.name) == Fold(reference)
  }

  lemma KnownIff(accounts: seq<Account>, lines: seq<LineInput>)
    ensures AllKnown(accounts, lines) <==> forall i :: 0 <= i < |lines| ==> Known(accounts, lines[i].account)
  {
    forall i | 0 <= i < |lines|
      ensures FindByName(accounts, lines[i].account).Some? <==> Known(accounts, lines[i].account)
    {
    }
  }

  predicate AllKnown(accounts: seq<Account>, lines: seq<LineInput>) {
    forall i :: 0 <= i < |lines| ==> FindByName(accounts, lines[i].account).Some?
  }

  function Step(t: Tables, c: EntryCall, now: int): (r: (Tables, EntryCall))
    ensures r.1.EntryDone? || Rank(r.1) < Rank(c)
  {
    match c
    case EntryAsked(input, actor) =>
      if !NonBlank(actor) then (t, EntryDone(None, Err(RequiredField), actor))
      else
        (match GetChart(t)
         case Err(error) => (t, EntryDone(None, Err(error), actor))
         case Ok(accounts) =>
           (t, if AllKnown(accounts, input.lines) then EntryResolved(input, actor)
               else EntryDone(None, Err(UnknownAccount), actor)))
    case EntryResolved(input, actor) =>
      var (t', number) := NextNumberTx(t);
      (t', EntryNumbered(number, input, actor))
    case EntryNumbered(number, input, actor) =>
      var lines := BuildLines(input.lines);
      if lines.None? then (t, EntryDone(Some(number), Err(ValidationError), actor))
      else
        var entry := BuildEntry(number, input.date, lines.value, input.description, now);
        (t, if entry.Some? then EntryBuilt(entry.value, actor)
            else EntryDone(Some(number), Err(ValidationError), actor))
    case EntryBuilt(entry, actor) =>
      var (t', saved) := SaveTx(t, entry, actor, now);
      (t', EntryDone(Some(entry.number), if saved.Ok? then Ok(entry) else Err(saved.error), actor))
    case EntryDone(_, _, _) => (t, c)
  }

  function Run(t: Tables, c: EntryCall, now: int): (Tables, EntryCall)
    decreases Rank(c)
  {
    if c.EntryDone? then (t, c)
    else
      var (t', c') := Step(t, c, now);
      if c'.EntryDone? then (t', c') else Run(t', c', now)
  }

  lemma BuiltNumber(number: int, date: int, lines: seq<Line>, description: Option<string>, now: int)
    ensures var e := BuildEntry(number, date, lines, description, now); e.Some? ==> e.value.number == number
  {
  }

  /** One step of an unfinished run. */
  lemma RunStep(t: Tables, c: EntryCall, now: int)
    requires !c.EntryDone?
    ensures Run(t, c, now) == (if Step(t, c, now).1.EntryDone? then Step(t, c, now)
                               else Run(Step(t, c, now).0, Step(t, c, now).1, now))
  {
  }

  class Service {
    const repo: JournalRepo

    constructor (repo: JournalRepo)
      ensures this.repo == repo
    {
      this.repo := repo;
    }

    /** Loading the chart runs both validators over the list just read; the two
        indexes it leaves answer as scans of that list. */
    method LoadChart() returns (r: Result<ChartOfAccounts, ErrorCode>)
      ensures match GetChart(repo.db.tables)
              case Err(error) => r == Err(error)
              case Ok(accounts) =>
                r.Ok? && fresh(r.value) && r.value.accounts == accounts && r.value.Indexed()
    {
      var accounts := AccountStore.ListAll(repo.db.tables);
      if accounts.Err? {
        return Err(accounts.error);
      }
      var chart := new ChartOfAccounts(accounts.value);
      var uniqueCodes := chart.ValidateUniqueCodes();
      if !uniqueCodes {
        return Err(UncaughtValidation);
      }
      var uniqueNames := chart.ValidateUniqueNames();
      if !uniqueNames {
        return Err(UncaughtValidation);
      }
      r := Ok(chart);
    }

    /** Every reference is looked up in the one snapshot, stopping at the first unknown one. */
    static method ResolveAll(chart: ChartOfAccounts, lines: seq<LineInput>) returns (ok: bool)
      requires chart.Indexed()
      ensures ok <==> AllKnown(chart.accounts, lines)
      ensures ok <==> forall i :: 0 <= i < |lines| ==> Known(chart.accounts, lines[i].account)
    {
      KnownIff(chart.accounts, lines);
      for n := 0 to |lines|
        invariant AllKnown(chart.accounts, lines[..n])
      {
        var found := chart.GetByName(lines[n].account);
        if found.None? {
          return false;
        }
      }
      ok := true;
    }

    method ValidateAccounts(lines: seq<LineInput>) returns (r: Result<(), ErrorCode>)
      ensures r == match GetChart(repo.db.tables)
                   case Err(error) => Err(error)
                   case Ok(accounts) => if AllKnown(accounts, lines) then Ok(()) else Err(UnknownAccount)
    {
      var chart := LoadChart();
      if chart.Err? {
        return Err(chart.error);
      }
      var known := ResolveAll(chart.value, lines);
      r := if known then Ok(()) else Err(UnknownAccount);
    }

    method CreateJournalEntry(input: EntryInput, actor: string, now: int)
      returns (r: Result<Entry, ErrorCode>, ghost reserved: Option<int>)
      modifies repo.db
      ensures (repo.db.tables, EntryDone(reserved, r, actor)) == Run(old(repo.db.tables), EntryAsked(input, actor), now)
    {
      hide Run, GetChart, BuildLines, BuildEntry, SaveTx;
      ghost var t := repo.db.tables;
      reserved := None;
      RunStep(t, EntryAsked(input, actor), now);
      if !NonBlank(actor) {
        return Err(RequiredField), None;
      }
      var known := ValidateAccounts(input.lines);
      if known.Err? {
        return Err(known.error), None;
      }
      RunStep(t, EntryResolved(input, actor), now);
      var number := repo.NextJournalNumber();
      reserved := Some(number);
      ghost var t1 := repo.db.tables;
      RunStep(t1, EntryNumbered(number, input, actor), now);
      var lines := BuildLines(input.lines);
      if lines.None? {
        return Err(ValidationError), reserved;
      }
      var entry := BuildEntry(number, input.date, lines.value, input.description, now);
      if entry.None? {
        return Err(ValidationError), reserved;
      }
      RunStep(t1, EntryBuilt(entry.value, actor), now);
      BuiltNumber(number, input.date, lines.value, input.description, now);
      var saved := repo.Save(entry.value, actor, now);
      r := if saved.Ok? then Ok(entry.value) else Err(saved.error);
    }
  }
}
