/** The posting service: read the entry, check for postings, save the batch. */
module PostingService {
  import opened Outcomes
  import opened Text
  import opened Journals
  import opened Tables
  import opened JournalStore
  import opened PostingStore

  datatype PostCall =
    | PostAsked(number: int, actor: string)
    | PostLoaded(number: int, entry: Entry, actor: string)
    | PostChecked(number: int, batch: seq<Posting>, actor: string)
    | PostDone(number: int, result: Result<seq<Posting>, ErrorCode>, actor: string)

  function Rank(c: PostCall): nat {
    match c
    case PostAsked(_, _) => 3
    case PostLoaded(_, _, _) => 2
    case PostChecked(_, _, _) => 1
    case PostDone(_, _, _) => 0
  }

  function Step(t: Tables, c: PostCall, now: int): (r: (Tables, PostCall))
    ensures r.1.PostDone? || Rank(r.1) < Rank(c)
    ensures r.1.number == c.number && r.1.actor == c.actor
  {
    match c
    case PostAsked(number, actor) =>
      if !NonBlank(actor) then (t, PostDone(number, Err(RequiredField), actor))
      else
        (match GetByNumber(t, number, now)
         case Err(error) => (t, PostDone(number, Err(error), actor))
         case Ok(None) => (t, PostDone(number, Err(UnknownJournalEntry), actor))
         case Ok(Some(entry)) => (t, PostLoaded(number, entry, actor)))
    case PostLoaded(number, entry, actor) =>
      (match GetByJournalNumber(t, number, now)
       case Err(error) => (t, PostDone(number, Err(error), actor))
       case Ok(existing) =>
         if existing != [] then (t, PostDone(number, Err(JournalAlreadyPosted), actor))
         else
           var batch := DerivePostings(entry, now);
           (t, if batch.Some? then PostChecked(number, batch.value, actor)
               else PostDone(number, Err(UncaughtValidation), actor)))
    case PostChecked(number, batch, actor) =>
      var (t', saved) := SaveManyTx(t, batch, actor, now);
      (t', PostDone(number, if saved.Ok? then Ok(batch) else Err(saved.error), actor))
    case PostDone(_, _, _) => (t, c)
  }

  function Run(t: Tables, c: PostCall, now: int): (Tables, PostCall)
    decreases Rank(c)
  {
    if c.PostDone? then (t, c)
    else
      var (t', c') := Step(t, c, now);
      if c'.PostDone? then (t', c') else Run(t', c', now)
  }

  class Service {
    const repo: PostingRepo

    constructor (repo: PostingRepo)
      ensures this.repo == repo
    {
      this.repo := repo;
    }

    method PostJournalEntry(number: int, actor: string, now: int) returns (r: Result<seq<Posting>, ErrorCode>)
      modifies repo.db
      ensures (repo.db.tables, PostDone(number, r, actor)) == Run(old(repo.db.tables), PostAsked(number, actor), now)
    {
      var t := repo.db.tables;
      if !NonBlank(actor) {
        return Err(RequiredField);
      }
      var found := GetByNumber(t, number, now);
      if found.Err? {
        return Err(found.error);
      }
      if found.value.None? {
        return Err(UnknownJournalEntry);
      }
      var entry := found.value.value;
      ghost var c := PostLoaded(number, entry, actor);
      assert Run(t, PostAsked(number, actor), now) == Run(t, c, now);
      var existing := GetByJournalNumber(t, number, now);
      if existing.Err? {
        return Err(existing.error);
      }
      if existing.value != [] {
        return Err(JournalAlreadyPosted);
      }
      var batch := DerivePostings(entry, now);
      if batch.None? {
        return Err(UncaughtValidation);
      }
      ghost var c1 := PostChecked(number, batch.value, actor);
      assert Run(t, c, now) == Run(t, c1, now);
      var saved := repo.SaveMany(batch.value, actor, now);
      assert Run(t, c1, now) == Step(t, c1, now);
      r := if saved.Ok? then Ok(batch.value) else Err(saved.error);
    }
  }
}
