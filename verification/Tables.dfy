/** The tables of the ledger database, their rows and their CHECK constraints. */
module Tables {
  import opened Outcomes
  import opened Accounts
  import opened Journals

  datatype AuditAction = Create | Update | Delete

  datatype AccountRow = AccountRow(code: string, name: string, nameKey: string, category: Category)

  datatype AuditRow = AuditRow(code: string, action: AuditAction, actor: string)

  datatype EntryRow = EntryRow(number: int, date: int, description: Option<string>, createdBy: string)

  datatype LineRow = LineRow(number: int, lineIndex: nat, account: string, debit: int, credit: int)

  datatype PostingRow = PostingRow(account: string, accountKey: string, debit: int, credit: int,
                                   number: int, date: int, lineIndex: nat, createdBy: string)

  /** `lastNumber` is the position of the sequence behind `journal_entries.journal_number`. */
  datatype Tables = Tables(
    accounts: seq<AccountRow>,
    audit: seq<AuditRow>,
    entries: seq<EntryRow>,
    lines: seq<LineRow>,
    lastNumber: nat,
    postings: seq<PostingRow>)

  const EMPTY: Tables := Tables([], [], [], [], 0, [])

  /** CHECK exactly_one_side, on amounts already rounded to cents. */
  predicate ExactlyOneSide(debit: int, credit: int) {
    (debit > 0 && credit == 0) || (credit > 0 && debit == 0)
  }

  /** CHECK posting_date_range. */
  predicate DateInRange(date: int, now: int) {
    EARLIEST < date <= now
  }

  function EntryNumbers(entries: seq<EntryRow>): set<int> {
    set r | r in entries :: r.number
  }

  class Database {
    var tables: Tables

    constructor ()
      ensures tables == EMPTY
    {
      tables := EMPTY;
    }
  }
}
