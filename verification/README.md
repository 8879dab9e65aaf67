# Trutina ledger model

A Dafny model of Trutina, a double-entry ledger on PostgreSQL, and proofs of what its layers
guarantee together.

- **Ledger.** The database is a value (`Tables`), each repository method is one transaction on it
  (`AccountStore`, `JournalStore`, `PostingStore`), and each service method is a sequence of steps
  with one repository access each (`AccountService`, `JournalService`, `PostingService`).
  `LedgerMachine` runs any number of calls interleaved at those steps under a non-decreasing
  clock. `LedgerInvariant` proves what every step keeps, and `LedgerTheorems` and
  `AccountTheorems` what follows in every reachable state; `EntryTheorems` and `AccountAnswers`
  say what each write answers and stores by its input and the stored rows alone; `LedgerRuns` holds runs that reach
  surprising ones. `TrialBalance` is the grouping query.
  The repositories and services are also classes over a mutable database, proved to do what the
  transaction and step functions say.
- **Login throttle.** `Throttle` is the attempt store and the authenticator around it, refined
  against a bare history; `ThrottleRace` is the same with every await a point where others run.
- **Refresh tokens.** `RefreshTokens` is the in-memory repository: families, purging, revocation.
- **Accounts of people.** `Credentials` is registration and login with an ideal hasher;
  `CredentialRuns` interleaves registrations, logins, rehashes and activations.
- **Command line.** `CliContext` is the lazily filled composition root and its close.

Amounts are exact reals until they are stored, and integers of cents afterwards. Stored amounts
are rounded to two decimals with ties away from zero, as section 8.1.2 of the PostgreSQL manual
says of `numeric`. Dates and times are integers.

## Where the code and the expectation differ

For each the exact condition under which the expectation holds is proved, and a concrete input or
a run from the empty database (`LedgerRuns`) shows it failing.

- An entry the domain accepts may be stored and then be unreadable: amounts are balanced before
  rounding and checked again after it. A saved entry reads back exactly when its rounded totals
  agree (`JournalStore.ReadableIffRoundedBalance`); one that does not makes the whole listing fail
  (`LedgerTheorems.ListReadableIff`). It can never be posted, so the books still balance. The run is
  `LedgerRuns.AcceptedEntryThatCannotBeRead`.
- The account name's minimum length is checked before trimming, so a padded letter is stored and
  cannot be read back (`Accounts.AccountReadsBack`, `Accounts.PaddedLetterIsUnreadable`). While it is
  in the table the chart cannot be built (`AccountTheorems.ChartConsistent`), and a delete that
  loads it fails (`AccountTheorems.DeleteAccountSucceedsIff`); only a delete that had loaded the
  account before it got that name still removes it (`AccountTheorems.DeleteAmongOthers`).
- The update documentation speaks of another account's name, but the lookup also finds the
  account itself: a rename that only changes case is refused although the unique key would allow
  it, and a padded duplicate passes the lookup. The two checks agree on a rename exactly when
  neither is the case (`AccountTheorems.RenameChecksAgreeIff`); `LedgerRuns.CaseOnlyRename` and
  `LedgerRuns.PaddedRename` show both.
- An account with history can be deleted. Run alone, a guarded delete is held back exactly by
  postings under the account's current name (`AccountTheorems.DeleteAccountSucceedsIff`), so
  history posted under an earlier name does not count (`LedgerRuns.RenamedHistoryDeleted`). Among
  other calls, what matters is what was posted under the loaded name when the check was made
  (`AccountTheorems.DeleteAmongOthers`); a posting saved after it does not count either
  (`LedgerRuns.DeleteRace`).
- A purge of refresh tokens is invisible exactly when no later rotation presents a token it took
  while that token was still good (`RefreshTokens.PurgeInvisibleIff`). A non-decreasing clock is
  enough for that (`RefreshTokens.PurgeIsInvisible`); one that runs back can break it
  (`RefreshTokens.PurgeSeenWhenClockRunsBack`).
- Throttled logins can overshoot under concurrency, by no more than `ThrottleRace.ConcurrentBound`
  says, and that bound is attained (`ThrottleRace.BoundIsReached`).

## Model

| member | source | states |
|---|---|---|
| LedgerTheorems.ExactlyOncePosting | packages/core/src/trutina/core/posting/service.py:104-120 | After any interleaving of any calls, a journal number holds either no posting or exactly one per entry line in line order; something is posted exactly when one call succeeded, at most one call ever succeeds, and the rows are the very batch that call reported, attributed to its actor |
| LedgerTheorems.PostingsReadBack | packages/storage-postgres/src/trutina/storage_postgres/posting/repository.py:135-157 | What is posted can always be read back and equals the postings derived from the entry as it reads |
| LedgerTheorems.PostSucceedsIff | packages/core/src/trutina/core/posting/service.py:70-132 | A posting call run alone from a reachable state: the first guard it meets decides its error; otherwise it appends exactly the entry's batch, and a failure changes nothing |
| LedgerTheorems.TrialBalanceBalances | packages/storage-postgres/src/trutina/storage_postgres/trial_balance/repository.py:60-95 | In every reachable state and at every cutoff date the report can be built; the postings dated on or before the cutoff debit what they credit, and both report totals are that sum, whatever sub-cent amounts were submitted |
| LedgerTheorems.TrialBalanceRefines | packages/storage-postgres/src/trutina/storage_postgres/trial_balance/repository.py:76-95 | In every reachable state the report has one row per lookup key with a posting dated on or before the cutoff and no other; each row has the sums of exactly those postings and of that account's listing; rows are strictly ascending; and the report totals are the sums over everything so dated |
| LedgerTheorems.CutoffIsInclusive | packages/storage-postgres/src/trutina/storage_postgres/trial_balance/repository.py:85-86 | In every reachable state, postings dated after the cutoff change nothing of the report, and one dated on it is reported |
| LedgerTheorems.NumbersAccountedFor | packages/core/src/trutina/core/journal/service.py:117-135 | Every number the sequence gave out belongs to exactly one call; it is saved exactly when that call succeeded |
| LedgerTheorems.CollisionUnreachable | packages/storage-postgres/src/trutina/storage_postgres/journal/repository.py:206-229 | A call that has a number and has not saved holds a number no entry has, so the key collision cannot happen |
| LedgerTheorems.CreatedEntryReadsBack | packages/storage-postgres/src/trutina/storage_postgres/journal/repository.py:249-261 | An entry some call created reads back, in every later state, as its rounded amounts exactly when the rounded totals agree; a whole-cent entry reads back as itself |
| LedgerTheorems.AscendingNumbersComplete | packages/storage-postgres/src/trutina/storage_postgres/journal/repository.py:155-180 | The listing visits every saved number once, in ascending order |
| LedgerTheorems.ListReadableIff | packages/storage-postgres/src/trutina/storage_postgres/journal/repository.py:147-180 | The journal can be listed exactly when every saved entry still balances after rounding |
| LedgerTheorems.CommitsIffStorable | packages/storage-postgres/src/trutina/storage_postgres/journal/model.py:71-134 | A validated entry under a new number commits exactly when every line keeps half a cent and fits its column |
| LedgerTheorems.CreateSucceedsIff | packages/core/src/trutina/core/journal/service.py:117-147 | A creating call run alone leaves what its validators, the sequence and the save leave, guard by guard; only a failure after the number was taken moves the sequence |
| EntryTheorems.EntryAnswers | packages/core/src/trutina/core/journal/service.py:117-147 | A creating call run alone from any reachable state, by its input and the stored rows alone: a blank actor, an unreadable account, a line whose key no account has, an input that is not acceptable, a line that does not fit its columns, each with its error and with or without the number taken; anything else is stored as typed under the next number, line by line in cents |
| EntryTheorems.ResolvesAtItsTurn | packages/core/src/trutina/core/journal/service.py:214-222 | Among any other calls, a creating call gets past its account check exactly when, at that turn, its actor is named, every account can be read and every line's key is in the table; it ends with UNKNOWN_ACCOUNT and no number when only the last fails |
| LedgerTheorems.SoloRun | packages/core/src/trutina/core/journal/service.py:117-147 | Giving one call its steps with nothing in between ends where the service method ends, for every kind of call |
| LedgerInvariant.StepIsOk | packages/core/src/trutina/core/posting/service.py:104-120 | One step of any call keeps the tables well formed and balanced, changes no posted batch or saved entry, and takes at most the next number |
| LedgerInvariant.CallsStay | packages/core/src/trutina/core/posting/service.py:104-120 | What every other in-flight call has read or reserved stays true across a step |
| LedgerInvariant.NumbersStay | packages/storage-postgres/src/trutina/storage_postgres/journal/repository.py:182-205 | Numbers stay owned by one call each, and none is lost |
| LedgerInvariant.PostersStay | packages/storage-postgres/src/trutina/storage_postgres/posting/repository.py:88-108 | Each posted number keeps exactly one successful posting call |
| LedgerInvariant.Reachable | packages/storage-postgres/src/trutina/storage_postgres/posting/model.py:86-100 | The ledger invariant holds in every state any run of arrivals, steps and clock ticks reaches |
| PostingStore.PostingRepo.SaveMany | packages/storage-postgres/src/trutina/storage_postgres/posting/repository.py:63-108 | The batch is appended with its positions as line indexes, or nothing is stored and the error says which constraint failed |
| PostingStore.SaveManyOutcome | packages/storage-postgres/src/trutina/storage_postgres/posting/repository.py:159-180 | Saving an entry's batch succeeds exactly when nothing is posted for it, and reports it as already posted otherwise |
| PostingStore.HeldBatch | packages/core/src/trutina/core/posting/service.py:171-193 | The postings derived from an entry that was read are one per line, with one date, and always validate |
| PostingStore.BatchKeepsBalance | packages/core/src/trutina/core/posting/service.py:184-193 | Appending a batch of a rounded-balanced entry keeps the books balanced at every cutoff, the sums comparing dates row by row, because its rows share one date |
| PostingStore.PostedNow | packages/storage-postgres/src/trutina/storage_postgres/posting/model.py:86-90 | After the save the number holds exactly its batch, and every other number what it held |
| PostingService.Service.PostJournalEntry | packages/core/src/trutina/core/posting/service.py:70-132 | The service method does what its three steps do run in a row |
| JournalStore.JournalRepo.Save | packages/storage-postgres/src/trutina/storage_postgres/journal/repository.py:66-109 | Header and lines are stored together, rounded to cents, or nothing is |
| JournalStore.JournalRepo.NextJournalNumber | packages/storage-postgres/src/trutina/storage_postgres/journal/repository.py:182-205 | Takes the next number of the sequence and changes nothing else |
| JournalStore.JournalRepo.ListEntries | packages/storage-postgres/src/trutina/storage_postgres/journal/repository.py:147-180 | The grouping loop equals reading each saved number in ascending order |
| JournalStore.GroupedRow | packages/storage-postgres/src/trutina/storage_postgres/journal/repository.py:165-180 | Adding one line row to the grouped lines extends its own number's group and no other |
| JournalStore.ReadableIffRoundedBalance | packages/storage-postgres/src/trutina/storage_postgres/journal/repository.py:231-261 | A saved entry reads back exactly when its stored totals agree, and then as its rows say |
| JournalStore.StoredImbalanceBound | packages/storage-postgres/src/trutina/storage_postgres/journal/model.py:129-134 | For every accepted entry of n lines, storage moves debits minus credits by at most n half-cents |
| JournalStore.WholeCentsStoredExactly | packages/storage-postgres/src/trutina/storage_postgres/journal/model.py:129-134 | The stored rows decode to the very lines saved exactly when every amount is whole cents |
| JournalStore.StoredSide | packages/storage-postgres/src/trutina/storage_postgres/journal/model.py:115-118 | The one-side CHECK refuses exactly the lines below half a cent, and an accepted line keeps its side |
| JournalStore.SaveShows | packages/storage-postgres/src/trutina/storage_postgres/journal/repository.py:84-103 | A committed save shows its own rows under its number and leaves every other number as it was |
| JournalStore.SaveKeepsJournal | packages/storage-postgres/src/trutina/storage_postgres/journal/repository.py:84-103 | Saving a validated entry under an allocated number keeps the journal well formed |
| JournalStore.SavedEntryReadsBack | packages/storage-postgres/src/trutina/storage_postgres/journal/repository.py:231-261 | Right after a save: the entry as rounded, if its rounded totals agree, and a validation failure if not |
| LedgerRuns.AcceptedEntryThatCannotBeRead | packages/core/src/trutina/core/journal/schemas/journal.py:146-149 | A run from the empty database: the service accepts and saves one cent against two half-cents, and the entry can then be neither read, listed nor posted |
| JournalService.Service.LoadChart | packages/core/src/trutina/core/account/service.py:294-310 | Building the chart fails exactly when the list cannot be read or repeats a code or key; both its indexes then answer as scans of the list |
| JournalService.Service.ResolveAll | packages/core/src/trutina/core/journal/service.py:214-222 | Succeeds exactly when every reference has the lookup key of some account of the chart; stops at the first that has not |
| JournalService.Service.CreateJournalEntry | packages/core/src/trutina/core/journal/service.py:82-147 | The service method does what its four steps do run in a row |
| Journals.BuildLines | packages/core/src/trutina/core/journal/service.py:224-247 | Succeeds exactly when every line validates, line by line in order |
| Money.CentsRoundTrip | packages/storage-postgres/src/trutina/storage_postgres/journal/model.py:129-134 | A stored amount read and stored again is the same amount |
| Money.RoundingError | packages/storage-postgres/src/trutina/storage_postgres/journal/model.py:129-134 | Rounding moves an amount by at most half a cent, by nothing exactly when it is whole cents, and keeps half a cent and more positive |
| Money.NearestCent | packages/storage-postgres/src/trutina/storage_postgres/journal/model.py:129-134 | An amount is stored as the cents it is nearest to, a tie going away from zero, alike on both sides of zero |
| Money.ColumnHolds | packages/storage-postgres/src/trutina/storage_postgres/journal/model.py:129-134 | The column takes exactly the amounts that round to less than ten to the sixteenth |
| TrialBalance.AggregateIsFilterAndSum | packages/storage-postgres/src/trutina/storage_postgres/trial_balance/repository.py:76-86 | One pass of grouping gives one group per key that occurs, each with the sums over that key's rows and their least name |
| TrialBalance.AggregateTotals | packages/core/src/trutina/core/trial_balance/dtos.py:43-77 | The totals over the groups are the flat totals over the rows |
| TrialBalance.ListedIsFiltered | packages/storage-postgres/src/trutina/storage_postgres/posting/repository.py:121-133 | Listing an account, cutting at a date and summing gives the sums over exactly the rows of its key dated on or before it |
| TrialBalance.AccountListing | packages/storage-postgres/src/trutina/storage_postgres/posting/repository.py:121-133 | The listing of an account holds the postings of its key and no others, earliest first |
| TrialBalance.GroupIsReportable | packages/storage-postgres/src/trutina/storage_postgres/trial_balance/repository.py:97-122 | A group's displayed name folds to its key and its row validates |
| TrialBalance.ReportRefinesListing | packages/storage-postgres/src/trutina/storage_postgres/trial_balance/repository.py:76-95 | All of it for any table whose rows carry their own key: keys with a posting by the cutoff, sums by key and date, strict order and report totals |
| TrialBalance.LaterIsUnseen | packages/storage-postgres/src/trutina/storage_postgres/trial_balance/repository.py:85-86 | Postings dated after the cutoff change no report, wherever they stand in the table |
| Text.TextLeMeans | packages/storage-postgres/src/trutina/storage_postgres/trial_balance/repository.py:82-84 | Names are compared character by character: the first difference decides, and a prefix comes first |
| AccountNames.PatternIsLocalRule | packages/shared/src/trutina/shared/rule.py:16-47 | The pattern accepts exactly the strings that start with a letter, use allowed characters only and follow every separator by a non-separator |
| AccountNames.CleanFixpoint | packages/shared/src/trutina/shared/rule.py:19-47 | Cleaning is idempotent and leaves alone exactly the trimmed names the rule accepts |
| AccountNames.CleanNameMeans | packages/shared/src/trutina/shared/rule.py:19-47 | Cleaning gives the name without the spaces around it when that follows the rule spelled out character by character, and refuses it otherwise |
| Text.NonBlankMeans | packages/shared/src/trutina/shared/rule.py:100-116 | An actor names someone exactly when some character of it is not a space |
| Text.StripPadded | packages/shared/src/trutina/shared/rule.py:19-47 | Trimming removes exactly the spaces at both ends |
| AccountNames.SharedKeyIsTrimmed | packages/shared/src/trutina/shared/rule.py:82-97 | A raw name with the lookup key of a stored name is already trimmed |
| Accounts.BuildAccount | packages/core/src/trutina/core/account/schemas/account.py:108-175 | What validation accepts has a valid code and a clean name of 1 to 150 characters |
| Accounts.AccountReadsBack | packages/core/src/trutina/core/account/schemas/account.py:108-175 | An accepted account validates again, as a read does, exactly when its trimmed name has two characters |
| Accounts.PaddedLetterIsUnreadable | packages/core/src/trutina/core/account/schemas/account.py:108-175 | A padded letter is accepted and its stored form is rejected |
| Accounts.ChartOfAccounts.ValidateUniqueCodes | packages/core/src/trutina/core/account/schemas/chart.py:38-58 | Accepts exactly the lists with distinct codes and leaves an index that answers as a scan of the list |
| Accounts.ChartOfAccounts.ValidateUniqueNames | packages/core/src/trutina/core/account/schemas/chart.py:60-82 | The same for lookup keys of names |
| Accounts.ChartOfAccounts.GetByName | packages/core/src/trutina/core/account/schemas/chart.py:84-94 | On a chart that passed both validators, the account of the list with the lookup key of the given name, if there is one |
| Accounts.ChartOfAccounts.GetByCode | packages/core/src/trutina/core/account/schemas/chart.py:96-106 | The same for the account with the given code |
| AccountStore.AccountRepo.Create | packages/storage-postgres/src/trutina/storage_postgres/account/repository.py:74-105 | Adds the row and its audit row together, or neither when the code or key is taken |
| AccountStore.AccountRepo.Update | packages/storage-postgres/src/trutina/storage_postgres/account/repository.py:107-147 | Rewrites the row of that code and adds an audit row, or neither when it is missing or another row has the key |
| AccountStore.AccountRepo.DeleteByCode | packages/storage-postgres/src/trutina/storage_postgres/account/repository.py:204-240 | Removes the row of that code and adds an audit row, or neither when it is missing |
| AccountStore.AccountListReadableIff | packages/storage-postgres/src/trutina/storage_postgres/account/repository.py:284-302 | The list reads exactly when every stored name has two characters |
| AccountStore.ChartAlwaysBuilds | packages/core/src/trutina/core/account/schemas/chart.py:38-82 | A list read from the table never repeats a code or a key |
| AccountStore.CycleAppend | packages/storage-postgres/src/trutina/storage_postgres/account/repository.py:216-239 | An action extends well-formed cycles exactly when it creates a closed account or changes an open one |
| AccountStore.AccountWritesKeepAudit | packages/storage-postgres/src/trutina/storage_postgres/account/repository.py:89-147 | Every write keeps the log replaying to the table, each code's actions in cycles |
| AccountService.Service.CreateAccount | packages/core/src/trutina/core/account/service.py:113-193 | The service method does what its three steps do run in a row |
| AccountService.Service.UpdateAccount | packages/core/src/trutina/core/account/service.py:195-267 | The same for an update |
| AccountService.Service.DeleteAccount | packages/core/src/trutina/core/account/service.py:361-410 | The same for a delete |
| AccountTheorems.ChartConsistent | packages/core/src/trutina/core/account/schemas/chart.py:53-106 | Under any races codes and keys are unique, each key is that of its name, and the chart builds and resolves exactly the keys of the table when every name has two characters |
| AccountTheorems.AuditReplays | packages/storage-postgres/src/trutina/storage_postgres/account/repository.py:89-147 | In every reachable state each code's actions are create, update*, delete cycles, open exactly while the account exists, and the log replays to the codes of the table |
| AccountTheorems.CreateAccountSucceedsIff | packages/core/src/trutina/core/account/service.py:113-193 | Run alone from any reachable state: exactly which creates succeed, what they store, and that every other changes nothing |
| AccountAnswers.CreateAccountAnswers | packages/core/src/trutina/core/account/service.py:113-193 | Run alone on any tables, in full: the error of each refused create, which of the two duplicate codes included, and the row and audit row of an accepted one, its category included |
| AccountAnswers.UpdateAccountAnswers | packages/core/src/trutina/core/account/service.py:195-267 | The same for an update from any reachable state: what is not given stays, and each refusal in its order |
| AccountAnswers.DeleteAccountAnswers | packages/core/src/trutina/core/account/service.py:361-410 | The same for a delete from any reachable state |
| AccountAnswers.AccountAcceptedIff | packages/core/src/trutina/core/account/schemas/account.py:108-175 | Exactly which code and name are accepted, digit by digit and character by character, and the account they give |
| AccountTheorems.UpdateAccountSucceedsIff | packages/core/src/trutina/core/account/service.py:195-267 | Run alone from any reachable state: exactly which updates succeed, what they store, and that every other changes nothing |
| AccountTheorems.RenameChecksAgreeIff | packages/core/src/trutina/core/account/service.py:243-249 | The name lookup and the unique key agree on a rename exactly when it changes more than case and is not a padded form of another name |
| AccountTheorems.DeleteAccountSucceedsIff | packages/core/src/trutina/core/account/service.py:393-405 | Run alone from any reachable state: exactly which deletes succeed, and that only postings under the current name's key hold one back |
| AccountTheorems.DeleteAmongOthers | packages/core/src/trutina/core/account/service.py:397-405 | Among any other calls, in every reachable state: the check of a delete passes exactly when no posting then carries the name it loaded, and its write goes through exactly when the code is still there, whatever was posted or renamed in between |
| LedgerRuns.DeleteRace | packages/core/src/trutina/core/account/service.py:397-405 | A run from the empty database in which a guarded delete passes its check, its account is posted to, and the delete goes through |
| LedgerRuns.RenamedHistoryDeleted | packages/core/src/trutina/core/account/service.py:397 | A run from the empty database in which an account is posted to, renamed and deleted with the guard on, its posting staying behind |
| LedgerRuns.CaseOnlyRename | packages/core/src/trutina/core/account/service.py:243 | A rename of a created account from Cash to CASH is refused as a duplicate, though the repository would take it |
| LedgerRuns.PaddedRename | packages/core/src/trutina/core/account/service.py:243-264 | A rename to a padded form of another created account's name passes the lookup and is refused by the unique key |
| Emails.NormalizeIdempotent | packages/authentication/src/trutina/authentication/credentials/users/email.py:13-29 | Normalizing a normalized address changes nothing, so every path that normalizes agrees on one key |
| Emails.NormalizeMeans | packages/authentication/src/trutina/authentication/credentials/users/email.py:13-29 | The stored form is the typed address without the spaces around it and in lower case; two addresses have one stored form exactly when they differ in no more than that |
| Throttle.LoginAttemptRepo.CountFailures | packages/storage-postgres/src/trutina/storage_postgres/login_attempt/repository.py:60-76 | Counts the pair's rows at or after the bound |
| Throttle.LoginAttemptRepo.PurgeBefore | packages/storage-postgres/src/trutina/storage_postgres/login_attempt/repository.py:93-104 | Keeps exactly the rows at or after the cutoff and says how many went |
| Throttle.ThrottledAuthenticator.Authenticate | packages/authentication/src/trutina/authentication/credentials/login/throttled_authenticator.py:96-154 | One attempt: outcome and store, with the untracked, throttled, failed, successful and other paths |
| Throttle.PurgeUnseen | packages/storage-postgres/src/trutina/storage_postgres/login_attempt/repository.py:93-104 | Purging loses no row a count from the cutoff on could see |
| Throttle.StoreAgrees | packages/authentication/src/trutina/authentication/credentials/login/throttled_authenticator.py:128-154 | After any run every count a later attempt can ask for equals that of the bare history |
| Throttle.ThrottleIsHistory | packages/authentication/src/trutina/authentication/credentials/login/throttled_authenticator.py:128-154 | An attempt is throttled exactly when at least the limit of the pair's failures since its last success are within the window |
| Throttle.ThrottledByOwnFailures | packages/authentication/src/trutina/authentication/credentials/login/throttled_authenticator.py:122-154 | Over runs of typed emails and client addresses: an attempt is throttled exactly when its email is short enough to be tracked and its own party, the same address and the same email up to case and padding, has at least the limit of failures within the window since its last success |
| Throttle.OthersNeverMatter | packages/authentication/src/trutina/authentication/credentials/login/throttled_authenticator.py:128-132 | Two runs with the same attempts of one party answer its next attempt alike, whatever anyone else did |
| Throttle.PartiesByAddress | packages/authentication/src/trutina/authentication/credentials/login/throttled_authenticator.py:128 | Clients with no address, an empty one or the literal unknown share one record; two different other addresses never share |
| Throttle.AdmittedAfterWindow | packages/authentication/src/trutina/authentication/credentials/login/throttled_authenticator.py:42-44 | Once every failure of the pair is older than the window it is admitted |
| Throttle.ThrottledLeavesNoTrace | packages/authentication/src/trutina/authentication/credentials/login/throttled_authenticator.py:46-51 | A throttled attempt changes neither the store nor any pair's history |
| ThrottleRace.Admission | packages/authentication/src/trutina/authentication/credentials/login/throttled_authenticator.py:128-132 | An admitted attempt fits under the bound for every window it could still write into |
| ThrottleRace.Recording | packages/authentication/src/trutina/authentication/credentials/login/throttled_authenticator.py:145-149 | Recording moves one attempt from pending to stored, so the bound is kept |
| ThrottleRace.ConcurrentBound | packages/authentication/src/trutina/authentication/credentials/login/throttled_authenticator.py:128-153 | With at most K attempts of a pair in flight, no closed window of the configured length ever holds more than max_failures - 1 + K of its failures, clock read, count, record, purge and clear being separate steps |
| ThrottleRace.BoundIsReached | packages/authentication/src/trutina/authentication/credentials/login/throttled_authenticator.py:53-55 | For every limit and every K of at least one some run reaches the bound |
| ThrottleRace.SoloAttempt | packages/authentication/src/trutina/authentication/credentials/login/throttled_authenticator.py:122-154 | The separate steps of one attempt, run without interruption, leave the store exactly as the whole call does |
| RefreshTokens.FakeRefreshTokenRepo.Rotate | tests/fakes/auth.py:238-252 | Unknown or expired is invalid, used or revoked is reused with its record, a live one is rotated; only a rotation stores anything |
| RefreshTokens.FakeRefreshTokenRepo.RevokeFamily | tests/fakes/auth.py:254-257 | The loop revokes exactly the family's records not yet revoked |
| RefreshTokens.FakeRefreshTokenRepo.RevokeAllForUser | tests/fakes/auth.py:259-262 | The loop revokes exactly the user's records not yet revoked |
| RefreshTokens.FakeRefreshTokenRepo.PurgeExpired | tests/fakes/auth.py:264-268 | Keeps exactly the unexpired records and returns how many went |
| RefreshTokens.RotationAnswers | tests/fakes/auth.py:238-252 | The same read off the stored records, with what a rotation leaves record by record |
| RefreshTokens.RotatedIsReused | tests/fakes/auth.py:245-252 | After a rotation, through any further calls that purge nothing before its time, every rotation of the old token before it expires answers that it was reused, with its record |
| RefreshTokens.RevocationReaches | tests/fakes/auth.py:254-262 | A revocation stamps exactly the unrevoked records of its family or its user and leaves every other as it was |
| RefreshTokens.PurgeReaches | tests/fakes/auth.py:264-268 | A purge keeps exactly the records that expire later |
| RefreshTokens.PurgeInvisibleIff | tests/fakes/auth.py:245-268 | A run answers every rotation as it would without its purges exactly when no rotation presents a token a purge has lost while it was still good |
| RefreshTokens.PurgeIsInvisible | tests/fakes/auth.py:245-268 | So under a non-decreasing clock every rotation of a run answers as in the run without its purges, with the same previous record |
| RefreshTokens.PurgeSeenWhenClockRunsBack | tests/fakes/auth.py:264-268 | A run whose clock runs back and whose purge changes an answer |
| RefreshTokens.FamiliesAreLinear | packages/authentication/src/trutina/authentication/tokens/refresh.py:78-100 | Over any disciplined run a family holds at most one unspent token, no hash is rotated twice, and its rotations form one line from its first token |
| RefreshTokens.RotationHandsOver | tests/fakes/auth.py:248-252 | After a rotation the replacement is the family's only unspent token and the old one is never accepted again |
| RefreshTokens.RevocationIsFinal | tests/fakes/auth.py:254-262 | From any state, after a family or a user is revoked no later rotation accepts one of its tokens |
| Credentials.PasswordAuthenticator.Login | packages/authentication/src/trutina/authentication/credentials/login/password_authenticator.py:91-147 | The gates in order, exactly one verify past them (against the stored hash or the dummy), and a rehash only on success |
| Credentials.RegistrationService.Register | packages/authentication/src/trutina/authentication/credentials/users/registration.py:120-187 | Every violation reported together, then the duplicate pre-check, then the unique insert |
| Credentials.PostgresUserRepo.GetByEmail | packages/storage-postgres/src/trutina/storage_postgres/identity/repository.py:85-96 | Finds the user of the normalized address |
| Credentials.WellFormedMeans | packages/authentication/src/trutina/authentication/credentials/users/email.py:32-56 | The shape rule in full: short enough, no space or control character, one at sign with text on both sides |
| Credentials.AcceptedInputPassesGates | packages/authentication/src/trutina/authentication/credentials/users/registration.py:190-210 | Exactly which input registration accepts, and that login's gates pass it with the same text to verify |
| Credentials.PasswordText | packages/authentication/src/trutina/authentication/credentials/passwords/rules.py:13-35 | The text hashed and verified is the NFKC form without the spaces around it, case kept |
| Credentials.RegisterMeans | packages/authentication/src/trutina/authentication/credentials/users/registration.py:147-187 | A registration on any table: every fault of the input together, then a taken address, then the new active user at the end of the table |
| CredentialRuns.RegistrationAnswers | packages/authentication/src/trutina/authentication/credentials/users/registration.py:147-187 | With a fresh id from any reachable state: it succeeds exactly when the address and password are good and no stored user has the address; it then adds one active user whose hash verifies exactly the normalized password, and a taken address is refused as such |
| CredentialRuns.HashesVerifyRegistration | packages/authentication/src/trutina/authentication/credentials/users/registration.py:168-181 | In every reachable state ids and addresses are unique and each hash verifies exactly the text its user registered |
| CredentialRuns.LoginSucceedsIff | packages/authentication/src/trutina/authentication/credentials/login/password_authenticator.py:120-147 | A login by any spelling of a stored address succeeds exactly when the user is active and the password, short enough as typed, normalizes to the registered text |
| CredentialRuns.StrangersAreRefused | packages/authentication/src/trutina/authentication/credentials/login/password_authenticator.py:134-136 | No stored user, no login, and nothing changes |
| CredentialRuns.RegisteredUserLogsIn | packages/authentication/src/trutina/authentication/credentials/users/registration.py:181-187 | A saved registration can be logged into after any later run by every equivalent spelling, while active |
| CredentialRuns.InterleavedAnswers | packages/authentication/src/trutina/authentication/credentials/login/password_authenticator.py:132-147 | Among any other calls: a login's answer is decided by the row it read as it would be run alone, every refusal is the uniform one (so a rehash never meets a missing user), and a successful registration reports the user stored under its address with its text |
| CredentialRuns.OneRegistrationPerAddress | packages/storage-postgres/src/trutina/storage_postgres/identity/repository.py:57-72 | However many registrations of one address race, at most one succeeds |
| CredentialRuns.SoloLogin | packages/authentication/src/trutina/authentication/credentials/login/password_authenticator.py:120-147 | The steps of a login run without interruption leave the users and give the answer that the whole call does |
| CredentialRuns.SoloRegister | packages/authentication/src/trutina/authentication/credentials/users/registration.py:147-187 | The same for a registration |
| CliContext.CliContext.GetAccountService | apps/cli/src/trutina/cli/composition/context.py:185-199 | Posting repository first, then account repository, then the service; cached |
| CliContext.CliContext.AClose | apps/cli/src/trutina/cli/composition/context.py:269-306 | Resets the cached state whether or not the disconnect raises, keeping injected repositories |
| CliContext.Lifecycle | apps/cli/src/trutina/cli/composition/context.py:117-248 | Over any calls, failed connects and closes: at most one connection open while every disconnect succeeds, injected repositories never replaced, every other one on the current connection, every service on what is cached |
| CliContext.FailedAccessChangesNothing | apps/cli/src/trutina/cli/composition/context.py:117-120 | A call that fails to connect changes nothing |
| CliContext.CloseIsComplete | apps/cli/src/trutina/cli/composition/context.py:288-306 | A close raises exactly what disconnecting raises, if there is something to disconnect; nothing the context built survives it even then, and a second close does nothing |
| CliContext.AccessAnswers | apps/cli/src/trutina/cli/composition/context.py:117-248 | After any calls an access connects exactly when a repository it is built on is missing and nothing is connected, raises exactly what that connecting raises, and otherwise hands out its object with every repository it needs cached |
| CliContext.SameObjectUntilClosed | apps/cli/src/trutina/cli/composition/context.py:122-248 | Until the next close, whatever other calls succeed or fail in between, asking again returns the very object returned before |
| CliContext.InjectedNeverConnects | apps/cli/src/trutina/cli/composition/context.py:66-77 | With every repository passed in, no call connects or raises |

## Left out

- Emails.NormalizeIdempotent: stated for ASCII case folding only, as is every lookup key of an
  account or an address; a character such as the Kelvin sign, which case-folds to an ASCII letter,
  is taken here as different from it.
- Text collation: `MIN` and `ORDER BY` on names compare code points here; a database collation may
  order differently.
- NFKC and the control-character category are arbitrary functions (`Credentials.Unicode`), so the
  results about passwords and addresses hold for any choice but say nothing about the tables.
- Decimal context precision, time zones, and separate clocks of application and database: amounts
  are exact, times are integers of one non-decreasing clock.
- SQLAlchemy sessions, drivers, isolation levels and row-level races inside one transaction: a
  repository method commits whole or changes nothing. Storage outages and timeouts are modelled
  only where a connection is opened or closed.
- Argon2, salts, the worker threads and the semaphore: `Credentials.IdealHasher` verifies exactly
  the text that was hashed.
- Identifiers (UUIDs) and random tokens are parameters; their uniqueness is a stated hypothesis or
  a checked constraint.
- Update in place of single rows: a table is a sequence value that a repository method replaces as
  a whole.
- `CliContext.CliContext.GetRepository`: one accessor by kind for the four repository accessors,
  which differ only in the class they build.
- `FakeAccountRepo`, `FakeUserRepo` and the other fakes without constraints: the PostgreSQL
  adapters are modelled instead.
- Input length limits of the request objects, which the domain validators repeat or tighten.
- Error contexts, hints, status codes, event sinks and log lines.
- API routers, CLI commands, prompts, presenters, settings, migrations and shell completion.
- `resolve_account`, the read-only views and the view-model builders: they would only add easy
  members.
- Access tokens, the token issuer and verifier: contracts without an implementation outside tests.
