# Verification model of the construction ERP's ledger, access, cost and audit cores

A Dafny 4.11 project that models the parts of the system whose correctness rests on more than one function, and
proves what they are for. Money is counted in ten-thousandths, the unit of `numeric(18,4)`; times, digests, password
checks, resolved recipients and the clock are parameters; ids are counters in place of UUIDs.

| module | what it models |
|---|---|
| `JournalStore` | the journal tables as a transactional store: interleaved sessions, inserts, triggers, deferred balance checks, commit and rollback |
| `Statements`, `StatementTies`, `RunningLedger` | trial balance, profit and loss, balance sheet, running ledgers and pages, the dashboard's cash flow, all read off the committed rows |
| `Json`, `Jsonb`, `SealText`, `SealChain`, `AuditChain`, `AuditPayloads` | the text a seal covers, what jsonb does to it, hash-chained histories, the audit service and the sweep |
| `AccessControl`, `AccessInvariants`, `AccessLockout`, `AccessReplay`, `AccessReplace`, `AccessEdits`, `AccessUsers`, `AccessUseCases` | roles, grants and users: every request as a plan of row changes, runs of requests, and the use cases as methods over the tables |
| `AccessTrail`, `AccessSeals` | from requests to sealed rows: which requests write audit rows that do not read back, and what a run of requests does to a company's chain |
| `CostPolicy`, `CostControl`, `BudgetCheck` | the over-budget classification with decimal division rounded to 20 digits, both budget-versus-actual implementations, the prospective check |
| `Receivables` | the receipt allocation view, IPC billing rows and the outstanding report |
| `Lockout` | the login use case and the account lockout counters |
| `Notifications` | fan-out, read marks, unread counts and the daily scans |
| `Calendar` | date strings, UTC day numbers (section 21.4.1 of ECMA-262) and ageing buckets |
| `Prelude`, `Sums`, `Grouping`, `Sorting` | sums, filters, grouping and sorting: what SUM, WHERE, GROUP BY and ORDER BY mean |

`dafny verify dfyconfig.toml` checks the whole project.

## Where the code and its documentation disagree

- Balance sheet. It balances for entry-level scopes whether or not an account's type equals its group's type
  (`StatementTies.BalanceSheetGap`), and can fail for scopes that filter on lines, such as a project scope
  (`StatementTies.SheetBalancesIffEntryLevel` and `TrialBalanceTiesIffEntryLevel` give the exact conditions,
  `SplitLedgerUnbalancesTheSheet` and `SplitLedgerIsLopsided` the ledger).
- Running balance. The order of lines that share date, entry number and line number is open, and so is their running
  balance: it is fixed exactly for lines with a key of their own (`RunningLedger.BalanceIsFixedIffOwnKey`; two lines
  with two balances: `RunningLedger.TiedLinesHaveTwoBalances`).
- Audit chain. `record` seals the payload text before jsonb reorders its keys, and `verifyChain` recomputes the seal
  from the reordered text. The chain of a company therefore verifies only if every payload listed its keys in jsonb
  order (`AuditChain.RecordedRunVerifiesIff`). The sweep's payload does. The payload of a permission creation or
  deletion or of a user creation never does, nor that of a patch of both fields of a permission or of limit and flag of
  a role; `AccessSeals.RunVerifiesIff` states this over runs of requests, `AuditPayloads.OneGrantBreaksTheChain` and
  `AccessSeals.OneUserBreaksTheChain` for a single row. What a verified chain guarantees is unaffected.
- Audit of the grid. Creating a role with grants, deleting a role that has grants, and seeding missing grants change
  the grid without a Permission audit row (`AccessReplay.StepReplaysIff`; one role with one grant:
  `AccessReplay.RoleWithAGrantDoesNotReplay`).
- Resubmitting a grid. A limit with more than four decimals is rounded when stored, so it differs from the stored one
  on every save (`AccessReplace.ResubmissionIsQuietIffExact`; the limit 0.00005:
  `AccessReplace.FiveDecimalsAreNeverQuiet`).
- Dates. `DateOnly.of` rejects the years 0 to 99, which `Date.UTC` moves to 1900 to 1999 (`Calendar.AcceptedExactly`;
  "0099-01-01": `Calendar.YearNinetyNineIsRefused`).
- Classification. It is exact only because budgets are bounded by their column; `CostPolicy.TwentyDigitsRunOut` gives
  an amount past the bound where 20 digits are too few.

The digest is not assumed injective. Where two different texts would have to share a digest, the theorems say so and
name the two texts. A check of the trail with a lower bound that leaves rows out restarts from an empty previous seal
and so reports the first row it reads, even of an untouched trail (`AuditChain.BoundedCheck`).

## Model

| member | source | states |
|---|---|---|
| `JournalStore.JournalTables.BeginTransaction` | src/database/migrations/1700000400000-CreateLedger.ts:20-70 | opening a transaction adds it with no rows and no queued checks, and changes nothing else |
| `JournalStore.JournalTables.Insert` | src/database/migrations/1700000400000-CreateLedger.ts:21-42 | an entry insert either joins the transaction's own rows or, on a duplicate id or a dangling reversal, aborts the transaction |
| `JournalStore.JournalTables.InsertJournalLine` | src/database/migrations/1700000400000-CreateLedger.ts:51-69 | a line insert passes all CHECKs and its entry reference or aborts the transaction; the balance check is queued, not run |
| `JournalStore.JournalTables.Mutate` | src/database/migrations/1700000400000-CreateLedger.ts:80-96 | an UPDATE or DELETE never changes a row; it aborts the transaction exactly when it reaches one |
| `JournalStore.JournalTables.CheckNext` | src/database/migrations/1700000400000-CreateLedger.ts:100-115 | the deferred check at the head of the queue passes in its snapshot and is dequeued, or the transaction is rolled back; the committed tables stay |
| `JournalStore.JournalTables.Commit` | src/database/migrations/1700000400000-CreateLedger.ts:98-121 | COMMIT is the queued checks one by one, each in its own snapshot, then publication; one failing check publishes nothing |
| `JournalStore.JournalTables.RollbackTransaction` | src/database/migrations/1700000400000-CreateLedger.ts:20-70 | rolling back drops the transaction's rows and leaves the committed tables as they were |
| `JournalStore.CheckDecidesOwnLines` | src/database/migrations/1700000400000-CreateLedger.ts:100-115 | the verdict of a deferred check is the same in every committed snapshot: own lines of the entry balance (and the sums fit the column) |
| `JournalStore.CommitSucceedsIffOwnLinesBalance` | src/database/migrations/1700000400000-CreateLedger.ts:98-121 | COMMIT publishes exactly when the transaction's own lines of each touched entry balance and fit; otherwise the committed tables are unchanged |
| `JournalStore.StepKeepsInv` | src/database/migrations/1700000400000-CreateLedger.ts:20-121 | every operation of every session keeps balance, line checks, references and unique keys of committed and open rows |
| `JournalStore.EveryCommittedStateIsSound` | src/database/migrations/1700000400000-CreateLedger.ts:66-68 | in every committed state of every interleaving each entry has equal debits and credits, and rows satisfy their constraints |
| `JournalStore.CommittedRowsNeverChange` | src/database/migrations/1700000400000-CreateLedger.ts:79-96 | a row committed at any time stays at its place with its values for the rest of the run |
| `Statements.Push` | src/reports/infrastructure/ledger.read.adapter.ts:64-98 | appending a conjunct narrows the selection by exactly that conjunct |
| `Statements.EntryConds` | src/reports/infrastructure/ledger.read.adapter.ts:64-90 | the company, year, date and voucher-type conjuncts select exactly the entries in scope; on balance reports a period or as-of date wins over the window |
| `Statements.ProjectClause` | src/reports/infrastructure/ledger.read.adapter.ts:92-98 | a null project filter adds nothing, an empty one selects nothing, a list selects its projects |
| `Statements.Conds` | src/reports/infrastructure/ledger.read.adapter.ts:64-98 | the conjuncts pushed for any scope, with the project clause, select exactly the postings in that scope; an empty project list selects none |
| `Statements.TrialBalanceRowsAddUp` | src/reports/infrastructure/ledger.read.adapter.ts:101-140 | for any scope and any list of grouping columns the trial-balance rows add up, in debit, credit and net, to its totals |
| `Statements.FineTrialBalanceReaggregates` | src/reports/infrastructure/ledger.read.adapter.ts:101-140 | a finer grouping re-aggregates to any coarser one: the fine rows below a coarse key sum to the coarse row |
| `Statements.ProfitAndLossRowsAddUp` | src/reports/infrastructure/ledger.read.adapter.ts:220-261 | profit-and-loss rows add up to the totals for every scope and grouping, and profit is revenue less cost |
| `Statements.FineProfitAndLossReaggregates` | src/reports/infrastructure/ledger.read.adapter.ts:220-261 | a finer profit and loss re-aggregates to any coarser one, project and cost centre to project for instance: revenue, cost and profit |
| `Statements.ProjectPnlTotalRow` | src/reports/application/report-query.service.ts:375-402 | the total row of the project P&L is the sum of its cost-centre rows |
| `Statements.AccumulateGroups` | src/reports/infrastructure/ledger.read.adapter.ts:298-362 | the loop over account groups leaves in assets, liabilities and equity exactly the balances of the groups of that type |
| `Statements.BalanceSheetReport` | src/reports/infrastructure/ledger.read.adapter.ts:298-362 | assets, liabilities and equity are the signed sums over the postings of their group types, earnings closed into equity, one row per group |
| `StatementTies.BalanceSheetGap` | src/reports/infrastructure/ledger.read.adapter.ts:298-362 | for every scope, assets less liabilities less equity is the net of the postings in scope whose account is known - whatever the account and group types |
| `StatementTies.SheetBalancesIffTrialBalanceDoes` | src/reports/infrastructure/ledger.read.adapter.ts:101-140 | when every posting has its account, the balance-sheet equation holds exactly when the trial balance of the same scope does |
| `StatementTies.WholeEntriesNetToZero` | src/database/migrations/1700000400000-CreateLedger.ts:98-121 | in a sound ledger any filter that keeps or drops entries as a whole selects equal debits and credits |
| `StatementTies.EntryLevelScopeNetsToZero` | src/reports/infrastructure/ledger.read.adapter.ts:64-90 | a scope filtering only on entry columns selects equal debits and credits |
| `StatementTies.CommittedLedgerBalances` | src/reports/infrastructure/ledger.read.adapter.ts:298-362 | for every run of the journal store and every entry-level scope the trial balance ties and, accounts known, the balance sheet balances |
| `StatementTies.SplitLedgerIsReachable` | src/database/migrations/1700000400000-CreateLedger.ts:98-121 | for any scope that filters lines there is a committed ledger with one entry whose lines the scope splits |
| `StatementTies.TrialBalanceTiesIffEntryLevel` | src/reports/infrastructure/ledger.read.adapter.ts:64-98 | the trial balance ties on all reachable ledgers exactly when the scope filters only entry columns (or selects nothing at all) |
| `StatementTies.SplitLedgerUnbalancesTheSheet` | src/reports/infrastructure/ledger.read.adapter.ts:298-362 | for any scope that filters lines, and a known account it selects, a committed ledger of one entry whose balance sheet does not balance |
| `StatementTies.SheetBalancesIffEntryLevel` | src/reports/infrastructure/ledger.read.adapter.ts:298-362 | the balance sheet balances on all reachable ledgers whose selected accounts are known exactly when the scope filters only entry columns, selects nothing, or can select no known account |
| `StatementTies.EarningsAsOfAreProfitUpTo` | src/reports/infrastructure/ledger.read.adapter.ts:319-332 | the balance sheet's current-period earnings as of a day equal the P&L profit up to that day under the same filters |
| `RunningLedger.ResolvePaging` | src/infrastructure/http/pagination.ts:26-35 | whatever numbers are asked for, the page is at least 1, the size between 1 and 200 and the offset that of the page |
| `RunningLedger.PagesConcatenateToTheList` | src/infrastructure/http/pagination.ts:26-35 | pages 1..n put together are the first n pages' worth of rows, and the whole list once they reach its end |
| `RunningLedger.RunningBalanceInAnyOrder` | src/reports/infrastructure/ledger.read.adapter.ts:156-197 | in whatever order equal sort keys come, a row's running balance is the sum of the book's lines up to that row from the beginning of time, less the lines of the same key behind it |
| `RunningLedger.BalanceIsFixedIffOwnKey` | src/reports/infrastructure/ledger.read.adapter.ts:188-192 | a line has that absolute balance in every order the database may choose exactly when no other line of the book shares its date, entry number and line number |
| `RunningLedger.TiedLinesHaveTwoBalances` | src/reports/infrastructure/ledger.read.adapter.ts:188-192 | two lines of one entry under one line number: the first shows 1 in one order of the ledger and 0 in the other |
| `RunningLedger.RunningBalanceIsAbsolute` | src/reports/infrastructure/ledger.read.adapter.ts:156-197 | the running balance of a line with a sort key of its own is the sum of the book's lines up to it from the beginning of time |
| `RunningLedger.RunningBalanceIsWindowIndependent` | src/reports/infrastructure/ledger.read.adapter.ts:156-197 | a line with a sort key of its own carries the same running balance in any two windows of the book, in any orders |
| `RunningLedger.PagedBalanceIsAbsolute` | src/reports/infrastructure/ledger.read.adapter.ts:156-197 | on every page of any size, an item with a sort key of its own carries the sum of the book's lines up to it from the beginning of time |
| `RunningLedger.PagesAgreeAcrossWindows` | src/reports/infrastructure/ledger.read.adapter.ts:156-197 | two windows of a book read with any pages and page sizes, in any orders, show the same balance on a line both show and that has a sort key of its own |
| `RunningLedger.PagesMakeTheLedger` | src/reports/infrastructure/ledger.read.adapter.ts:181-196 | total and opening are the same on every page; pages 1..n put together are the whole ledger once they have room for it, and end in the closing balance |
| `RunningLedger.LastRowIsClosing` | src/reports/infrastructure/ledger.read.adapter.ts:156-197 | the last row's running balance is opening plus the window's movement |
| `RunningLedger.ClosingIsNextOpening` | src/reports/infrastructure/ledger.read.adapter.ts:163-178 | the closing balance of a window ending on day d is the opening balance of one starting on day d + 1 |
| `RunningLedger.CashFlowTiesToCashBankBook` | src/dashboard/infrastructure/ledger.read.adapter.ts:64-98 | the dashboard's net inflow is closing minus opening of the cash/bank book, and its two balances add up to that book's undated closing |
| `SealText.IsoTextDecodes` | src/core/audit/infrastructure/typeorm-audit-log.repository.ts:86-92 | the timestamp text determines the timestamp |
| `SealText.PreimageDecodes` | src/core/audit/infrastructure/typeorm-audit-log.repository.ts:141-152 | equal joined texts have equal previous seals and equal fields, although the payloads may contain the separator |
| `Json.TextDecodes` | src/core/audit/infrastructure/typeorm-audit-log.repository.ts:149-150 | no JSON text is a proper prefix of another value's text: it can be read off the front of any longer text in one way |
| `Jsonb.TextSurvivesIffInStoredOrder` | src/core/audit/infrastructure/typeorm-audit-log.repository.ts:98-102 | a payload's text survives storage in jsonb and re-reading exactly when its keys were already in jsonb order at every depth; storing is idempotent |
| `SealChain.LastSealFixesHistory` | src/core/audit/infrastructure/typeorm-audit-log.repository.ts:86-112 | two verified histories with the same last seal agree row for row, or two different texts share a digest |
| `SealChain.RewrittenPastIsReported` | src/core/audit/infrastructure/typeorm-audit-log.repository.ts:94-109 | replacing everything before some kept rows is reported among the replaced rows or at the first kept one (short of a collision) |
| `SealChain.AlteredRowIsReported` | src/core/audit/infrastructure/typeorm-audit-log.repository.ts:94-109 | an altered row is reported at that row, or at the next when it was sealed anew; a re-sealed newest row is not reported |
| `SealChain.DroppedRowIsReported` | src/core/audit/infrastructure/typeorm-audit-log.repository.ts:94-109 | a dropped row is reported at the row that followed it (short of a collision) |
| `SealChain.RowVerifiesIff` | src/core/audit/infrastructure/typeorm-audit-log.repository.ts:98-107 | a recorded row verifies exactly when its content reads back as it was written (collisions aside) |
| `AuditChain.AuditSealingIsSound` | src/core/audit/infrastructure/typeorm-audit-log.repository.ts:130-153 | the audit log's text is uniquely decodable and re-reading keeps company and time and changes content exactly when keys were out of order |
| `AuditChain.Sanitise` | src/core/audit/application/real-audit.service.ts:13-22 | the sensitive top-level fields become [REDACTED]; every other field and the key order stay |
| `AuditChain.AuditLog.Append` | src/core/audit/infrastructure/typeorm-audit-log.repository.ts:22-37 | appending adds one row at the end |
| `AuditChain.AuditLog.LastSeal` | src/core/audit/infrastructure/typeorm-audit-log.repository.ts:39-46 | none exactly when the company has no row; otherwise the seal of one of its rows that none of its others is later than |
| `AuditChain.AuditLog.Record` | src/core/audit/application/real-audit.service.ts:30-59 | recording redacts, seals over the company's last seal and appends the payloads as jsonb keeps them |
| `AuditChain.AuditLog.ChainDeletes` | src/database/seeds/seed-roles-permissions.ts:162-191 | the sweep's local chaining of its DELETE rows leaves what recording them one by one would |
| `AuditChain.AuditLog.VerifyChain` | src/core/audit/infrastructure/typeorm-audit-log.repository.ts:86-112 | over the rows between the optional from and to, the answer is intact exactly when every stored seal is the recomputed one, and otherwise names the first row that is not |
| `AuditChain.UnboundedReadsAll` | src/core/audit/infrastructure/typeorm-audit-log.repository.ts:86-95 | without bounds the check reads the company's whole trail in time order |
| `AuditChain.BoundedCheck` | src/core/audit/infrastructure/typeorm-audit-log.repository.ts:86-112 | on a trail that verifies, a check with an upper bound verifies too; one with a lower bound that cuts rows off reports the first row it reads (short of a collision) |
| `AuditChain.ChronologicalIsInsertionOrder` | src/core/audit/infrastructure/typeorm-audit-log.repository.ts:93 | with a clock that moves forward the time order of a company's rows is their insertion order |
| `AuditChain.RecordedRunVerifiesIff` | src/core/audit/application/real-audit.service.ts:30-59 | any mixed run of record and sweep verifies for a company exactly when all its payloads had keys in stored order; otherwise the first that had not is the row reported (collisions aside) |
| `AuditChain.SameLastSealSameTrail` | src/core/audit/infrastructure/typeorm-audit-log.repository.ts:39-46 | two audit tables that verify for a company and agree on its last seal hold the same trail, or a collision |
| `AuditPayloads.GrantPayloadIsReordered` | src/core/auth/application/rbac.use-cases.ts:224-234 | the payload of a permission creation or deletion never comes back in the order it was sealed |
| `AuditPayloads.PatchPayloadReadsBackIff` | src/core/auth/domain/permission.entity.ts:60-77 | the payload of a permission patch reads back as sealed exactly when it changes at most one field |
| `AuditPayloads.RoleCreationReadsBack` | src/core/auth/application/rbac.use-cases.ts:124-132 | the payload of a role creation reads back as sealed |
| `AuditPayloads.RolePatchReadsBackIff` | src/core/auth/domain/role.entity.ts:64-82 | the payload of a role patch, with or without a new name, reads back as sealed exactly when it does not supply both the limit and the flag |
| `AuditPayloads.UserCreationIsReordered` | src/core/auth/application/rbac.use-cases.ts:518-522 | the payload of a user creation never comes back in the order it was sealed |
| `AuditPayloads.UserPayloadReadsBack` | src/core/auth/application/rbac.use-cases.ts:536-556 | the payloads of a user patch read back as sealed |
| `AuditPayloads.SweptPayloadReadsBack` | src/database/seeds/seed-roles-permissions.ts:174-180 | the sweep's payload reads back as sealed |
| `AuditPayloads.PermissionEditsBreakTheChain` | src/core/auth/application/rbac.use-cases.ts:224-265 | a trail of sweeps verifies; a trail with a permission created or deleted through the use cases does not (short of a collision at that row) |
| `AuditPayloads.OneGrantBreaksTheChain` | src/core/auth/application/rbac.use-cases.ts:351-355 | one permission created on an empty table: the chain does not verify, or the row's two texts collide |
| `AccessTrail.StepDisordersIff` | src/core/auth/application/rbac.use-cases.ts:124-561 | a request leaves audit rows that will not read back exactly when it succeeds and creates or deletes a permission, patches both fields of one, replaces a grid by a different one, patches a role with both limit and flag, or creates a user; all such rows are its company's |
| `AccessTrail.RunDisordersIff` | src/core/auth/application/rbac.use-cases.ts:124-561 | over any run a company's trail gains such rows exactly when one of its requests was of that kind |
| `AccessSeals.SealedEvent` | src/core/auth/application/rbac.use-cases.ts:124-561 | what each role, user and permission row records can be sealed, is not touched by redaction, and reads back exactly when the event is in order |
| `AccessSeals.RunVerifiesIff` | src/core/audit/application/real-audit.service.ts:30-59 | over any run of access requests, their rows recorded in order among any rows of other use cases: the company's chain verifies exactly when none of its requests was of that kind and its other rows read back (collisions aside) |
| `AccessSeals.OneUserBreaksTheChain` | src/core/auth/application/rbac.use-cases.ts:497-527 | one user created on sound tables: the chain does not verify, or the row's two texts collide |
| `AccessControl.CurrentFacts` | src/core/auth/application/rbac.use-cases.ts:212-214 | the current-by-key map leads each key of the loaded grants to a loaded grant with that key |
| `AccessInvariants.PlanFits` | src/core/auth/application/rbac.use-cases.ts:93-561 | whatever any request writes respects the keys and references of the tables at each step |
| `AccessInvariants.RunKeepsInv` | src/database/migrations/1700000800000-CreateRbacAndAudit.ts:13-50 | over every run, grants belong to roles of their company, (role, resource, action) and (company, name) are unique, and each user's role name resolves |
| `AccessLockout.NotNarrowedIsPartialOrder` | src/core/auth/application/rbac.use-cases.ts:72-79 | "not narrowed" is reflexive, transitive and antisymmetric on scope and limit |
| `AccessLockout.RoundingDoesNotNarrow` | src/core/auth/application/rbac.use-cases.ts:255-258 | storing a limit rounded to four decimals never turns a change that does not narrow into one that does |
| `AccessLockout.AdminIsNeverLockedOut` | src/core/auth/application/rbac.use-cases.ts:216-222 | over every run the built-in ADMIN role keeps its name and protection, and each grant that all catalogues declare stays under its id and only widens |
| `AccessReplay.StepReplaysIff` | src/core/auth/application/rbac.use-cases.ts:224-265 | folding a request's Permission audit rows over the grid before gives the grid after, exactly unless the request succeeds and creates a role with a non-empty grant list, deletes a role that has grants, or seeds a role that lacks one of its seeded grants |
| `AccessReplay.SeedPlantsIffMissing` | src/database/seeds/seed-roles-permissions.ts:216-233 | a seed inserts a grant exactly when some seeded role did not hold one of its listed grants beforehand, whatever the other seeds do |
| `AccessReplay.RoleWithAGrantDoesNotReplay` | src/core/auth/application/rbac.use-cases.ts:98-132 | a role created with one grant on empty tables: accepted, and its audit rows do not reproduce the grid |
| `AccessReplay.RunReplays` | src/core/auth/application/rbac.use-cases.ts:330-423 | over any run without those three, the Permission audit rows reproduce the final grid from the first |
| `AccessUsers.RenamesKeepResolution` | src/core/auth/infrastructure/typeorm-role.repository.ts:64-70 | over every run in which a user is not edited, the user resolves to one and the same role id, through renames, and that role is never deleted |
| `AccessUsers.PatchUserMoves` | src/core/auth/application/rbac.use-cases.ts:537-553 | editing a user moves it to the requested role, or nowhere when the company has no such role |
| `AccessReplace.ReplaceIsExact` | src/core/auth/application/rbac.use-cases.ts:191-275 | a rejected batch changes nothing; an accepted one leaves the grid equal to the list, named grants keeping their ids, all else untouched and the version up by one |
| `AccessReplace.ResubmissionIsQuietIffExact` | src/core/auth/application/rbac.use-cases.ts:236-265 | sending the accepted list again writes no audit row exactly when no limit has more than four decimals |
| `AccessReplace.FiveDecimalsAreNeverQuiet` | src/core/auth/application/rbac.use-cases.ts:236-265 | an accepted list with the limit 0.00005 is refused or writes an audit row when it is sent again |
| `AccessUseCases.Tables.Write` | src/core/auth/infrastructure/typeorm-role.repository.ts:37-58 | the repositories' writes, with their audit row: an insert or update by id, the users of a renamed role carried along |
| `AccessUseCases.Tables.CreateRole` | src/core/auth/application/rbac.use-cases.ts:93-135 | the new role and its grants, or the first error in source order with everything rolled back |
| `AccessUseCases.Tables.CheckRolePatch` | src/core/auth/application/rbac.use-cases.ts:144-170 | the guards in source order decide the error or the one change that is planned |
| `AccessUseCases.Tables.PatchRole` | src/core/auth/application/rbac.use-cases.ts:138-182 | on success the supplied fields are set, the version is one up, exactly the users of the old name carry the new one and nothing else changed; otherwise the first error and no change |
| `AccessUseCases.Tables.DeleteRole` | src/core/auth/application/rbac.use-cases.ts:278-299 | on success the role was custom and carried by nobody, and it and its grants are gone and nothing else; otherwise the first error and no change |
| `AccessUseCases.Tables.CheckBatch` | src/core/auth/application/rbac.use-cases.ts:198-222 | the batch is refused exactly for a bad or repeated item, an assigned scope on an unscoped role, or a lost or narrowed catalogue-valid ADMIN grant |
| `AccessUseCases.Tables.RevokeAbsent` | src/core/auth/application/rbac.use-cases.ts:224-234 | one deletion with its audit row for each loaded grant whose key the list does not name, in order, and nothing else |
| `AccessUseCases.Tables.ApplyWanted` | src/core/auth/application/rbac.use-cases.ts:236-266 | one creation per new key and one update per changed grant, each with its audit row, in the order of the list |
| `AccessUseCases.Tables.ReplaceRolePermissions` | src/core/auth/application/rbac.use-cases.ts:191-275 | the three loops and the version bump leave the planned state, or the error and no change |
| `AccessUseCases.Tables.CreatePermission` | src/core/auth/application/rbac.use-cases.ts:330-359 | on success one new grant as asked for, one audit row and nothing else; otherwise the first error in source order and no change |
| `AccessUseCases.Tables.CheckGrantPatch` | src/core/auth/application/rbac.use-cases.ts:361-385 | the guards in source order decide the error or the one change that is planned; a narrowing of a protected ADMIN grant is refused |
| `AccessUseCases.Tables.PatchPermission` | src/core/auth/application/rbac.use-cases.ts:361-400 | on success the supplied fields of that grant are set, its version is one up and nothing else changed; otherwise the first error and no change |
| `AccessUseCases.Tables.DeletePermission` | src/core/auth/application/rbac.use-cases.ts:402-423 | on success exactly that grant is gone, with one audit row; a catalogue-valid ADMIN grant is refused |
| `AccessUseCases.Tables.CreateUser` | src/core/auth/application/rbac.use-cases.ts:497-527 | on success one new user carries the name of the requested role, which the company has, and nothing else changed |
| `AccessUseCases.Tables.PatchUser` | src/core/auth/application/rbac.use-cases.ts:529-561 | on success that user carries the name of the requested role, or the name carried before when the company has no such role, and nothing else changed |
| `AccessUseCases.Tables.SweepOrphanPermissions` | src/database/seeds/seed-roles-permissions.ts:147-192 | exactly the company's grants outside the catalogue are deleted, each with its row; their number is returned |
| `AccessUseCases.Tables.SeedRolesPermissions` | src/database/seeds/seed-roles-permissions.ts:194-234 | each built-in role is created or reset and its missing grants inserted; existing grants stay |
| `AccessEdits.GrantEditsAreExact` | src/core/auth/application/rbac.use-cases.ts:330-423 | a single grant edit touches exactly one grant, sets what was supplied and nothing else, and writes one audit row |
| `AccessEdits.RoleEditIsExact` | src/core/auth/application/rbac.use-cases.ts:138-182 | a role edit sets the supplied fields and bumps the version; exactly the users who carried the old name carry the new one |
| `AccessEdits.RoleDeletionIsExact` | src/core/auth/application/rbac.use-cases.ts:278-299 | a deleted role was custom and carried by nobody; its grants go with it and nothing else changes |
| `AccessEdits.UserEditsAreExact` | src/core/auth/application/rbac.use-cases.ts:497-561 | a created user is new and carries the role's name; a patched one moves to a requested role the company has; no other user, role or grant changes |
| `Lockout.User.RecordFailedLogin` | src/core/auth/domain/user.ts:90-97 | one more failure; from the fifth on the account is locked until fifteen minutes from now |
| `Lockout.User.RecordSuccessfulLogin` | src/core/auth/domain/user.ts:100-107 | counter and lock are cleared and the login time stamped |
| `Lockout.Login` | src/core/auth/application/auth.service.ts:60-93 | a login ends for the first reason that applies - unknown, locked, inactive, wrong password - and only a verified password moves the counters |
| `Lockout.FailureRateBound` | src/core/auth/application/auth.service.ts:60-93 | with a clock that never runs back and no success, any interval of length T sees at most 5 + floor(T / 15 min) failed verifications |
| `Lockout.FailureRateBoundIsTight` | src/core/auth/domain/user.ts:90-97 | the bound is attained for every number of lock periods |
| `Lockout.NothingPassesAnActiveLock` | src/core/auth/domain/user.ts:85-87 | while a lock is active every attempt is rejected unverified and neither counter nor lock moves |
| `CostPolicy.TwentyDigits` | src/core/cost-control/domain/cost-control.policy.ts:34 | the quotient as computed has 20 significant digits and is the nearest such number |
| `CostPolicy.ClassifyIsExact` | src/core/cost-control/domain/cost-control.policy.ts:30-42 | for every actual and every budget the column can hold (and twenty times more) the status from the rounded quotient is the exact one |
| `CostPolicy.StatusNeverImproves` | src/core/cost-control/domain/cost-control.policy.ts:30-42 | more cost never improves the status |
| `CostPolicy.TwentyDigitsRunOut` | src/core/cost-control/domain/cost-control.policy.ts:34 | just past that bound a cost under nine tenths of the budget is classified as nine tenths |
| `CostControl.LedgerWhere` | src/core/cost-control/infrastructure/typeorm-cost-control.read.repo.ts:31-49 | the conjuncts pushed for a scope select exactly the postings in it |
| `CostControl.BudgetsByPair` | src/core/cost-control/infrastructure/typeorm-cost-control.read.repo.ts:76-101 | the map holds the budget of each pair in scope |
| `CostControl.ClassifyPairs` | src/core/cost-control/application/cost-control-query.service.ts:144-167 | one classified row per pair with a cost or a budget, ordered by project and cost centre, whatever the order of the keys |
| `CostControl.ComputeBudgetVsActual` | src/core/cost-control/application/cost-control-query.service.ts:138-168 | the report over the scope's actual and budget maps |
| `CostControl.BudgetVsActual` | src/reports/infrastructure/cost-control.read.adapter.ts:41-71 | the reports module's version over its resolved project list; an empty list is an empty report |
| `CostControl.SameAdmission` | src/reports/application/report-scope.service.ts:26-38 | resolving a project scope fails exactly for the actors and projects the cost-control controller refuses |
| `CostControl.TwinsAgree` | src/reports/infrastructure/cost-control.read.adapter.ts:41-126 | for every ledger, budget table, filter and admitted actor the two implementations return the same rows in the same order |
| `CostControl.AlertsAreExact` | src/core/cost-control/application/cost-control-query.service.ts:117-133 | a pair is in the alert feed exactly when nine tenths or more of a positive budget are used, and over budget exactly when all of it is |
| `BudgetCheck.GroupDraft` | src/core/cost-control/application/budget-check.service.ts:33-43 | the draft amounts per distinct pair, in the order the draft first names them |
| `BudgetCheck.CheckProspective` | src/core/cost-control/application/budget-check.service.ts:30-70 | one advisory per distinct pair: current lifetime actual, draft amount, budget, and the classification of their sum |
| `BudgetCheck.CheckEqualsPostThenRead` | src/core/cost-control/application/budget-check.service.ts:53-68 | every lifetime report covering a pair shows, once exactly the draft's cost lines are posted, the advisory's projected actual, utilisation and status |
| `BudgetCheck.PostedPairHasRow` | src/core/cost-control/application/cost-control-query.service.ts:144-148 | a pair on which the draft puts an amount has a row in those reports |
| `BudgetCheck.LineOrderDoesNotMatter` | src/core/cost-control/application/budget-check.service.ts:33-43 | permuting the draft's lines changes no advisory |
| `BudgetCheck.DraftAmountsSumToDraft` | src/core/cost-control/application/budget-check.service.ts:33-43 | the advisories' draft amounts add up to the draft |
| `Notifications.RecipientsAreTheUnion` | src/core/notifications/application/notification.service.ts:36-45 | everyone some rule resolves to is a recipient, once |
| `Notifications.FanOutCounts` | src/core/notifications/application/notification.service.ts:47-55 | a fan-out adds exactly one row for each recipient that had none with the key |
| `Notifications.NotificationService.InsertIfAbsent` | src/core/notifications/infrastructure/typeorm-notification.repository.ts:27-42 | a row is added exactly when its recipient has none with the key |
| `Notifications.NotificationService.EmitCommand` | src/core/notifications/application/notification.service.ts:32-56 | the count returned is the number of recipients that had no row with the key; an unknown type or blank title or key adds no row |
| `Notifications.NotificationService.MarkOneRead` | src/core/notifications/infrastructure/typeorm-notification.repository.ts:44-52 | an own row answers with its first read time, now if it had none; without an own row of that id the answer is none and no row changes |
| `Notifications.NotificationService.MarkAllRead` | src/core/notifications/infrastructure/typeorm-notification.repository.ts:54-65 | the number returned is the number of own unread rows (of the type) now read |
| `Notifications.NotificationService.RunScan` | src/core/notifications/application/ntf-scheduler.service.ts:33-68 | one emit per due item; raised counts those that told somebody for the first time |
| `Notifications.FeedOverRuns` | src/core/notifications/infrastructure/typeorm-notification.repository.ts:27-73 | over every run there is at most one row per (recipient, event key), rows never disappear, and a read time once set never changes |
| `Notifications.EmittingAgainAddsNothing` | src/core/notifications/application/ntf-scheduler.service.ts:33-68 | emitting a known key again, on any later day, adds no row for earlier recipients |
| `Notifications.EventKeysTellDuesApart` | src/core/notifications/application/ntf-scheduler.service.ts:44-63 | different periods, certificates or due dates never share an event key |
| `Notifications.UnreadIsConserved` | src/core/notifications/infrastructure/typeorm-notification.repository.ts:67-73 | over every run a user's unread count changes by what was created for them less what they newly read |
| `Receivables.IpcBilling` | src/reports/infrastructure/sales.read.adapter.ts:33-133 | one row per posted certificate in scope, in order, and running totals equal to the sums of the rows |
| `Receivables.Outstanding` | src/reports/application/report-query.service.ts:435-453 | one pass leaves each project's total outstanding and the grand total |
| `Receivables.ProjectTotalsMakeGrandTotal` | src/reports/application/report-query.service.ts:440-446 | the project totals add up to the grand total |
| `Receivables.ReversalRaisesOutstanding` | src/database/migrations/1700001600000-CreateReceipt.ts:112-122 | a reversing entry takes exactly what the reversed entry booked out of the amount received; outstanding becomes due less the rest, never below zero |
| `Receivables.ReversedStaysOut` | src/database/migrations/1700001600000-CreateReceipt.ts:119-121 | over every further run of the journal a receipt whose entry was reversed never counts again, even if the reversal is reversed |
| `Calendar.CivilRoundTrip` | src/common/value-objects/date-only.ts:23-26 | a day number converts back to its date exactly for dates that exist |
| `Calendar.AcceptedExactly` | src/common/value-objects/date-only.ts:17-28 | accepted are exactly the well-shaped, existing dates of the years 100 to 9999 |
| `Calendar.YearNinetyNineIsRefused` | src/common/value-objects/date-only.ts:17-28 | 0099-01-01 is well shaped and exists, and is refused as non-existent |
| `Calendar.StringOrderIsDayOrder` | src/common/value-objects/date-only.ts:38-44 | on accepted dates string order is UTC day-number order |
| `Calendar.AgeingFollowsTheCalendar` | src/reports/domain/ageing.ts:18-43 | days overdue is antisymmetric and additive, positive exactly past the due date, and the bucket never moves back as the as-of date moves on |

## Left out

- Posting, numbering, period, inventory valuation, requisition, payroll and payment services: not part of this model.
- Receipt capture and posting, party balances, labour cost, daybook, cost-control profitability: sums of the kinds already shown.
- SQL text and parameter numbering; a query is modelled as filter, group, fold and order.
- TRUNCATE, DDL and savepoints on the journal tables.
- Overflow of `numeric(18,4)` in the casts of report sums, and of limits; NaN limits; sums past decimal.js's 20 digits.
- Row order: balance-sheet rows come by group id here and by group type and name there; unordered SELECTs come by id; uuid and entry-number order is the order of counters.
- PagesMakeTheLedger: reads all pages in one order of equal sort keys, which the database does not promise from one query to the next.
- Rows of one company with equal timestamps, whose order the database leaves open; concurrent calls of `record`.
- RunVerifiesIff: the rows of other modules are any rows that can be sealed, and whether theirs read back is a condition of the theorem; limits as text and users' emails, names and phones are inputs.
- A row's id and address, which no seal covers; payload strings with lone surrogates or NUL; payload fields that are undefined.
- Concurrent logins and concurrent role requests: they run one after another; the catalogue may change between requests.
- A request of the sweep or the seed is one step, although their statements commit one by one.
- User versions and profile columns, project assignments, activation and password resets; the outcome of a user's version check is an input.
- Role, permission and user responses.
- The text of utilisation and money in reports; rows carry the numbers.
- Parsing of status lists and grouping strings: a grouping is a list of tokens.
- Live pushes and event publishing, which are best effort.
- Page numbers are real numbers: NaN and infinities are not modelled.
