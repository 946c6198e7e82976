# Proofs about slopstop's tools and router

A Dafny model of the four components of slopstop that hold real algorithms, with proofs of what they
promise. `dafny verify dfyconfig.toml` checks everything.

- **Launch/run reconciliation** (`tools/metrics/derive.py`): `Stamps`, `Reconcile`, `Derive`, `RunLog`,
  `GapAccounting`, `SpanEnds`, `LaunchNotes`. Launches an orchestrator asked for are paired with the
  subagent runs that happened; rows are carried to tickets; the run's clock and its launch notes are
  accounted for.
- **Config rewriter** (`tools/fleet-sync/sync-project-conf.py`, judged by `audit-project-conf.py`):
  `ConfLines`, `ConfSync`, `ConfFixpoint`, `ConfFrame`, `ConfParse`, `ConfAudit`, `ConfBrought`, `ConfTarget`. A file
  is a sequence of classified lines; one pass is a loop with insertions by index.
- **Clone finder** (`tools/duplication-check.py`): `Renaming`, `Clones`.
- **Metering router** (`router/`): `Ledger`, `Metering`, `Prices`, `Spend`, `Usage`, `Tagging`, `Router`,
  `Interleaving`, `Answers`.
  A five-level nested map, four separately locked reads, and run-to-ticket attribution with state.

`Options` and `Seqs` hold shared plumbing.

Loops of the source are loops here, each proved equal to a specification function; the objects the router
mutates under a lock (`Meter`, `TagMap`) are classes. The theorems are then about the specification: over
every input, every run, every interleaving.

## What the proofs turned up

Where the code and its own documentation disagree, the model follows the code.

- A session with no run in scope is skipped before its launches are looked at
  (`tools/metrics/derive.py:218-219`), although a launch that cannot be placed is said never to be silent
  (`tools/metrics/derive.py:253-254`). `Reconcile.EveryLaunchAccountedIff` gives the exact condition.
- The greedy is optimal for launches in request order and needs that order (`Reconcile.OrderIsNeeded`);
  in any order it places at least half of what is possible.
- A timestamp that does not parse makes `gaps` drop time without a word, although all unbracketed time is
  said to count. `GapAccounting.ClockConservedIff` says exactly when nothing is lost.
- `span_end` stops at an in-window match even when that match predates the span, so a worker cut off past
  the window, which it is documented to find, is missed (`SpanEnds.EarlierRoundHidesWorker`).
- `launch_note_check` answers "interrupted" as soon as one launch is in flight, even when more notes are
  unexplained than launches are in flight or dropped (`LaunchNotes.InterruptedMayHidePhantom`).
- One `sync` pass is not always a fixed point. `ConfFixpoint.OnePassIff` gives the exact condition, which
  besides an archive under `ticket-active/` covers a first `archive_dir` inside a retired table.
- A pass can break a file that parses. The rewriter does not see a pin outside double quotes, so a tier table
  with a model in double quotes and `effort = 'high'` gets a second `effort` (`ConfBrought.BarePinBreaks`). A key
  that is not an identifier stays behind when its retired table is commented out and may meet one of its name
  there (`ConfParse.StrandedKeysClash`), and of a retired value that runs over several lines only the first is
  commented out (`ConfParse.RetiredValueIsCut`). `ConfParse.ParsesIff` gives the exact condition, and
  `ConfBrought.PlainParsesIff` in plainer terms, for files whose retired parts are plain.
- The audit goes on failing, after a pass, for sub-tables of retired tables and retired keys, and for retired
  tables written as inline values: the rewriter knows neither. `ConfAudit.AuditCleanIff` says exactly when one
  pass leaves the audit nothing to say.
- The comment at `tools/fleet-sync/sync-project-conf.py:224-226` says the audit flags the mere presence of
  a retired table; the audit's test (`tools/fleet-sync/audit-project-conf.py:83`) lets an empty one pass.
- `UsageFromSSE` is commented to fail without usage from `message_start` (`router/usage.go:126`); deltas
  alone succeed (`Usage.DeltasAloneSucceedIff`).
- A price table with an entry for the empty model splits that model over two tiers of `by_model`
  (`Router.OneTierIff`).

## Model

| member | source | states |
|---|---|---|
| Stamps.SortBySorts | tools/metrics/derive.py:185 | sorting by `stamp or ""` puts missing stamps first, orders the rest in full and only permutes |
| Stamps.SortByStable | tools/metrics/derive.py:185 | rows with one stamp keep their order |
| Stamps.SortByInTime | tools/metrics/derive.py:185 | in the sorted list, earlier means no stamp or one not later, at whole seconds first |
| Reconcile.ById | tools/metrics/derive.py:220 | the id dictionary finds a run with that id exactly when there is one, and the last of them |
| Reconcile.FirstFree | tools/metrics/derive.py:249-251 | the first run in list order that is unused and starts inside the window, and none only if there is none |
| Reconcile.SearchFree | tools/metrics/derive.py:249-251 | the scan inside `next(...)` finds that run |
| Reconcile.PassExact | tools/metrics/derive.py:221-243 | pass 1 splits the launches into exact claims, lost named launches and launches left for pass 2, and leaves exactly the claimed ids used |
| Reconcile.PassGuess | tools/metrics/derive.py:248-259 | pass 2 claims for each waiting launch the earliest free run of its window, or reports it |
| Reconcile.MatchSession | tools/metrics/derive.py:218-259 | one session: exact ids settle before any guess, and both passes share the used runs; in seconds, a guess starts in the second of its request or at most 120 later, and a launch that names no run is left unmatched only if every such run is claimed |
| Reconcile.EveryLaunchAccountedIff | tools/metrics/derive.py:218-259 | every in-scope launch is claimed or reported unmatched, each exactly once, if and only if the session has a run in scope or no launches |
| Reconcile.SessionClaimsSound | tools/metrics/derive.py:222-259 | no run is claimed twice; a launch that names a run gets that run only; a guess starts 0 to 120 seconds after its request, is for a launch that names none, and never takes a run that any launch names |
| Reconcile.LeftUnmatched | tools/metrics/derive.py:222-257 | why a launch is left unmatched: naming none, every run 0 to 120 seconds after it is claimed; naming a run, that is not there or claimed by a launch that names it too |
| Reconcile.GuessIsEarliest | tools/metrics/derive.py:249-259 | a guess takes the first run of the session, in its order, 0 to 120 seconds after the request and not claimed before |
| Reconcile.ExactIdAlwaysClaimed | tools/metrics/derive.py:222-234 | a named run in scope is always claimed, by the first launch that names it |
| Reconcile.GreedyIsOptimal | tools/metrics/derive.py:244-259 | in request order, no injective assignment of the remaining runs, each 0 to 120 seconds after its request, places more launches than the greedy |
| Reconcile.GreedyIsHalfOptimal | tools/metrics/derive.py:244-259 | in any order, it places at least half as many as any assignment could |
| Reconcile.OrderIsNeeded | tools/metrics/derive.py:248-259 | two launches listed latest first for which the greedy places fewer than an assignment does |
| Reconcile.GreedyNeverCrosses | tools/metrics/derive.py:248-259 | in request order, claims are made in launch order and each takes a later run than the one before |
| Reconcile.Exchange | tools/metrics/derive.py:52-64 | equal-length windows: taking the earliest free run costs any assignment at most one pair |
| Derive.Derive | tools/metrics/derive.py:202-264 | the rows and unmatched launches of all sessions, in session order |
| Derive.MatchScoped | tools/metrics/derive.py:206-217 | both sides of a session are scoped by the same window, the runs sorted by start first: no claim and no unmatched launch lies outside it |
| Derive.MatchedInScope | tools/metrics/derive.py:209-217 | launches and runs of every claim are the session's own and inside the window, and so are the launches reported unmatched |
| Derive.DeriveAccounts | tools/metrics/derive.py:206-264 | over all sessions, a launch is on rows and in the unmatched list together exactly as often as the sessions with a run in the window list it, if it is in the window |
| Derive.RowIsItsSessions | tools/metrics/derive.py:260-263 | a row stands under the session whose launch and run it pairs, both inside the window |
| Derive.SessionGuessesOptimal | tools/metrics/derive.py:206-259 | for a whole session, with its runs given in any order, exact claims plus any assignment of the rest never exceed the claims made |
| Derive.ScopedRunsSorted | tools/metrics/derive.py:206-210 | sorting and scoping leave the runs in start order with distinct ids |
| Derive.CountIsSessions | tools/metrics/derive.py:500-506 | a run id is on as many rows as sessions claim it |
| Derive.GuardFiresIff | tools/metrics/derive.py:505-511 | the duplicate guard refuses an id exactly when more than one session claims it, so nothing inside one session can trip it |
| Derive.AttributionAddsNoDuplicate | tools/metrics/derive.py:500-511 | attribution creates no duplicate: a refused id was claimed by two sessions |
| Derive.Attribute | tools/metrics/derive.py:183-194 | the loop goes over the rows sorted by the start of their runs, keeps exactly those the ticket's key is carried to, marked label or carry-forward, and counts those without a key |
| Derive.ByStartSorts | tools/metrics/derive.py:185 | the rows gone over are the rows given, those without a start first and the rest by start |
| Derive.KeptExactly | tools/metrics/derive.py:185-194 | the rows kept are exactly those with the ticket on their own label, marked so, or carried forward from the nearest keyed label before them, in order |
| Derive.CarriedKeyIsNearest | tools/metrics/derive.py:175-178 | a row belongs to a ticket exactly when the nearest keyed label at or before it carries that ticket |
| Derive.UnattributedIsKeylessPrefix | tools/metrics/derive.py:180-191 | the unattributed rows are exactly the prefix before the first keyed label |
| Derive.AttributionPartitions | tools/metrics/derive.py:183-194 | rows kept over all tickets plus unattributed rows make up all rows |
| RunLog.IsOpenStep | tools/metrics/derive.py:398-402 | whether a span is open is settled by the last span line of its stage |
| RunLog.PairSpans | tools/metrics/derive.py:763-771 | the pairing fold leaves exactly the open spans, each with the stamp of its own last start |
| GapAccounting.Track | tools/metrics/derive.py:394-402 | every open span is tracked, not only waits |
| GapAccounting.SortedGaps | tools/metrics/derive.py:393-413 | each slice is itemised, counted as residue, bracketed or left to its span, by what is open and by the threshold |
| GapAccounting.Gaps | tools/metrics/derive.py:373-413 | the same of a record in any order, of which the lines with a stamp are taken and sorted by it; when all stamps parse, what it reports and the time inside other spans make up its latest stamp minus its earliest |
| GapAccounting.TimelineExactly | tools/metrics/derive.py:391 | what is gone over is the stamped lines, all of them and nothing else, sorted by stamp, those of one stamp in the order of the record |
| GapAccounting.RecordConserved | tools/metrics/derive.py:376-378 | from the record: itemised, residue, bracketed and the time inside other spans make up its latest stamp minus its earliest |
| GapAccounting.SliceGoes | tools/metrics/derive.py:398-413 | where each slice goes: over 120 seconds with nothing open, itemised; shorter, residue; with only `waiting_for_user` open, bracketed; nothing for a stamp that does not parse |
| GapAccounting.TimelineInOrder | tools/metrics/derive.py:391 | sorting by the stamp's text puts the lines in time order, as far as stamps parse |
| GapAccounting.ClassesAddUp | tools/metrics/derive.py:376-378 | the four classes make up the sum of all slices, and itemised plus residue is exactly the time with no span open |
| GapAccounting.ClockConserved | tools/metrics/derive.py:376-378 | with parsed stamps that sum is last minus first |
| GapAccounting.ClockConservedIff | tools/metrics/derive.py:403 | in time order, the whole clock is accounted for if and only if no time passes across a line whose stamp does not parse; it is never overcounted |
| GapAccounting.ItemisedExactly | tools/metrics/derive.py:408-409 | the itemised gaps are exactly the slices over 120 seconds with nothing open, in order |
| GapAccounting.UnparsedStampLosesTime | tools/metrics/derive.py:403 | three lines over 1000 seconds of which none is accounted for |
| SpanEnds.ReportedEndIsEarliest | tools/metrics/derive.py:556-570 | an end reported is that of the earliest matching finished launch not started before the span opened, the others named are the rest of these, from outside the window only when nothing inside matches, and never for a no-launch stage |
| SpanEnds.WorkerIff | tools/metrics/derive.py:588-600 | such a launch has an end, a label that holds the stage's name, and a start in the second the span opened or later; the no-launch stages, by name |
| SpanEnds.AllPredateExactly | tools/metrics/derive.py:601-606 | when all matches predate the span: none starts in its second or later, and their number and the earliest are told |
| SpanEnds.EndReportedIff | tools/metrics/derive.py:583-609 | exactly when an end is reported, exactly when "not found" is, and exactly when the stage launches nothing |
| SpanEnds.ReportSpans | tools/metrics/derive.py:763-774 | every span the record leaves open under a stamp of its own that parses, and no other, gets what is known of its end, judged from the stamp of its own last start |
| SpanEnds.OpenSpanEnd | tools/metrics/derive.py:556-570 | for every span left open, any end reported is that of the earliest matching finished launch not started before the last start of the stage, and does not precede it unless that launch ends before it starts |
| SpanEnds.EarlierRoundHidesWorker | tools/metrics/derive.py:593-607 | an in-window match that predates the span hides the worker found outside the window |
| LaunchNotes.VerdictIff | tools/metrics/derive.py:666-738 | for every true count in rows to rows plus dropped: pass exactly when notes equal all of them, shortfall when below all, phantom when above all with nothing in flight, undecidable when some agree and some do not |
| LaunchNotes.VerdictNumbers | tools/metrics/derive.py:685-734 | the numbers printed are the least missing notes, the exact range of lost tiers, and the claims no count explains |
| LaunchNotes.CountsExactly | tools/metrics/derive.py:663-711 | the counts behind a verdict: the lines with a launch note, those of them that name a tier, and the launches that started after every stamp of the record, none if its last line closes the run |
| LaunchNotes.InterruptedClearsIff | tools/metrics/derive.py:709-722 | "interrupted" explains every extra note if and only if launches in flight and dropped together cover them |
| LaunchNotes.InterruptedMayHidePhantom | tools/metrics/derive.py:712-722 | it is given all the same when they do not, however many launches are attributed or dropped |
| ConfSync.CloseTier | tools/fleet-sync/sync-project-conf.py:159-171 | the two insertions at one remembered index put absent pins right after the table's last model line, version before effort |
| ConfSync.CloseIsInsertion | tools/fleet-sync/sync-project-conf.py:161-170 | inserting by index into the whole output edits only the table being closed |
| ConfSync.RewriteLine | tools/fleet-sync/sync-project-conf.py:185-264 | the rule each line gets, in the order of the source's branches, and the note it leaves |
| ConfSync.AddLine | tools/fleet-sync/sync-project-conf.py:190-215 | the saw-flags and the model index stay true of the table written so far |
| ConfSync.NoteSeen | tools/fleet-sync/sync-project-conf.py:174-183 | the tiers and review table seen are those that have a header |
| ConfSync.AppendTiers | tools/fleet-sync/sync-project-conf.py:269-273 | a whole table for each target tier that has no header, in fleet order |
| ConfSync.PopBlanks | tools/fleet-sync/sync-project-conf.py:281-282 | only trailing blank lines go |
| ConfSync.SyncBody | tools/fleet-sync/sync-project-conf.py:147-266 | the single pass with deferred insertions is the table-by-table rewriting |
| ConfSync.Sync | tools/fleet-sync/sync-project-conf.py:146-285 | the new file and the notes of one pass |
| ConfTarget.TargetValues | tools/fleet-sync/fleet.py:92-107 | after a pass of any file every quoted model, version and effort of a target tier is "opus" or "sonnet", "5" and "high", and every quoted backend of the review table "claude" |
| ConfTarget.AppendedTierSets | tools/fleet-sync/sync-project-conf.py:103-106 | a target tier without a table has one afterwards, with provider, model, version and effort in double quotes and nowhere else, and no provider but "anthropic" |
| ConfTarget.AppendedReviewSets | tools/fleet-sync/sync-project-conf.py:276-278 | and so the review table, with backend and effort, and no effort but "high" |
| ConfTarget.ProviderKept | tools/fleet-sync/sync-project-conf.py:63 | a table the file has keeps its provider |
| ConfTarget.MissingInTurn | tools/fleet-sync/sync-project-conf.py:268-283 | the tables appended, from huge to small and the review table last, line by line with their stamps |
| ConfTarget.PinsWritten | tools/fleet-sync/sync-project-conf.py:95-101 | the lines put in for an absent version and effort, in that order and stamped |
| ConfTarget.AfterLastModel | tools/fleet-sync/sync-project-conf.py:190-198 | they go after the last of a table's models |
| ConfTarget.PinsRewritten | tools/fleet-sync/sync-project-conf.py:114-124 | a pin is set to the target in its place; a comment that contradicts it gives way to one with the old value, other text stays |
| ConfTarget.RetiredCommentedOut | tools/fleet-sync/sync-project-conf.py:217-235 | headers and identifier keys of retired tables, and keys retired by themselves, are in the new file commented out |
| ConfTarget.OthersRepaired | tools/fleet-sync/sync-project-conf.py:237-255 | the backend becomes "claude", and a bare yes or no true or false, with its comment |
| ConfTarget.MoveExactly | tools/fleet-sync/sync-project-conf.py:126-143 | the tracking directory is to move, and where to, exactly when the first archive_dir lies under the first tracking_dir, whatever slashes that ends in |
| ConfTarget.DirectoryMoved | tools/fleet-sync/sync-project-conf.py:257-262 | every top-level tracking_dir of that value then does |
| ConfTarget.NotesExactly | tools/fleet-sync/sync-project-conf.py:159-278 | a note is in the list if and only if the pass did what it says: rewrote such a line, put in such a pin, or appended such a table |
| ConfTarget.HasExactly | tools/fleet-sync/audit-project-conf.py:56-62 | what a reader finds in a table is what some line under its header sets |
| ConfFixpoint.OnePassSettles | tools/fleet-sync/sync-project-conf.py:89-94 | after one pass nothing is left for any rule but, possibly, the nested-archive one: appended tables are complete at once |
| ConfFixpoint.SyncedHeaders | tools/fleet-sync/sync-project-conf.py:216-230 | the headers afterwards are those that were there and not retired, and the required ones |
| ConfFixpoint.NoNotesIffUnchanged | tools/fleet-sync/sync-project-conf.py:81-86 | notes are empty exactly when the file is unchanged: a date alone never rewrites one |
| ConfFixpoint.UnchangedIff | tools/fleet-sync/sync-project-conf.py:146-285 | which files a pass leaves alone, stated without running it |
| ConfFixpoint.DirectoriesAfter | tools/fleet-sync/sync-project-conf.py:126-143 | the tracking and archive directories that the next pass will read |
| ConfFixpoint.TopMatchAfter | tools/fleet-sync/sync-project-conf.py:257-262 | a top-level directory line stays the first of its key, in any form, and changes only where it is to move |
| ConfFixpoint.OnePassIff | tools/fleet-sync/sync-project-conf.py:126-143 | one pass is a fixed point, whatever the dates, if and only if the surviving archive is not nested in the tracking directory it leaves |
| ConfFixpoint.SecondPassOnlyUnderTicketActive | tools/fleet-sync/sync-project-conf.py:140-142 | with no archive_dir in a retired table, a second pass is needed exactly for an archive under `tracking_dir/ticket-active/` |
| ConfFixpoint.KeepsSettling | tools/fleet-sync/sync-project-conf.py:126-143 | each further pass that moves the tracking directory makes it fourteen characters longer, and the archive it contains bounds how many can |
| ConfFixpoint.AlwaysReachesFixedPoint | tools/fleet-sync/sync-project-conf.py:146-285 | from any file, repeated passes on any dates reach a file no pass changes; after the first, no more passes are needed than the gap between the two directories it leaves has room for |
| ConfFrame.SyncKeepsFrame | tools/fleet-sync/sync-project-conf.py:151-285 | every line is rewritten in place and in order, with nothing woven in but absent pins after model lines; blanks are dropped only at the end and only when tables are appended |
| ConfFrame.FinishWoven | tools/fleet-sync/sync-project-conf.py:159-171 | at most one version and then one effort, right after a model line |
| ConfFrame.RewriteAllAt | tools/fleet-sync/sync-project-conf.py:173-264 | each line's rule depends on that line and its section only |
| ConfFrame.UntargetedLinesSurvive | tools/fleet-sync/sync-project-conf.py:185-264 | a line of the file survives unchanged, and unmentioned in the notes, if and only if no rule is about it |
| ConfFrame.CloseAddsAtMostOne | tools/fleet-sync/sync-project-conf.py:159-171 | closing a table adds a version or an effort only if it pins a model and had none, and one of each at most |
| ConfFrame.BodyIsParts | tools/fleet-sync/sync-project-conf.py:173-266 | the pass goes table by table: what each part of the file becomes, in order, is the new file before anything is appended |
| ConfFrame.EachTableGainsAtMostOne | tools/fleet-sync/sync-project-conf.py:151-171 | each target tier table of the file gains at most one version and one effort, only if it pins a model and had none, and no other part gains a line |
| ConfParse.SyncedDefs | tools/fleet-sync/sync-project-conf.py:146-285 | what the file defines after a pass, each name as often as it does: what is left with the retired lines struck out, the pins tier tables gain, and the tables appended |
| ConfParse.SyncedWhole | tools/fleet-sync/sync-project-conf.py:216-235 | no value over several lines is cut by a pass if and only if striking out the retired lines cuts none |
| ConfParse.ParsesIff | tools/fleet-sync/audit-project-conf.py:154-157 | the result of a pass parses if and only if that cuts no value, and what is left, gained and appended does not clash |
| ConfParse.RetiringKeepsForm | tools/fleet-sync/sync-project-conf.py:216-235 | with single-line identifier keys in retired tables, striking out what is retired never keeps a file from parsing |
| ConfParse.StrandedKeysClash | tools/fleet-sync/sync-project-conf.py:231 | a file that parses and does not after a pass: two retired tables with one key that is not an identifier |
| ConfParse.RetiredValueIsCut | tools/fleet-sync/sync-project-conf.py:231-235 | a file that parses and does not after a pass: a retired value of several lines |
| ConfAudit.FinishHas | tools/fleet-sync/sync-project-conf.py:159-266 | which keys each table holds after a pass, in terms of the file before it |
| ConfAudit.TierPassesIff | tools/fleet-sync/audit-project-conf.py:161-167 | after one pass a tier check passes if and only if the tier had no table, or one with a model, where model and version outside double quotes are the target's already and only a model in double quotes makes up for an absent version |
| ConfAudit.GoneTableFailsIff | tools/fleet-sync/audit-project-conf.py:79-84 | after one pass a retired table fails if and only if the file has a sub-table of it, or has it as a value that is not empty |
| ConfAudit.RetiredKeyFailsIff | tools/fleet-sync/audit-project-conf.py:85-88 | after one pass no line sets a retired key in its table, so the check fails if and only if the file has a sub-table named by the key, or a value in the place of the table that it is found in |
| ConfAudit.TopReadAfter | tools/fleet-sync/audit-project-conf.py:183 | the directories the audit reads after one pass, in quotes of either kind |
| ConfAudit.NestingFailsIff | tools/fleet-sync/audit-project-conf.py:193-195 | after one pass the nesting check fails if and only if the tracking directory left still contains the top-level archive |
| ConfAudit.UnsetIff | tools/fleet-sync/audit-project-conf.py:189-192 | a pass neither sets nor unsets a directory |
| ConfAudit.ReviewRaisesIff | tools/fleet-sync/audit-project-conf.py:172-200 | gathering the review items raises after a pass if and only if it does before: `pr_review`, `workflow`, `complexity`, `fleet` or its `agents` is not a table |
| ConfAudit.AuditCleanIff | tools/fleet-sync/audit-project-conf.py:154-195 | after one pass the file parses, and the audit runs to its end with no failure, if and only if the file was repairable: told from the file as it was, in each of the ways above |
| ConfBrought.BroughtOnce | tools/fleet-sync/sync-project-conf.py:146-285 | into a file that parses a pass brings each name once: those of the required tables it has no header for, and the pins of tier tables with a model, but not that pin, in double quotes |
| ConfBrought.OwnsApart | tools/fleet-sync/sync-project-conf.py:268-283 | no two names of the tables the rewriter writes clash, within one table or across two |
| ConfBrought.PlainParsesIff | tools/fleet-sync/audit-project-conf.py:154-157 | a file that parses, with single-line identifier keys alone in what is retired, parses after a pass if and only if no name left in it clashes with one the pass brings |
| ConfBrought.BarePinBreaks | tools/fleet-sync/sync-project-conf.py:159-213 | a tier table with a model in double quotes, and a version or effort outside them, never parses after a pass |
| ConfBrought.SecondEffortClashes | tools/fleet-sync/sync-project-conf.py:159-213 | a file that parses and does not after a pass: an effort at the target already, in single quotes |
| Renaming.Normalize | tools/duplication-check.py:129-143 | each token comes out as under the complete variable map, although the loop has only the map so far |
| Renaming.NormalisedExactly | tools/duplication-check.py:129-143 | keywords and text stay, every other word becomes a number, and two have one number exactly when they are one word |
| Renaming.NumbersInTurn | tools/duplication-check.py:138-141 | numbers start from one, and each is given after the one before it |
| Renaming.NamesCorrespond | tools/duplication-check.py:132-141 | renaming a stream one-to-one changes no number it gives |
| Renaming.SameNormalFormIff | tools/duplication-check.py:129-143 | two streams have one normal form if and only if a one-to-one renaming of non-keyword words, fixing keywords and text, turns one into the other |
| Renaming.AlphaIsEquivalence | tools/duplication-check.py:129-143 | that relation is reflexive, symmetric and transitive |
| Clones.GroupByHash | tools/duplication-check.py:239-241 | the dictionary holds each hash's blocks, in order, under hashes in order of first appearance |
| Clones.AddLines | tools/duplication-check.py:265-267 | adding line by line adds the union of the members' ranges |
| Clones.FindClones | tools/duplication-check.py:238-268 | one clone per hash class of two or more with its scope, and as total the number of distinct places in repeated blocks, overlaps counted once |
| Clones.GroupsExactly | tools/duplication-check.py:245-249 | a group is all blocks of its hash, two or more, intra-file exactly when they are of one file, and groups come in the order their hashes come up |
| Clones.ClassExactly | tools/duplication-check.py:239-241 | its members are in the order of the input |
| Clones.CloneLinesExactly | tools/duplication-check.py:265-268 | a line is counted exactly when it is in a block, ends included, whose hash some block at another place has |
| Clones.GroupsDistinct | tools/duplication-check.py:245-264 | no two groups share a hash |
| Clones.GroupsPartition | tools/duplication-check.py:239-264 | a block is in one group at most, as often as the input lists it |
| Clones.GroupedIff | tools/duplication-check.py:239-247 | two blocks are grouped if and only if they have one hash and it occurs twice |
| Clones.LinesOfClasses | tools/duplication-check.py:265-268 | lines gathered class by class are the lines of all repeated blocks |
| Clones.ClonesIffAlphaEquivalent | tools/duplication-check.py:129-268 | unless the hash collides, two different blocks are reported together if and only if their tokens are alpha-equivalent |
| Ledger.SumGrows | router/meter.go:154-158 | sums over one more name of any axis add up |
| Ledger.SumWhole | router/meter.go:311-313 | going over every key that occurs is going over everything |
| Metering.PutOk | router/meter.go:67-94 | recording in the nested map, creating the levels that are absent, is appending to the log |
| Metering.ChargeOk | router/meter.go:96-124 | the same for the unpriced account |
| Metering.PutEntry | router/meter.go:67-94 | the five levels are written for the entry's own path only |
| Metering.ChargeEntry | router/meter.go:99-124 | unknown models bring requests, tokens and name; empty usage of a known model only a request |
| Metering.Meter.constructor | router/meter.go:51-57 | an empty meter agrees with the empty log |
| Metering.Meter.Record | router/meter.go:63-125 | one call appends one entry to the log the maps agree with |
| Metering.AggregateRunData | router/meter.go:310-323 | the triple loop adds the sum of the run's entries |
| Metering.Meter.TakeSnapshot | router/meter.go:130-187 | totals and unpriced account are those of the selected log, missing prefix and run included |
| Answers.SnapshotInFull | router/meter.go:96-187 | totals are the number, tokens and money of the entries of the prefix and run; unpriced counts those of unknown models and those without usage, with the tokens and names of the former |
| Metering.AddRunByTicket | router/meter.go:208-223 | one run's entries, each added to its ticket's group |
| Metering.Meter.AggregatesByTicket | router/meter.go:191-247 | the selected log grouped by ticket and summed |
| Answers.TicketsInFull | router/meter.go:191-247 | the tickets of those entries, each with the number, tokens and money of its own |
| Metering.AddRunByTier | router/meter.go:268-282 | one run's entries, each added to its tier's group across tickets |
| Metering.Meter.AggregatesByTier | router/meter.go:251-307 | the selected log grouped by tier and summed |
| Answers.TiersInFull | router/meter.go:251-307 | and their tiers |
| Metering.AddRunByCell | router/meter.go:361-379 | one run's entries, each added to its model and tier |
| Metering.ListCells | router/meter.go:382-389 | every group listed once |
| Metering.Meter.ModelDetails | router/meter.go:334-390 | the selected log grouped by model and tier and summed, each group listed once |
| Answers.CellsInFull | router/meter.go:334-390 | and their pairs of model and tier |
| Prices.CostAdds | router/prices.go:225-241 | cost is linear in tokens |
| Prices.CostInFull | router/prices.go:229-241 | a million times the cost is each kind of token at its own rate, and the cost is known exactly for the models of the table |
| Prices.SpendIsCostOfTokens | router/prices.go:229-241 | the money of any selection of one model is the cost of its summed tokens |
| Spend.MapTotalRemove | router/spend.go:124-130 | the total of a breakdown does not depend on map order |
| Spend.BreakdownAddsUp | router/meter.go:189-307 | any one-axis breakdown adds up to the selection's total |
| Spend.ByCellAddsUp | router/meter.go:332-390 | so does the breakdown by model and tier |
| Spend.BreakdownsAgree | router/spend.go:93-143 | taken at one moment, by_tier, by_ticket, by_model and the snapshot agree |
| Spend.UnpricedAtMostTotal | router/meter.go:96-124 | unpriced never exceeds the total, in requests or any kind of token |
| Spend.ActKeepsExact | router/spend.go:93-143 | every lock-protected step keeps each answer exact for the log at its own read |
| Spend.PlayIsExact | router/spend.go:93-143 | so every interleaving does |
| Spend.SumLater | router/meter.go:88-94 | what is recorded later adds to any sum exactly its own sum |
| Spend.SpendChain | router/spend.go:93-143 | under any interleaving with recording, by_tier exceeds the snapshot, by_ticket by_tier and by_model by_ticket by exactly what was recorded between the two reads, in requests, tokens and money |
| Spend.SpendAgreesIff | router/spend.go:93-143 | the four agree in full if and only if the last counts no more requests than the first |
| Spend.SpendNeverDecreases | router/spend.go:93-143 | requests and every kind of token never decrease from one to the next |
| Spend.SortByModel | router/spend.go:169-175 | sorted by model and then tier, with the same entries |
| Spend.SortedListUnique | router/spend.go:169-175 | the order is deterministic: same entries, same list, whatever order the maps were walked in |
| Spend.SpendHandler | router/spend.go:75-187 | the whole answer in terms of the log, by_model with an entry for every group in order, its tokens, its money, and its rates exactly when the table has the model; and the missing-prefix error exactly for an empty prefix |
| Spend.StringLessIff | router/spend.go:169-175 | the order of names: a proper beginning first, else the smaller character where they first differ |
| Answers.ModelEntryPaysItsTokens | router/spend.go:144-167 | in every reachable state a by_model entry shows what its own tokens cost, and nothing without rates |
| Usage.UsageFromSSE | router/usage.go:68-132 | the scanner loop with one line of lookahead and its error returns |
| Usage.ScanPrinted | router/usage.go:72-124 | on a well-formed stream the lookahead never slips: scanning is applying the events |
| Usage.StreamReadsAsFinalUsage | router/usage.go:62-67 | the start usage with its output replaced by the last positive cumulative delta, as the JSON reader gives on that final object |
| Usage.TruncatedStreamFails | router/usage.go:84-87 | a stream cut off after an event line yields nothing |
| Usage.BrokenEventFails | router/usage.go:84-112 | so does an event line not followed by data, or by data that does not decode, wherever it stands |
| Usage.StrayLinePassedOver | router/usage.go:72-80 | any other line between events changes nothing |
| Usage.IdleEventChangesNothing | router/usage.go:103-121 | nor does an event without usage, of another kind, or with no positive output |
| Usage.StartOverwrites | router/usage.go:94-105 | a later message_start with usage replaces what was read before |
| Usage.LastOutputIff | router/usage.go:115-120 | the last delta with a positive output decides it |
| Usage.DeltasAloneSucceedIff | router/usage.go:109-129 | without message_start it succeeds if and only if some delta has a positive output |
| Tagging.ParseTicketIff | router/tags.go:97-107 | accepts exactly a letter, alphanumerics, a dash and digits, with the one prefix it can have, and is never "untagged" by accident |
| Tagging.ParseTicketExactly | router/tags.go:97-107 | the same character by character |
| Tagging.ExtractRunPutsBack | router/tags.go:64-95 | run and path put back together give the request path; a run holds no slash |
| Tagging.ExtractRunExactly | router/tags.go:64-95 | a path names the run between `/r/` and the next slash or the end, and none if it does not begin so or nothing follows |
| Tagging.ParseTags | router/tags.go:35-62 | the header's run wins, the path is stripped regardless |
| Tagging.ResolveTags | router/tags.go:109-126 | header ticket, then the run's mapped ticket, then untagged |
| Tagging.TagMap.constructor | router/tagmap.go:15-19 | an empty map |
| Tagging.TagMap.Set | router/tagmap.go:22-31 | refuses the empty and the untagged run, else writes that run only |
| Tagging.TagMap.Clear | router/tagmap.go:34-38 | removes that run only |
| Tagging.TagMap.Get | router/tagmap.go:41-46 | the run's ticket, or empty and not found |
| Tagging.HandleTagPost | router/tag_handler.go:22-75 | what one post does to the map and answers, accepted exactly when it settles a run |
| Tagging.LastPostWins | router/tag_handler.go:22-75 | after any posts a run has a ticket if and only if the last post that settled it gave that ticket |
| Tagging.PostsKeepMapOk | router/tagmap.go:21-31 | the map never holds the empty or untagged run, and only tickets |
| Router.MeterHandler | router/main.go:34-101 | one entry per request on the normal, read-error and recovered-panic paths |
| Answers.RequestInFull | router/main.go:74-99 | a request without failure is recorded under its model, with the tier of the table, its tokens (those of the JSON body, none without usage or for another type) and their cost |
| Answers.StreamInFull | router/main.go:92-99 | a stream is recorded with its opening usage and the output of its last positive delta |
| Answers.FailureInFull | router/main.go:41-64 | any failure leaves the mark of a failure |
| Answers.TagsInFull | router/main.go:74-80 | run and ticket of the entry: header, path, last post, or untagged |
| Router.Serve | router/main.go:34-101 | any sequence of tag posts and requests, with the log and the map it leaves |
| Interleaving.TakeKeepsOk | router/main.go:41-99 | between a request's ticket lookup and its record others may act: every locked step keeps that a request records at most once, and what it looked up |
| Interleaving.RunIsOk | router/main.go:41-99 | so every interleaving of tag posts, lookups and records does |
| Interleaving.QuietSpendIsSequential | router/meter.go:63-390 | once every request has recorded, every query answers as if requests had been served one at a time in lookup order, each recorded exactly once |
| Interleaving.SpendNeverOverstated | router/meter.go:63-390 | until then no query overstates requests or tokens, total or unpriced |
| Interleaving.MoneyNeverOverstated | router/prices.go:229-241 | nor money, when no rate of the price table is below zero |
| Interleaving.OrderDoesNotMatter | router/meter.go:130-390 | two logs that differ in order only answer every query alike |
| Ledger.Remainder | router/meter.go:88-94 | sums depend on what was recorded, not on when: a log that holds another one sums to that one and the rest |
| Router.EachRequestRecordedOnce | router/main.go:41-99 | each request is recorded exactly once, at its own place, under the tags in force when it came |
| Router.EveryEntryAttributed | router/main.go:74-99 | every entry is untagged or has a ticket with its own prefix, priced by the table, and a ticket from the map is the last one posted for that very run |
| Router.TaggedRunIsMeteredUnderTicket | router/tags.go:109-126 | a run posted a ticket is metered under it when no header says otherwise and nothing fails |
| Router.SpendAuditable | router/main.go:74-99 | in every reachable state each by_model entry's money is the cost of its summed tokens |
| Router.OneTierIff | router/main.go:81-99 | each model appears under one tier, in every run and selection, if and only if the table gives the empty model no tier of its own |
| Router.TwoTiersForEmptyModel | router/main.go:41-58 | otherwise a request without a model and a failed one put it under two |

## Left out

- Files, git, subprocesses, HTTP, the reverse proxy, gzip and flushing: captured lines, rows and bodies are inputs.
- JSON and TOML decoding and the regular expressions: decoded values, classified lines, lower-cased labels, the first ticket key of a label and the token stream are inputs.
- Classifying config lines: a header with inner spaces or a quoted name, a quoted or dotted key such as `autonomous.x`, a value in triple quotes or with an escape, an inline table that goes on below, a line inside a long value that looks like a header or a key, and a line that is not TOML for another reason than bare yes or no have no place in `Line`. Trailing space stripped from a retired line and the quoting of an old value in a comment are not spelled out.
- ConfParse.ParsesIff: asks what a line by line reading can tell: values that go on, repeated definitions, keys that are tables too, and bare yes and no. It does not cover files with arrays of tables, which the rewriter does not see as headers.
- ConfAudit.AuditCleanIff: does not cover files with arrays of tables either; nor an array given to `stage_tiers`, which counts as a failure; nor what the review items say (`tools/fleet-sync/audit-project-conf.py:171-200`), which are no failures: only whether gathering them raises.
- SpanEnds.ReportSpans: does not report on a span whose own stamp does not parse, which the source compares as text.
- SHA and MD5: a block's hash is an arbitrary string, and `Faithful` says it does not collide.
- Renaming.Normalize: stops at the token stream; printing a token as `$V7` and collapsing white space (`tools/duplication-check.py:144-147`), which can only merge more blocks, are not modelled.
- Clones.FindClones: leaves out node type, size, preview and the suggested helper, which are copied or displayed.
- Integer overflow and rounding: counters are unbounded and money is real, so addition is associative.
- The line-length limit of the stream scanner in `router/usage.go`.
- Locks: every locked call is one atomic step.
- Router.Serve: takes requests one at a time; Interleaving.QuietSpendIsSequential covers the others.
- Router.MeterHandler: always has a tag map; without one (`router/main.go:78-80`) it is Tagging.ParseTags alone. `Record` itself does not panic.
- Metering.Meter.Record: updates aggregates as values in the map, where the source goes through pointers that nothing outside the lock keeps.
- Metering.Meter.ModelDetails: keys the groups collected by the pair of model and tier instead of by two nested maps.
- Spend.SpendHandler: display strings, provenance of the price file and HTML; no record falls between its reads, which Spend.SpendChain covers.
- Spend.SpendNeverDecreases: token counts are non-negative, as responses report them; Spend.SpendChain needs no such thing.
- GapAccounting.ClockConserved: asks for parsed stamps; GapAccounting.ClockConservedIff covers the others for lines in time order.
- Reconcile.GreedyIsOptimal: asks for request order; Reconcile.GreedyIsHalfOptimal covers every other order.
- Loading and validating prices, provider authentication and routing dispatch (`router/prices.go:107-223`): each claim is settled by reading one branch.
- `GET /tag`, tier sizing checks, window computation, transcript parsing and the writers of derived files: they would add easy members only.
- `setup-project.py`, `worktree-inventory.py`, the hook recorder, installers and markdown checkers.
