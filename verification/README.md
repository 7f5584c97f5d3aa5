# Verified models of a session-memory toolkit

This project models, in Dafny, the parts of the repository whose correctness is not visible from any single
function, and proves what they promise over all inputs and all runs.

| files | what they model |
|---|---|
| `SaveQueue.dfy`, `SaveQueueInvariants.dfy`, `SaveQueueOrigins.dfy`, `SaveQueueResults.dfy`, `SaveQueueTheorems.dfy`, `SaveQueueOrder.dfy`, `SaveQueueReports.dfy` | the memstore server's save queue: submitters, one processor, transactions, the origin map and queue files, and a restart at any moment, as a transition system whose steps are the critical sections |
| `SaveQueueProxy.dfy`, `SaveQueueReuse.dfy` | the server object itself with its fields updated in place; each method performs the steps of that transition system; and runs in which a job id is drawn twice |
| `WaitForSave.dfy` | the client's polling loop for one save |
| `Correlation.dfy`, `LineFraming.dfy` | the JSON-RPC client: newline framing and which promise a line settles |
| `Observations.dfy` | the append-only observation table with supersede and retract edges |
| `Utf16.dfy`, `TextBudget.dfy` | JavaScript strings as 16-bit units, their UTF-8 bytes, and cutting and joining under a byte budget |
| `Excerpt.dfy`, `ExcerptSearch.dfy`, `ExcerptPaging.dfy`, `ExcerptCoverage.dfy`, `ExcerptCursor.dfy` | excerpts of a transcript: the search for matches, windows around them, merging, the paging cursor, and what a caller gets who follows it from any offset |
| `ExcerptExactness.dfy`, `ExcerptNecessity.dfy`, `ExcerptSteady.dfy`, `ExcerptLosses.dfy` | when paging through an excerpt loses no window, and two bodies on which it does |
| `Diverse.dfy`, `Recency.dfy`, `Topics.dfy` | choosing diverse search results, the capped recency list, topic routing with persistence counters |
| `EventStream.dfy`, `EventStreamMeaning.dfy` | the incremental server-sent-event parser against a reading of the whole text |
| `LeaseSlots.dfy` | the prepared and handoff slots shared by two runtimes |
| `LeaseClient.dfy`, `LeaseSafety.dfy`, `LeaseTimers.dfy`, `LeaseTheorems.dfy`, `LeaseOutcomes.dfy` | the session lease client as a timed asynchronous state machine: every stretch between two awaits is a step |
| `SessionOwnership.dfy` | the same client with its closure variables as the fields of a class |

Where the source changes state, a class or a loop changes it the same way and is proved against a specification
function; the theorems are about runs of those functions.

## Assumptions

- A crash of the memstore server is a crash of the process; committed transactions and renamed files survive it.
- Writing or removing the queue file succeeds and is atomic (the source uses a plain `os.WriteFile` and logs errors).
- The DELETE whose error the save transaction ignores does not fail (services/memstore/main.go:1461).
- A reported error of the origin map write may leave the old file or the new one.
- The database's `AUTOINCREMENT` counter never goes down; a failed transaction has no effect.
- Lease client: timers fire on time; the server never moves an expiry backwards; `session_start` runs once in a
  runtime; nothing runs after `session_shutdown`; the resume event names its target file; lease tokens are new.
  Finalisers and continuations of a promise run as one step with its settlement or as a step of their own.
- Case folding and the classes of characters are parameters: for each query token all the places where its surface form
  stands, overlapping ones too, the extents of the words, and the places in them from where the rest of the word has five
  letters or more and begins with the token's first four. The searches themselves are modelled: from a start, moved off
  the middle of a character, the leftmost matches that do not overlap; a word search that starts inside a word sees its
  rest. A match is as long as the token, and two words have a character between them.

## What turned out not to hold

- **A failed promotion is not checked for staleness.** Every other late reply of a replaced lease is ignored, but the
  two `catch` blocks around `promoteIfMaterialized` (config/extensions/00-session-ownership.ts:541-545 and 674-677)
  start a recovery for a lease that may no longer be current. `LateReply` says exactly when a late reply changes
  something. Three promises break, each with a run that breaks it and the exact condition under which it holds:
  - Recovery is for the current lease. `ProtectedSessionBlocked` blocks a session with a good lease;
    `RecoversCurrentExactlyWhenTimely`: it holds if and only if no promotion fails after its lease was replaced.
  - Work is gated. In `BlockedSessionLetsToolsThrough` an unprotected session becomes blocked without a lease, and the
    next tool call is let through; `GatedExactlyWhenCalm`: no continuation is ungated if and only if no promotion
    fails while the session is unprotected.
  - A reservation is never given up. `ReservationGivenUp` ends unprotected with a live reservation;
    `ReservationsSparedExactlyWhenSound`: no continuation gives one up if and only if no promotion fails, with no
    recovery under way, for a lease already promoted while a reservation is current.
- **A grant may have run out on arrival.** Then the expiry timer is armed for now, which is later than the expiry.
  `ProtectedPastExpiry` is such a state; `ProtectedIsHeld` says that this instant is the only time a protected session
  is past its expiry.
- **Paging through a keyword excerpt may lose text.** What a page lists depends on where its search starts, and it looks
  at the first hundred only.
  - With a hundred and one matches: the next offset can lie behind places that only the windows of later matches hold.
    `HundredFirstMatchIsCut` is a body with a hundred and one occurrences of its token whose last window is cut.
  - With a hundred: a later page's search may start inside a run of overlapping occurrences (`RunOfLettersLosesText`, "aa"
    in two hundred letters) or inside a word whose rest begins with the root (`WordEnteredLosesText`, "decisions" among
    "undecided" and "decide").
  - `ShowsAllExactlyWhenNothingIsLeft` gives the condition: a search for one token shows every window of every match if
    and only if on every page, wherever it passes over a match, that match's window ends with the one before it, or the
    next window joins it, or the next page begins by its end.
  - Searches are steady, listing what is left and nothing else, in every body if no proper prefix of the token is a suffix
    (`UnborderedIsAllSteady`; `BorderedOverlaps` says no other token is safe in every body), and for roots exactly if none
    starts inside such a word (`RootIsSteady`). In a steady run nothing is lost up to a hundred matches
    (`KeywordPagesLoseNothing`), and with more exactly if each page that lists more than a hundred hands out an offset not
    behind the end of the hundredth window, or ends with nothing behind it (`ShowsAllExactlyWhenItKeepsUp`). For searches
    for several tokens these conditions are enough.
- **A job id can be reused** when the clock is set back across a restart and the id of a loaded job is drawn again; then
  its status goes back, as in `StatusGoesBack`, and a client that waits for a failed save is told it is saved once the
  other save with its id is, as in `WaitEndsOnAnotherSave`. `StatusStep` says this is the only way, `OnlyLoadedIdsReused`
  which ids are concerned; a report is always about the latest save of its id (`ReportsAreOfTheNewest`).
- **The event stream parser is not that of section 9.2.6 of the WHATWG HTML Standard.** It dispatches the block that the
  end of the stream leaves open (`OpenBlockIsDispatched`; `FlushAddsNothingExactlyWithoutData` says when there is nothing
  to dispatch), forgets the id with every event (`IdIsForgotten`), trims
  values on both sides, knows only line feeds (with an optional carriage return before them), and turns comments into
  events. The proofs are about the code.
- Lines 235-237 of config/extensions/stateful-memory/recall-utils.js can never apply: when the loop ends without a next
  offset it has included every range (`Emit`).
- `loadSaveQueue` resets the status and error of a loaded job, not its result entry id; the model keeps that.
- A save whose transaction or map write fails is dropped from the queue after it is marked failed; "accepted saves
  survive" means until they are done or failed.

## Model

| member | source | states |
|---|---|---|
| SaveQueueTheorems.AcceptedSavesSurvive | services/memstore/main.go:1289-1294 | over every interleaving of submits, processor steps, faults and restarts, an acknowledged save is in the queue file with its id, body, title, tags, origin and depth unless some process marked it done or failed; whenever the lock is free the memory queue equals the file up to status fields |
| SaveQueueTheorems.FirstInFirstOut | services/memstore/main.go:1395-1419 | what has left the queue followed by what is in it is always what was there followed by what was submitted, across restarts: jobs are processed in submit order and the head never changes under the processor |
| SaveQueueTheorems.InternalRunsEnd | services/memstore/main.go:1387-1420 | every schedule of pokes and processor steps, whatever fails, ends within a bound computed from the state |
| SaveQueueTheorems.NothingLeftWaiting | services/memstore/main.go:1296-1300 | no wakeup is lost: when no such step is possible and the processor was not stopped, queue and queue file are empty and every accepted save is settled |
| SaveQueueInvariants.QueueStep | services/memstore/main.go:1387-1420 | every step keeps the queue invariant: shape, file image, serial order, durability, statuses, index, numbering, wakeups |
| SaveQueueInvariants.PopHead | services/memstore/main.go:1406-1409 | at the pop the job just processed is still the head, so exactly it is removed |
| SaveQueueTheorems.RowsPerOrigin | services/memstore/main.go:1442-1497 | rows written for one origin never exceed one plus the restarts whose origin map file did not name the live row, also with failed inserts, commits and map writes |
| SaveQueueTheorems.CrashFreeRunsKeepOneRow | services/memstore/main.go:1442-1497 | without a restart an origin never has a second row |
| SaveQueueResults.StraysStep | services/memstore/main.go:1460-1494 | a step adds a row that the process does not count as the origin's entry only if it is a restart that missed the live row |
| SaveQueueTheorems.ReplayReplacesItself | services/memstore/main.go:1486-1497 | a job replayed after its map write but before its queue write deletes exactly the row it wrote and inserts the same row again, which holds its fields as submitted |
| SaveQueueTheorems.DoneHead | services/memstore/main.go:1486-1497 | a job whose map write succeeded but which is still at the head of the queue is in the situation of the previous row |
| SaveQueueTheorems.SavesDeleteOnlyTheirOwn | services/memstore/main.go:1443-1462 | in every reachable state the only row a save's transaction removes or changes is the one the origin map names, and that row is of the same origin and was written by a save |
| SaveQueueOrder.LastWriteWins | services/memstore/main.go:1460-1497 | in every reachable state, across restarts, the row a save's transaction removes or changes was committed by the same save or an earlier one of its origin and holds field by field what that save submitted, and no row a save wrote is of a later save than the one committing |
| SaveQueueOrder.RowsAreAsSubmitted | services/memstore/main.go:1460-1484 | in every reachable state, across restarts, what was committed and every row a save wrote has field by field the body, title, tags and depth that the client submitted with the save of its serial, and its origin, which is absent exactly when the submitted one is empty |
| SaveQueueOrder.InOrderStep | services/memstore/main.go:1395-1497 | every step keeps: all that was committed is of saves accepted no later than any still queued, and holds field by field what was submitted |
| SaveQueueOrigins.OriginStep | services/memstore/main.go:1484-1488 | every step keeps: an id in the memory or disk origin map names no row or a row that a save wrote for that origin, since ids are never reused |
| SaveQueueOrder.DoneIsDurable | services/memstore/main.go:1353-1372 | if a status request reports done, the latest save accepted with that id was committed with the fields it was submitted with, under the reported entry, and the origin map file was rewritten to it |
| SaveQueueOrder.ReportsAreOfTheNewest | services/memstore/main.go:1289-1294 | in every reachable state, across restarts, a report is about the latest of the saves accepted with its id |
| SaveQueueReports.FirstFailureIsReported | services/memstore/main.go:1447-1495 | from the step that decides a save on, while the process lives, its report is that it is being added and then the verdict: failed with the message of the first failure (and the entry if there was a commit), or done with the committed entry |
| SaveQueueReports.OnlyFailuresCarryMessages | services/memstore/main.go:1353-1372 | in every reachable state a report has a message only if the save failed, and no entry while it is being added |
| SaveQueueReports.PoppedTextIsGone | services/memstore/main.go:1406-1412 | of a save that left the queue memory keeps neither body, title nor tags |
| SaveQueueReports.QueueFileIsWritten | services/memstore/main.go:1573-1583 | whenever the queue changes the file is the jobs in it as they stand |
| SaveQueueReports.RestartReloads | services/memstore/main.go:1559-1571 | a restart finds the jobs of the file in their order, queued and without a message, with their ids, contents and entries |
| SaveQueueReports.OriginIsRecorded | services/memstore/main.go:1484-1488 | the process counts the new entry as the origin's in every case, the file exactly if it was replaced, and no other origin changes |
| SaveQueueReports.OpenProcessesDrain | services/memstore/main.go:1387-1420 | the processor stops only once the process closes, so one that is not closing and can do no more has an empty queue and every accepted save settled |
| SaveQueueTheorems.StatusStep | services/memstore/main.go:1422-1428 | inside one process a known job never becomes unknown, and its status moves queued, adding, done or failed unless, and only unless, a submit reuses its id after it left queued |
| SaveQueueReuse.StatusGoesBack | services/memstore/main.go:1274-1292 | a run from the start, with a restart and the clock set back, after which a job being added is reported queued |
| SaveQueueReuse.WaitEndsOnAnotherSave | services/memstore/main.go:1274-1292 | a run from the start in which an id is drawn twice, the first save fails and is never committed, and a client that waits for it is told it is saved |
| SaveQueueTheorems.OnlyLoadedIdsReused | services/memstore/main.go:1274 | only the id of a job loaded from the queue file can be drawn again |
| SaveQueueProxy.SaveJob.constructor | services/memstore/main.go:1279-1287 | a submitted job is queued with the given fields |
| SaveQueueProxy.SaveJob.Reload | services/memstore/main.go:1566-1570 | a job read back is queued without an error and otherwise as it was written |
| SaveQueueProxy.DataDir.WriteOriginMap | services/memstore/main.go:1512-1557 | the file holds the new map, or after a reported error the old or the new one |
| SaveQueueProxy.DataDir.ReplaceRow | services/memstore/main.go:1460-1484 | the previous row goes, the new row gets the next number |
| SaveQueueProxy.Proxy.constructor | services/memstore/main.go:1607-1616 | a new process starts from the origin map on disk |
| SaveQueueProxy.Proxy.LoadSaveQueue | services/memstore/main.go:1559-1571 | after it memory is that of a booted process |
| SaveQueueProxy.Proxy.PersistSaveQueue | services/memstore/main.go:1573-1583 | the file is the image of the queue, job by job |
| SaveQueueProxy.Proxy.DrawNumber | services/memstore/main.go:1274 | draws the next number of the counter |
| SaveQueueProxy.Proxy.AppendJob | services/memstore/main.go:1289-1294 | one critical section: queue, index and file take the new job, which is the step Submit |
| SaveQueueProxy.Proxy.Poke | services/memstore/main.go:1296-1300 | fills the one-slot channel |
| SaveQueueProxy.Proxy.SubmitSave | services/memstore/main.go:1262-1313 | performs draw, submit and poke in this order and answers with the id and the depth |
| SaveQueueProxy.Proxy.ReadSaveStatus | services/memstore/main.go:1353-1372 | the report of the job with that id, or unknown |
| SaveQueueProxy.Proxy.TakeNotify | services/memstore/main.go:1388-1393 | empties the channel and goes on to the emptiness check |
| SaveQueueProxy.Proxy.FetchHead | services/memstore/main.go:1396-1402 | the head, or nothing when the queue is empty |
| SaveQueueProxy.Proxy.BeginJob | services/memstore/main.go:1431-1434 | the job becomes the current one |
| SaveQueueProxy.Proxy.PreviousEntry | services/memstore/main.go:1443-1445 | what the origin map names for the job's origin |
| SaveQueueProxy.Proxy.UpdateSaveJob | services/memstore/main.go:1422-1428 | status, error and entry id of exactly this job change, for queue and index alike |
| SaveQueueProxy.Proxy.MarkAdding | services/memstore/main.go:1447 | the step Mark |
| SaveQueueProxy.Proxy.ReplaceEntry | services/memstore/main.go:1450-1482 | delete and insert in one transaction, with no effect if any part fails |
| SaveQueueProxy.Proxy.RecordEntry | services/memstore/main.go:1484-1488 | the memory map changes in every case, the file as far as the write got |
| SaveQueueProxy.Proxy.SettleJob | services/memstore/main.go:1489-1495 | the job gets its verdict, message and entry id |
| SaveQueueProxy.Proxy.EndJob | services/memstore/main.go:1435-1440 | no job is current any more |
| SaveQueueProxy.Proxy.PopJob | services/memstore/main.go:1406-1417 | the head leaves the queue, its body, title and tags are wiped, the shorter queue goes to disk |
| SaveQueueProxy.Proxy.StoreJob | services/memstore/main.go:1450-1493 | the verdict is that of the first failure, or done with the new entry id |
| SaveQueueProxy.Proxy.ProcessOneJob | services/memstore/main.go:1430-1497 | performs exactly begin, look-up, mark, transaction, map write if committed, settle, release |
| SaveQueueProxy.Proxy.ProcessHead | services/memstore/main.go:1395-1418 | one turn of the inner loop removes the head or finds the queue empty |
| SaveQueueProxy.Proxy.DrainQueue | services/memstore/main.go:1387-1420 | one wake empties the queue as a run of the transition system of bounded length |
| WaitForSave.WaitForSaveJob | config/extensions/stateful-memory/memstore-client.js:26-63 | returns on the first decisive answer, every earlier one being pending; with timers on time it settles by the deadline, and does settle once the deadline is within reach of the polls |
| WaitForSave.SavedIsDurable | config/extensions/stateful-memory/memstore-client.js:26-63 | if the wait succeeds on what the server answered at successive moments of one history, with any submits, faults and restarts between them, the latest save accepted with the id by the last moment had been committed with the fields it was submitted with and the origin map rewritten to the returned entry, and that stays on record to the end of the history; it is the save waited for if the id was accepted once |
| LineFraming.FramingUnique | config/extensions/stateful-memory/memstore-client.js:378-381 | the lines and the rest are the only way to read a text as newline-terminated lines and an unfinished one |
| LineFraming.FramingStep | config/extensions/stateful-memory/memstore-client.js:378-381 | keeping only the unfinished line between two pieces gives the lines of the whole |
| Correlation.MemstoreClient.SendRequest | config/extensions/stateful-memory/memstore-client.js:350-372 | takes the next id and makes it pending; without a socket the promise is rejected at once while the entry stays until its timeout |
| Correlation.MemstoreClient.OnData | config/extensions/stateful-memory/memstore-client.js:378-407 | handles exactly the lines completed by the chunk, in order, and keeps the rest |
| Correlation.MemstoreClient.OnTimeout | config/extensions/stateful-memory/memstore-client.js:353-356 | the request is no longer pending and its promise rejected |
| Correlation.MemstoreClient.OnError | config/extensions/stateful-memory/memstore-client.js:413-420 | every pending promise is rejected once |
| Correlation.MemstoreClient.Close | config/extensions/stateful-memory/memstore-client.js:295-307 | every pending promise is rejected once and the buffer emptied |
| Correlation.CuttingDoesNotMatter | config/extensions/stateful-memory/memstore-client.js:378-407 | however a stream is cut into chunks, the client ends as if it had come in one |
| Correlation.FreshSettledOnce | config/extensions/stateful-memory/memstore-client.js:350-420 | in every run a request is pending and unsettled, or settled by exactly one call; one that could not be sent is rejected first and gets at most one further call, which changes nothing |
| Correlation.FirstReplyDecides | config/extensions/stateful-memory/memstore-client.js:392-405 | incoming lines settle a pending request by the first line that carries its id, and no other request |
| Correlation.FirstAnswerDecides | config/extensions/stateful-memory/memstore-client.js:378-407 | the first line that is not blank and carries the id of a pending request rejects it with the error if the message has one, and else resolves it with the result |
| Correlation.OthersAreLeftAlone | config/extensions/stateful-memory/memstore-client.js:378-407 | requests that no line carries, or that are not pending, are left alone |
| Correlation.OtherHandlers | config/extensions/stateful-memory/memstore-client.js:295-420 | what a request, a timeout, a socket error and a close say to each promise: rejected at once without a socket, timed out, the error or closed for all pending, and nothing to any other |
| Observations.ReachableChains | services/memstore/main.go:716-820 | in every reachable store relations form chains of one entity, two observations with one end lie on one line, a chain has at most one current member, and current count is observations minus relations |
| Observations.ApplyInv | services/memstore/main.go:716-820 | every request keeps: edges go to larger ids within one entity, at most one edge leaves and one enters an observation |
| Observations.TipIsEnd | services/memstore/main.go:269-286 | following superseded_by terminates at an observation that was not superseded |
| Observations.ChainsAreLines | services/memstore/main.go:269-286 | of two observations with the same end one leads to the other |
| Observations.OneCurrentPerChain | services/memstore/main.go:928-1017 | two current observations with the same end are the same |
| Observations.TipCurrentOrRetracted | services/memstore/main.go:269-286 | the end of a chain is current exactly unless it was retracted |
| Observations.CurrentCount | services/memstore/main.go:269-286 | current observations are as many as observations minus relations |
| Observations.HistoryKept | services/memstore/main.go:1019-1043 | no request edits an observation or removes an edge; only an observation without relations can be deleted; new ids are larger than any before |
| Observations.SupersedeMovesTheEnd | services/memstore/main.go:776-806 | a correction takes the old observation out of the current ones and puts the new one in |
| Observations.RetractClosesTheEnd | services/memstore/main.go:1045-1090 | a retraction answered with success takes exactly that observation, which was current, out of the current ones, and adds one edge from it that leads nowhere and keeps the reason |
| Observations.DeleteRemovesTheRow | services/memstore/main.go:1019-1043 | a deletion answered with success removes exactly that row and no edge, and tells whether there was one |
| Observations.AddStoresTheDraft | services/memstore/main.go:776-806 | an added observation has the body and tags of the draft under a new id and the type and name given, or those of the observation it supersedes, from which one edge leads to it; nothing else changes |
| Observations.AddRefusals | services/memstore/main.go:716-806 | exactly which drafts are refused and with which error, in the order of the checks, and that a refusal changes nothing |
| Observations.OtherRefusals | services/memstore/main.go:1019-1078 | exactly which retractions and deletions are refused and with which error |
| Observations.ClosedStaysClosed | services/memstore/main.go:1066-1078 | a closed observation cannot be superseded or retracted again |
| Observations.ObservationDb.AddObservation | services/memstore/main.go:716-820 | the checks in the source's order, inherited type and name, one row and one edge, or an error and no change |
| Observations.ObservationDb.RetractObservation | services/memstore/main.go:1045-1090 | one retracting edge, or an error and no change |
| Observations.ObservationDb.DeleteObservation | services/memstore/main.go:1019-1043 | the row goes unless a relation names it |
| Utf16.EncodeConcat | config/extensions/stateful-memory/recall-utils.js:74-84 | UTF-8 bytes of a text cut between characters are those of the parts |
| Utf16.ConcatBound | config/extensions/stateful-memory/recall-utils.js:254-277 | joining texts never costs more bytes than the parts, also when two lone surrogates meet |
| Utf16.PrefixMonotone | config/extensions/stateful-memory/recall-utils.js:74-84 | a longer prefix costs more bytes, which is what makes the binary search right |
| Utf16.DecodeEncode | config/extensions/ssh.ts:126-136 | decoding the bytes of a string gives it back with lone surrogates replaced |
| Utf16.RoundTrip | config/extensions/ssh.ts:126-136 | a string without lone surrogates comes back unchanged |
| Utf16.RepairedMeaning | config/extensions/ssh.ts:126-136 | unit by unit, lone surrogates become U+FFFD and nothing else changes |
| Utf16.WidthsOfCharacters | config/extensions/stateful-memory/recall-utils.js:74-84 | one to four bytes, by the ranges of section 3 of RFC 3629 |
| Utf16.StandardExamples | config/extensions/stateful-memory/recall-utils.js:74-84 | the bytes of the examples of section 7 of RFC 3629 and of a lone surrogate |
| TextBudget.AvoidSplitSurrogate | config/extensions/stateful-memory/recall-utils.js:62-72 | the cut is inside the text, splits no pair, and moves left by at most one |
| TextBudget.Utf8PrefixWithinBytes | config/extensions/stateful-memory/recall-utils.js:74-84 | the longest prefix of at most n UTF-8 bytes that splits no surrogate pair, for every string |
| TextBudget.LongestPrefixUnique | config/extensions/stateful-memory/recall-utils.js:74-84 | there is only one such prefix |
| TextBudget.BackOffIsLongestPrefix | config/extensions/ssh.ts:131-135 | backing off continuation bytes stops at the bytes of exactly that prefix |
| TextBudget.TruncateToBytes | config/extensions/ssh.ts:126-136 | truncates exactly when too long, to that prefix, with lone surrogates replaced |
| TextBudget.JoinWithinBudget | config/extensions/stateful-memory/recall-utils.js:254-277 | never more bytes than the budget: as many whole sections as fit, then the marked longest beginning of the next |
| TextBudget.NonEmptyMeaning | config/extensions/stateful-memory/recall-utils.js:254-277 | what is joined are exactly the sections that are not empty, in their order |
| TextBudget.JoinMeaning | config/extensions/stateful-memory/recall-utils.js:254-277 | joined text is the first section and, before each further one, the separator; its cost is the bytes of all these |
| TextBudget.MarkerReads | config/extensions/stateful-memory/recall-utils.js:268 | what the mark of a truncated section reads |
| Excerpt.FindTokenPositions | config/extensions/stateful-memory/recall-utils.js:90-112 | the first leftmost matches of the surface form from the start on that do not overlap, or those of the root when there are none and the token has five letters |
| Excerpt.FindWords | config/extensions/stateful-memory/recall-utils.js:99-111 | the first words of the root from the start on, the one the start lies in from there |
| ExcerptSearch.SearchReaches | config/extensions/stateful-memory/recall-utils.js:92-97 | a search lists every place from its start on or a listed match before it overlaps that place |
| ExcerptSearch.SearchOfSpaced | config/extensions/stateful-memory/recall-utils.js:92-97 | where no two places overlap, a search from any start lists exactly those that are left |
| ExcerptSearch.UnborderedNeverOverlaps | config/extensions/stateful-memory/recall-utils.js:92-97 | so it is in every body for a word of which no proper prefix is also a suffix |
| ExcerptSearch.BorderedOverlaps | config/extensions/stateful-memory/recall-utils.js:92-97 | any other word overlaps itself in some body |
| ExcerptSearch.WordSearchLater | config/extensions/stateful-memory/recall-utils.js:99-111 | a word search from a later start lists the words that are left, preceded by the start itself exactly if it lies inside a word whose rest counts |
| Excerpt.CollectWindows | config/extensions/stateful-memory/recall-utils.js:179-199 | windows of the first hundred matches of each token that reach past the offset, and the tokens with more |
| Excerpt.MergeRanges | config/extensions/stateful-memory/recall-utils.js:123-136 | the loop computes the merging of the sorted ranges |
| Excerpt.MergedMeaning | config/extensions/stateful-memory/recall-utils.js:123-136 | merged ranges are sorted and more than the gap apart, hold every given range, start and end where given ranges do, and add nothing that is further than the gap behind a given end |
| ExcerptPaging.EmitMeaning | config/extensions/stateful-memory/recall-utils.js:212-233 | the emission includes everything, or stops at a character boundary inside one range with all ranges before it complete; its text is within the limit, and the first page always advances |
| ExcerptPaging.Emit | config/extensions/stateful-memory/recall-utils.js:212-237 | the loop computes that emission; without a next offset every range is included |
| ExcerptPaging.EmissionShows | config/extensions/stateful-memory/recall-utils.js:224-228 | at every stop of the loop the output is the slices of the body at the included ranges, each under the label of the range it begins |
| ExcerptPaging.KeywordPageShows | config/extensions/stateful-memory/recall-utils.js:246-251 | a page shows exactly its sourceRanges, in order, labelled and divided, or one plain slice when nothing matches |
| ExcerptPaging.KeywordAdvances | config/extensions/stateful-memory/recall-utils.js:179-251 | a non-null next offset lies strictly between the offset and the end of the text, on a character boundary, so paging terminates; a page has at most the clamped number of characters |
| ExcerptPaging.FindPending | config/extensions/stateful-memory/recall-utils.js:240-243 | the first later match of any capped token |
| ExcerptPaging.LastEnd | config/extensions/stateful-memory/recall-utils.js:239 | the end of what is covered |
| ExcerptPaging.BuildKeywordExcerpt | config/extensions/stateful-memory/recall-utils.js:179-251 | the method computes the page of the specification |
| ExcerptPaging.BuildRelevantExcerpt | config/extensions/stateful-memory/recall-utils.js:143-252 | the page for every combination of options; truncated exactly when there is a next offset |
| ExcerptCursor.PagesBeginAtTheOffset | config/extensions/stateful-memory/recall-utils.js:150-166 | for an offset in the body that splits no pair, a plain or full page is the slice that begins exactly there, and the ranges of a keyword page begin there or behind it |
| ExcerptCursor.OtherOffsetsAreMoved | config/extensions/stateful-memory/recall-utils.js:150-153 | a negative offset means 0, one behind the body its end, one inside a pair the place before it |
| ExcerptCursor.PlainPagesAreFilled | config/extensions/stateful-memory/recall-utils.js:168-177 | without tokens a page is as long as asked for, a character less where it would split a pair, and hands out its end unless that is the end of the body |
| ExcerptCursor.KeywordPagesAreFilled | config/extensions/stateful-memory/recall-utils.js:212-233 | a keyword page that goes on although no token was cut off at a hundred matches leaves at most 61 of its characters unused |
| ExcerptCursor.WithoutMatchesPlain | config/extensions/stateful-memory/recall-utils.js:201-210 | where no match has a window behind the offset, the page is that without a query |
| ExcerptCursor.PlainPagesAreTheBody | config/extensions/stateful-memory/recall-utils.js:168-177 | without tokens, a caller who starts at any offset and follows the next offsets gets the rest of the body in adjoining pieces cut between characters, each within the limit |
| ExcerptCursor.FullPagesAreTheBody | config/extensions/stateful-memory/recall-utils.js:156-166 | in full mode too, whatever the query, each page being the longest of at most 45 KiB of UTF-8 |
| ExcerptCursor.KeywordRuns | config/extensions/stateful-memory/recall-utils.js:143-252 | the runs of keyword pages that the rows below speak about are the runs of a caller of the public function |
| ExcerptCursor.LabelReads | config/extensions/stateful-memory/recall-utils.js:218-219 | the label of a range is its two ends in decimal after the words of the source, and pieces are divided as there |
| ExcerptCursor.WindowsAround | config/extensions/stateful-memory/recall-utils.js:186-196 | a window reaches nine hundred characters before a match and thirteen hundred behind it, within the body and the offset |
| ExcerptCursor.NearWindowsJoin | config/extensions/stateful-memory/recall-utils.js:123-136 | two windows are joined exactly if at most 240 characters lie between them |
| ExcerptCursor.PendingMeaning | config/extensions/stateful-memory/recall-utils.js:238-244 | the next page after one that cut off tokens begins at the earliest match that is left of any of them |
| ExcerptNecessity.ShowsAllExactlyWhenNothingIsLeft | config/extensions/stateful-memory/recall-utils.js:179-251 | for any number of matches: a search for one token of at most 101 characters, followed from offset 0, shows every window of every match if and only if no page loses one: where a page passes over a match, that match's window ends with the one before it, or the next window joins it, or the next page begins by its end |
| ExcerptExactness.LeavingNothingShowsAll | config/extensions/stateful-memory/recall-utils.js:179-251 | in a search for any tokens, from any offset, a run whose pages lose no window of the token shows them all |
| ExcerptNecessity.CrowdedPageNext | config/extensions/stateful-memory/recall-utils.js:235-244 | a page that lists more than a hundred matches of the only token ends by the hundredth window; its next offset lies there when it was cut for room, else it is the first match behind |
| ExcerptSteady.UnborderedIsAllSteady | config/extensions/stateful-memory/recall-utils.js:92-97 | a token that occurs and of which no proper prefix is a suffix is searched steadily, in every body and from every offset: each page lists the matches that are left and no others |
| ExcerptSteady.RootIsSteady | config/extensions/stateful-memory/recall-utils.js:99-111 | as long as words of the root are left, a search for them is steady if and only if it does not start inside a word whose rest begins with the root |
| ExcerptSteady.RootIsAllSteady | config/extensions/stateful-memory/recall-utils.js:99-111 | so a run is, if none of its searches starts inside such a word |
| ExcerptSteady.KeywordPagesCover | config/extensions/stateful-memory/recall-utils.js:179-251 | from any offset of a steady run, each of the first hundred matches left there of a token of at most 101 characters has its whole window, as far as it is behind the offset, shown by the pages that follow, whatever the other tokens do |
| ExcerptSteady.KeywordPagesLoseNothing | config/extensions/stateful-memory/recall-utils.js:179-251 | in a steady run from offset 0, with at most a hundred matches, every window of the token is shown, whatever the other tokens |
| ExcerptSteady.ShowsAllExactlyWhenItKeepsUp | config/extensions/stateful-memory/recall-utils.js:238-244 | for any number of matches, in a steady run from offset 0 for one token of at most 101 characters: every window of every match is shown if and only if every page that lists more than a hundred either hands out a next offset not behind the end of the hundredth window, or has none and the last window ends there |
| ExcerptSteady.KeepsUpMeans | config/extensions/stateful-memory/recall-utils.js:235-244 | such a page keeps up exactly if it was cut for room, or a match starts right at the end of the hundredth window, or that window ends with the text |
| ExcerptSteady.KeepingUpShowsAll | config/extensions/stateful-memory/recall-utils.js:238-244 | in a steady search for any tokens, from any offset: if every page keeps up with a token in this sense, all its windows behind the offset are shown |
| ExcerptSteady.FewKeepUp | config/extensions/stateful-memory/recall-utils.js:181-199 | with at most a hundred matches every page of a steady run keeps up |
| ExcerptLosses.RunOfLettersLosesText | config/extensions/stateful-memory/recall-utils.js:92-97 | a body in which "aa" has exactly a hundred matches, and a place of the last window that is on no page of 1180 characters |
| ExcerptLosses.WordEnteredLosesText | config/extensions/stateful-memory/recall-utils.js:99-111 | a body with a hundred words of the root of "decisions", and seven places of the last window that are on no page of 1001 characters |
| ExcerptLosses.ProseIsReal | config/extensions/stateful-memory/recall-utils.js:90-112 | that body and token are those of "decisions": the word stands nowhere, the words are exactly the runs of letters, and the places given as roots are exactly those in a word from where five letters or more are left that begin with "deci" |
| ExcerptCoverage.HundredFirstMatchIsCut | config/extensions/stateful-memory/recall-utils.js:186-198 | a body and a token whose occurrences in it are exactly a hundred and one, where the end of the last window is on no page |
| ExcerptCoverage.KeywordPagesGoForward | config/extensions/stateful-memory/recall-utils.js:179-251 | the ranges of successive pages ascend without overlap: no character is shown twice |
| Diverse.SelectDiverseSessionEntries | config/extensions/stateful-memory/recall-utils.js:26-53 | a subsequence of the ranking of length min(limit, n); at least min(trunks, limit - 1) trunk entries; at most one delegate when trunks reach limit - 1; nothing better of its kind is skipped; the deferred loop adds nothing |
| Diverse.DelegatesAre | config/extensions/stateful-memory/recall-utils.js:12-19 | a delegate is an entry of depth three or more, tagged delegate or fork, or with a directory named forks in its origin: the word stands between separators or the ends |
| Diverse.SegmentsMeaning | config/extensions/stateful-memory/recall-utils.js:12-19 | a word without separators is a part of the origin exactly if it stands there between separators or the ends |
| Recency.RecencyIndex.UpdateRecencyIndex | config/extensions/stateful-memory/memory-store.js:256-270 | the file holds the updated list |
| Recency.CappingLosesNothing | config/extensions/stateful-memory/memory-store.js:256-270 | from an empty index, after any updates, the list is the first fifty entries of the last update of every session, newest first |
| Topics.ScoreTopic | config/extensions/stateful-memory/topic-router.js:91-115 | overlap of query and trigger words plus half the priority, zero without overlap |
| Topics.ScoreMeaning | config/extensions/stateful-memory/topic-router.js:91-115 | a score is the number of query words that a trigger mentions plus half the priority, and zero without any |
| Topics.ScoreGrows | config/extensions/stateful-memory/topic-router.js:91-115 | more shared words or a higher priority never score less, and more if either is strict |
| Topics.PersistenceMeaning | config/extensions/stateful-memory/topic-router.js:130-134 | a persisted topic's claim is the threshold at a full counter and falls with the square of the counter's share; others have none |
| Topics.CandidateMeaning | config/extensions/stateful-memory/topic-router.js:123-142 | a candidate is in scope and reaches the threshold or is active, and its score is the better of the fresh and the persisted one |
| Topics.CollectCandidates | config/extensions/stateful-memory/topic-router.js:117-143 | the candidates in the order of the index |
| Topics.SortMeaning | config/extensions/stateful-memory/topic-router.js:145-148 | the ranking is a permutation, best score first, ties in the order of the index |
| Topics.SelectsTheBest | config/extensions/stateful-memory/topic-router.js:117-149 | as many candidates as fit, and none left out scores more than one that is in |
| Topics.Router.UpdateActiveTopics | config/extensions/stateful-memory/extension.js:294-316 | the map set and deleted in place while looping is the counted one |
| Topics.Router.SelectTopicsForPrompt | config/extensions/stateful-memory/extension.js:285-316 | selects against the active topics and updates them, or does neither |
| Topics.ActiveMeansRecent | config/extensions/stateful-memory/extension.js:294-316 | after any turns that were not blank a topic is active exactly when it was selected in one of the last K, and its counter is K minus the turns since it was selected last |
| Topics.AfterIsAfterPicks | config/extensions/stateful-memory/extension.js:285-316 | the counters of a run of turns are those of its selections |
| Topics.AtMostAllRecent | config/extensions/stateful-memory/extension.js:294-316 | never more than K times maxResults topics are active |
| Topics.ActiveIsSelected | config/extensions/stateful-memory/topic-router.js:137-149 | while all candidates fit, an active topic in scope is selected |
| Topics.NothingIsDropped | config/extensions/stateful-memory/extension.js:285-316 | while candidates never exceed maxResults, an active topic that stays in scope is never dropped |
| EventStream.ConsumeStream | services/forum/packages/server/src/echsClient.ts:872-932 | for every cutting into chunks the events are those of reading the whole text; after an abort those of the text read so far, without the final flush |
| EventStream.OpenBlockIsDispatched | services/forum/packages/server/src/echsClient.ts:900-903 | a text whose only block no empty line ends, and the event it gives |
| EventStream.FlushAddsNothingExactlyWithoutData | services/forum/packages/server/src/echsClient.ts:900-903 | the end of the stream adds nothing if and only if no line behind the last empty one is a data line, and otherwise one event |
| EventStream.IdIsForgotten | services/forum/packages/server/src/echsClient.ts:884-895 | an event has the id of its own block or none, whatever came before |
| EventStream.BlocksMeaning | services/forum/packages/server/src/echsClient.ts:908-914 | blocks are the lines between empty ones |
| EventStreamMeaning.LineEndsDoNotMatter | services/forum/packages/server/src/echsClient.ts:906-908 | whether lines are ended by a newline or by carriage return and newline, any of them, makes no difference to any event |
| EventStreamMeaning.TrimMeaning | services/forum/packages/server/src/echsClient.ts:918-930 | a value is the text without the white space at both ends: nothing else is gone and none is left there |
| EventStreamMeaning.SpacesAreStandard | services/forum/packages/server/src/echsClient.ts:918-930 | white space is that of sections 12.2 and 12.3 of the ECMAScript Language Specification |
| EventStreamMeaning.LastValueMeaning | services/forum/packages/server/src/echsClient.ts:918-926 | of several lines of a field in a block the last one counts |
| EventStreamMeaning.AllValuesMeaning | services/forum/packages/server/src/echsClient.ts:927-930 | every data line of a block counts, in their order |
| EventStreamMeaning.JoinedLines | services/forum/packages/server/src/echsClient.ts:889 | data lines are joined by single newlines, so that they can be told apart again |
| EventStreamMeaning.BlockMeaning | services/forum/packages/server/src/echsClient.ts:884-930 | a block gives one keepalive for each comment and then, exactly if it has data, one event with the name or message, the id and the data |
| LeaseSlots.SharedState.PrepareLease | config/extensions/00-session-ownership.ts:153-168 | both slots are emptied and released before the new lease is placed with its timer |
| LeaseSlots.SharedState.OnReleaseTimer | config/extensions/00-session-ownership.ts:160-164 | the timer takes its own lease out of whichever slot holds it |
| LeaseSlots.SharedState.OnSessionStart | config/extensions/00-session-ownership.ts:594-611 | adopts handoff before prepared when either names the session |
| LeaseSlots.SharedState.OnSessionShutdown | config/extensions/00-session-ownership.ts:710-724 | moves the resume destination over or releases an orphan |
| LeaseSlots.SharedState.OnOrphanReleased | config/extensions/00-session-ownership.ts:725-728 | releases a stale handoff |
| LeaseSlots.SlotsAreExclusive | config/extensions/00-session-ownership.ts:137-168 | the slots are never both full, so a session only ever adopts a lease with its own id |
| LeaseSlots.LeavesOnce | config/extensions/00-session-ownership.ts:710-729 | every lease placed is in one slot or left exactly once, adopted or released, never both, never overwritten |
| LeaseSlots.PreparedIsAdopted | config/extensions/00-session-ownership.ts:594-611 | a lease that the gate of a resume claimed is adopted by the next start of its session, through the handover to its file and whatever else happens, unless its timer fires, another lease is prepared or a runtime shuts down for another reason |
| LeaseSlots.ResumeHandsOver | config/extensions/00-session-ownership.ts:713-722 | the handover of a resume to the prepared lease's file keeps it with its timer, and nothing is released |
| LeaseSlots.OtherShutdownsRelease | config/extensions/00-session-ownership.ts:713-729 | any other shutdown gives both slots back |
| LeaseSlots.PreparedUntil | config/extensions/00-session-ownership.ts:159-167 | the timer is due after thirty seconds or at the expiry, whichever is first, and at once if that has passed |
| LeaseSlots.TimersAndChoices | config/extensions/00-session-ownership.ts:160-164 | a timer that fires gives its lease back; the choice to go on without a lease is taken once, by the session it was made for |
| LeaseSlots.SlotsEmptyInTime | config/extensions/00-session-ownership.ts:159-167 | no lease stays in a slot past thirty seconds or past its expiry |
| LeaseTheorems.ProtectedIsHeld | config/extensions/00-session-ownership.ts:496-513 | while protected and not shut down there is a current lease that was not given back, its timer is armed, no time is past it, and the expiry is only past at the instant a grant came that had run out |
| LeaseTheorems.ExpiryIsDue | config/extensions/00-session-ownership.ts:496-505 | the timer never fires while the lease's grant lasts, unless a heartbeat is just asking for the promotion of that lease |
| LeaseTimers.NextTimers | config/extensions/00-session-ownership.ts:536-550 | every step keeps: the timer is armed for the latest grant, or a heartbeat that recorded a later one is asking for the promotion and has not been aborted |
| LeaseSafety.NextInv | config/extensions/00-session-ownership.ts:437-571 | every step keeps the invariant of leases, timers, states, tasks and decisions |
| LeaseSafety.ExpiryInv | config/extensions/00-session-ownership.ts:499-503 | when the timer fires the lease is still current, and the session is blocked at once |
| LeaseTheorems.RecoveryBlocks | config/extensions/00-session-ownership.ts:437-476 | while a recovery is under way nothing is protected and no timer runs |
| LeaseTheorems.LateReply | config/extensions/00-session-ownership.ts:536-571 | a reply for a lease replaced or blocked meanwhile changes neither lease, timers nor state, exactly unless it is a failed promotion with no recovery under way (or the waiting handler starts its own recovery) |
| LeaseTheorems.FailureBlocks | config/extensions/00-session-ownership.ts:437-456 | a promotion that fails with no recovery under way starts one for its own lease, whichever is current |
| LeaseTheorems.LateFailureBlocks | config/extensions/00-session-ownership.ts:541-545 | if its lease was replaced, the session is blocked for the sake of a lease it no longer has |
| LeaseTheorems.ProtectedPastExpiry | config/extensions/00-session-ownership.ts:626-630 | a reachable protected state that is past its expiry: the gate returned a grant that had run out |
| LeaseTheorems.LateFailureExposes | config/extensions/00-session-ownership.ts:674-677 | if the session was unprotected, the next tool call passes a blocked state |
| LeaseTheorems.RecoversCurrentExactlyWhenTimely | config/extensions/00-session-ownership.ts:437-476 | in every state of a run recovery is for the current lease, if and only if no promotion fails after its lease was replaced |
| LeaseTheorems.GatedExactlyWhenCalm | config/extensions/00-session-ownership.ts:661-708 | no continuation of a run without another such failure lets tool_call, user_bash or input through, once there was a lease, in another state than protected or unprotected, if and only if no promotion failed while the session was unprotected |
| LeaseTheorems.WorkIsGated | config/extensions/00-session-ownership.ts:661-708 | in every run in which no promotion fails while unprotected, all that was let through once there was a lease was let through protected or unprotected |
| LeaseTheorems.ReservationsSparedExactlyWhenSound | config/extensions/00-session-ownership.ts:444-467 | no continuation of a run without another such failure makes the session unprotected while its current lease is a reservation, if and only if no promotion failed, with no recovery under way, for a lease already promoted while a reservation was current |
| LeaseTheorems.ReservationIsNeverGivenUp | config/extensions/00-session-ownership.ts:444-467 | in every run without such a failure a lease that is still a reservation never ends in unprotected |
| LeaseTheorems.ReservationGivenUp | config/extensions/00-session-ownership.ts:463-466 | a run that ends unprotected with a reservation that was not given back |
| LeaseTheorems.ProtectedSessionBlocked | config/extensions/00-session-ownership.ts:541-545 | a run in which a late failure blocks a session with a good lease |
| LeaseTheorems.BlockedSessionLetsToolsThrough | config/extensions/00-session-ownership.ts:688-696 | a run in which a tool call passes a blocked session |
| LeaseOutcomes.HeartbeatAnswers | config/extensions/00-session-ownership.ts:527-566 | in every reachable state, for the current lease: a lost one is blocked and recovered at once, a failed request does so exactly when the grant has run out and else changes nothing, a grant is recorded and its timer rearmed, or for a reservation the session file is looked at |
| LeaseOutcomes.OneHeartbeatAtATime | config/extensions/00-session-ownership.ts:515-526 | a tick sends one request for the current lease unless one is on its way |
| LeaseOutcomes.ExpiryRecovers | config/extensions/00-session-ownership.ts:499-504 | the expiry timer blocks the session and recovers its current lease |
| LeaseOutcomes.FileAnswers | config/extensions/00-session-ownership.ts:478-487 | while the file of a reservation is missing it stands, when it has the id the server is asked to promote it, when it has another or cannot be read the lease is recovered |
| LeaseOutcomes.PromotionAnswers | config/extensions/00-session-ownership.ts:488-493 | a promotion makes the lease a granted one with the new expiry and its timer, and lets its handler through; a failed one recovers the lease |
| LeaseOutcomes.LateAnswersDecide | config/extensions/00-session-ownership.ts:489-489 | answers for a replaced lease leave the session alone; a late promotion holds its handler back |
| LeaseOutcomes.RecoveryReads | config/extensions/00-session-ownership.ts:445-455 | the gate of a recovery asks for a reservation while there is no file and else for a promotion; with another id the recovery ends |
| LeaseOutcomes.RecoveryAnswers | config/extensions/00-session-ownership.ts:456-476 | a claim protects the session by a new lease, a reservation exactly if the gate asked for one; going on without gives the lease back first; a cancelled gate leaves the session blocked; and who waited goes on |
| LeaseOutcomes.ReleaseEndsUnprotected | config/extensions/00-session-ownership.ts:463-467 | then the session is unprotected, without lease and timers |
| LeaseOutcomes.SessionBegins | config/extensions/00-session-ownership.ts:594-616 | an adopted lease protects at once, a session chosen to go on without is unprotected, any other looks at its file |
| LeaseOutcomes.StartAnswers | config/extensions/00-session-ownership.ts:613-640 | without a file the session is a launcher; with one it stays blocked until the gate claims a lease or waives it |
| LeaseOutcomes.LauncherAnswers | config/extensions/00-session-ownership.ts:642-659 | the launcher's claim is a reservation and lets the waiting handlers go on; a cancelled gate stops them |
| LeaseOutcomes.ShutdownGivesBack | config/extensions/00-session-ownership.ts:573-579 | a shutdown gives the current lease back, stops the timers and aborts the request |
| LeaseOutcomes.EventsAreGated | config/extensions/00-session-ownership.ts:661-708 | tool calls, commands and prompts pass under a granted lease or knowingly without, wait for the recovery when blocked with a lease, for the gate in a launcher (not tool calls), and for the file of a reservation (not prompts) |
| LeaseOutcomes.BackgroundEventsDecideNothing | config/extensions/00-session-ownership.ts:681-686 | the other events only look at a reservation's file |
| LeaseOutcomes.RecheckDecides | config/extensions/00-session-ownership.ts:695-696 | what waited for a recovery passes exactly if the session is not blocked any more |
| LeaseOutcomes.FailedBoundaryDecides | config/extensions/00-session-ownership.ts:674-678 | after a failed promotion a handler passes exactly if the recovery brought a granted lease |
| LeaseOutcomes.LauncherGateDecides | config/extensions/00-session-ownership.ts:661-708 | without a claim what waited for the launcher is held back; with one a prompt passes and a command looks at the file first |
| LeaseOutcomes.BeatEndsFreesTheNext | config/extensions/00-session-ownership.ts:563-566 | the end of a heartbeat lets the next one be sent and clears its own controller only |
| SessionOwnership.Extension.StopHeartbeat | config/extensions/00-session-ownership.ts:419-427 | both timers cleared, the registered controller aborted |
| SessionOwnership.Extension.SetUnprotected | config/extensions/00-session-ownership.ts:429-435 | no lease, no timers, unprotected |
| SessionOwnership.Extension.RecoverOwnership | config/extensions/00-session-ownership.ts:437-456 | joins a running recovery or blocks and starts one in the mode the lease calls for |
| SessionOwnership.Extension.ScheduleExpiry | config/extensions/00-session-ownership.ts:496-505 | the timer is armed for the lease's expiry, or for now |
| SessionOwnership.Extension.ExpiryCallback | config/extensions/00-session-ownership.ts:499-503 | the step of the expiry timer |
| SessionOwnership.Extension.StartHeartbeat | config/extensions/00-session-ownership.ts:507-571 | the new lease is current and protected with its timers |
| SessionOwnership.Extension.Heartbeat | config/extensions/00-session-ownership.ts:515-526 | a request is sent unless one runs or the lease is not current and protected |
| SessionOwnership.Extension.HeartbeatReplied | config/extensions/00-session-ownership.ts:527-562 | the step of a heartbeat reply |
| SessionOwnership.Extension.HeartbeatConfirmed | config/extensions/00-session-ownership.ts:547-550 | rearms the timer unless the reply is stale |
| SessionOwnership.Extension.HeartbeatFinally | config/extensions/00-session-ownership.ts:563-566 | clears the shared flag in every case, the controller only if it is its own |
| SessionOwnership.Extension.PromotionHeaderRead | config/extensions/00-session-ownership.ts:480-488 | a missing file settles, another id or an error throws, the same id asks the server |
| SessionOwnership.Extension.PromotionReplied | config/extensions/00-session-ownership.ts:488-493 | a success for the current protected lease confirms it and rearms the timer |
| SessionOwnership.Extension.PromotionThrew | config/extensions/00-session-ownership.ts:674-677 | recovery starts without asking whether the lease is current |
| SessionOwnership.Extension.PromoteAtPersistedBoundary | config/extensions/00-session-ownership.ts:669-679 | only a protected reservation is promoted |
| SessionOwnership.Extension.EnsureLauncherOwnership | config/extensions/00-session-ownership.ts:642-659 | in the launcher state the handler waits for one shared gate |
| SessionOwnership.Extension.OnEvent | config/extensions/00-session-ownership.ts:661-708 | the first stretch of each handler |
| SessionOwnership.Extension.LetThroughOrRecover | config/extensions/00-session-ownership.ts:693-695 | lets through unless blocked with a lease to recover |
| SessionOwnership.Extension.RecoveryHeaderRead | config/extensions/00-session-ownership.ts:446-456 | the recovery's mode |
| SessionOwnership.Extension.RecoveryGateAnswered | config/extensions/00-session-ownership.ts:457-468 | a claimed lease is started, a given-up one released first, a cancel ends the recovery |
| SessionOwnership.Extension.RecoveryLeaseReleased | config/extensions/00-session-ownership.ts:463-466 | then the session is unprotected |
| SessionOwnership.Extension.LauncherGateAnswered | config/extensions/00-session-ownership.ts:646-657 | a reservation is started, and the waiting handlers learn whether there is one |
| SessionOwnership.Extension.SessionStart | config/extensions/00-session-ownership.ts:594-640 | the three ways a session begins |
| SessionOwnership.Extension.SessionShutdown | config/extensions/00-session-ownership.ts:573-579 | the current lease is given back and the timers stop |
| SessionOwnership.Extension.Dispatch | config/extensions/00-session-ownership.ts:406-730 | whatever happens next changes the fields as one step of the lease client and keeps the invariant of the object |
| SessionOwnership.Extension.ProtectedFields | config/extensions/00-session-ownership.ts:408-417 | the invariant in terms of the fields: while protected the current lease was not given back, both timers run for it, no time is past the deadline, and once promoted the deadline is that of its latest grant |

## Left out

- Observations.ReachableChains: ordering, limits and text search of list and search requests, and created_at, are not modelled.
- ExcerptNecessity.ShowsAllExactlyWhenNothingIsLeft: tokens of more than 101 characters; with several tokens the condition is sufficient only (ExcerptExactness.LeavingNothingShowsAll), since the pages or windows of another token may happen to show what is skipped.
- ExcerptSteady.KeywordPagesCover: only the first hundred matches, and only runs whose searches are steady; for the others ExcerptNecessity.ShowsAllExactlyWhenNothingIsLeft says what is shown.
- ExcerptSteady.KeywordPagesLoseNothing: only runs whose searches are steady; ExcerptLosses has two that are not.
- ExcerptSteady.KeepingUpShowsAll: with several tokens the condition is sufficient only.
- ExcerptPaging.BuildRelevantExcerpt: offsets and page sizes that are not whole numbers, at which the source slices.
- LeaseTheorems.WorkIsGated: only for runs in which no promotion fails while unprotected; LeaseTheorems.GatedExactlyWhenCalm says the others are not gated.
- LeaseTheorems.ReservationIsNeverGivenUp: only for runs that meet the condition of LeaseTheorems.ReservationsSparedExactlyWhenSound, which says the others are not spared.
- SaveQueueProxy.DataDir.WriteOriginMap: the temporary file, the rename and the two syncs are one outcome, which may leave the old or the new file after an error.
- SaveQueueProxy.Proxy.DrainQueue: one wake with nothing in between; submits, pokes and shutdown between its critical sections are steps of the transition system, whose theorems cover them.
- Topics.ActiveMeansRecent: a persistence count below 1, for which the source divides by a zero counter.
- Correlation.FreshSettledOnce: a line holding the JSON value null, on which the source throws, and requests that survive a reconnect.
- EventStream.ConsumeStream: byte decoding, JSON parsing of the data text, and a read that throws.
- Excerpt.FindTokenPositions: the regular expressions themselves: where a form stands under case folding, and which characters make up a word, are given.
- Diverse.SelectDiverseSessionEntries: entries whose depth or tags have other types.
- SessionOwnership.Extension.Dispatch: lease objects are indices into a table rather than references, and several promise callbacks are steps of their own.
- TextBudget.JoinWithinBudget: budgets that are not whole numbers.
- Sockets, HTTP, SQLite internals, JSON encoding, file permissions and full-text ranking; the table of saves is a map, a file a value, a transaction a step that may fail.
- The memstore query functions preprocessQuery and tokenize, tokenizeExcerptQuery and truncateCharactersSafe: single expressions.
- The agent daemon that grants leases is not part of this model, so mutual exclusion between two clients is not claimed.
- Retry delays, logging, status lines and the gate's screens; a gate is a free choice among the actions it offers.
- At most one heartbeat in flight: the source does not keep this, since an old heartbeat clears the shared flag; late replies are covered by LeaseTheorems.LateReply instead.
- Bridges, adapters, configuration, the forum store, the tamper pipeline, the tool filter and transcript building: they would only add easy members.
