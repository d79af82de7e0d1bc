# Torchwood, verified cores

A Dafny model of the parts of Torchwood where a mistake shows up only after many steps: the event-stream
consumers, the retry queue, the query DSL, the slot semaphore, the id generator, schema names, and three small
protocols of the console. `dafny verify dfyconfig.toml` checks everything.

Where the source changes state, a class with the same fields does the same statements in the same order, and each
method is proved equal to one step (or one recorded sequence of steps) of a transition system; the properties are
then proved for every run of that system. Where the source computes a value in a loop, a method with that loop is
proved equal to a function, and the lemmas are about the function.

| files | what they model |
|---|---|
| `EventProtocol` `EventSafety` `EventNoLoss` `EventLoss` `EventBackfill` `EventDeployment` `EventConsumer` | `worker/event_triggers.go`: outbox, stream, consumer group, watermark, trimming, crashes, startup backfill. The state machine, what it keeps in every environment, no loss in healthy ones, exactly when skipping a backfill or deploying next to an existing stream loses events, and the consumer's code |
| `WebhookRows` | `worker/webhook_events.go`: the same protocol with a delivery table |
| `RetryQueue` `RetryWorker` | `worker/worker.go`: unread and pending copies, attempts, acks; the consume loop |
| `DslText` `DslScan` `DslTree` `DslParse` `DslRoundTrip` `DslClauses` `DslWire` | `pkg/query`: scanner, quoting, filter trees, parser, printer, the clauses, wire form |
| `Semaphore` | `pkg/semaphore`: expiring slot leases in a shared store |
| `Snowflake` | `pkg/idgen`: ids under an arbitrary clock |
| `Ident` | `pkg/ident`: schema names and the regular expressions they are matched with |
| `ProjectScope` | `useProjectScopeSync` and `useAuth`: tabs that share a selection through localStorage |
| `SessionRefresh` | `console/src/api/client.ts`: single-flight refresh, one retry, forced login |
| `Calendar` `ZonedTime` | `console/src/lib/datetime.ts`: `Date.UTC`, and offsets resolved with two lookups |
| `Wrappers` `Numerals` `Sums` `Runs` | options and results; decimal numerals; weighted sums used as measures; records of runs |

## Where the code and its comments differ

The model follows the code. In these places the comments promise more, and a lemma shows the difference.

- An aborted backfill (`worker/event_triggers.go:443-468`). The comments say the watermark has not moved, so the gap
  is still there for the next start. But `Run` goes on to consume, and the next acked entry moves the watermark past
  the gap. `EventLoss.AbortIsSafeIffCaught` says exactly when that is harmless; `EventLoss.AbortedScanLoses` reaches
  the losing state from the initial one. A poison entry at the stream's head has the same effect, since its seq reads
  as 0: `EventLoss.PoisonHeadLoses`.
- First deployment (`worker/event_triggers.go:201-207`). The group is created at the stream's end while the backfill
  looks only below the stream's head, so what lies in between is neither consumed nor backfilled, although the
  comments at 196-198 and 497-499 speak of a full reconciliation. `EventDeployment.FirstDeployment` says exactly when
  the first start is safe. Without a due backfill it is when the stream holds no event. With one it is when the stream
  holds no event but its head, and no batch can end right below that: the row is missing, or the rows from the
  watermark up to it are fewer than `eventBackfillBatch`. Otherwise a crash after a batch that ends there leaves the
  head next to the watermark, and the second startup sees no gap: `EventDeployment.FirstBackfillSkips` with 501 events.
- A failed `CreateDeliveries` is acked and the watermark passes it, so a later backfill does not look at it again,
  against `worker/webhook_events.go:282-284`: `WebhookRows.FailedCallLosesRows`; `MissingRowCanComeIff` says exactly
  when a later backfill still does. The insert that fails also ends the call, against the comment that one bad row does not hold up the batch
  (`internal/infra/bun/bunrepo/webhook_delivery_repo.go:32-59`): `WebhookRows.DeliveryTable.CreateDeliveries`.
- Out of attempts (`worker/worker.go:368-371`): the ack precedes the failure mark, so a death in between leaves the
  invocation unmarked for good as far as queue and workers go. `RetryQueue.MarkedIffHeld` says exactly when a mark can
  still come; `RetryQueue.AnInvocationIsAbandoned` is a run after which it cannot.
- `BuildFilter` (`pkg/query/query.go:572-584`) accepts any number of values. The result parses back exactly when
  `Fits` holds: a comparison with two values keeps the first only, the membership operators never parse in that
  form, and a newline in any part makes `Parse` fail because `.` does not match it.
- Ids increase exactly while the time fits 41 bits (`pkg/idgen/snowflake.go:65`): `Snowflake.IdsIncreaseIffSameEra`.
- `ParseSchemaName` (`pkg/ident/ident.go:87-98`) also accepts a name without its prefix: `Ident.ParsesIffTwoSegments`.
- The sync effect works on the values its render saw. A render that saw the URL's project selected, followed by a
  storage event that replaces it before the effect runs, leaves the tab unsynced until it navigates:
  `ProjectScope.FirstEffectSyncs`, reached in `StaleRenderLeavesUnsynced`.
- Two offset lookups (`console/src/lib/datetime.ts:165-181`) converge with one transition nearby, not with two:
  `ZonedTime.TwoTransitionsMiss`; in general exactly when a third would agree with the second. `Date.UTC` reads years
  0 to 99 as 1900 to 1999: `Calendar.SameNumberIffSameCanonical`.

## Model

| member | source | states |
|---|---|---|
| EventNoLoss.NoEventLost | worker/event_triggers.go:133-165 | For every batch size, after any healthy run of any number of consumers every published event was handled, or is pending, or lies above the watermark and is still in the outbox; once some consumer is past its startup, only unread entries are owed; a step that ends a backfill leaves nothing up to the stream's head unhandled but what is pending |
| EventNoLoss.RunKeepsInv | worker/event_triggers.go:244-325 | The inductive invariant behind it, along every healthy run |
| EventNoLoss.StepKeepsInv | worker/event_triggers.go:244-495 | Each command of each consumer and each healthy step of the environment keeps that invariant |
| EventNoLoss.ScanIs | internal/infra/events/outbox_backfill.go:28-41 | A bounded scan lists, ascending, exactly the outbox seqs above the cursor up to its own last row; an empty one means the range is empty |
| EventSafety.RunIsSound | worker/event_triggers.go:264-284 | In every environment, one that commits or relays out of order or twice included: nothing is acked before the handler ran on it, the watermark never falls, and it is 0 or the seq of something handled |
| EventSafety.StepIsSound | worker/event_triggers.go:519-528 | Each single command keeps that |
| EventSafety.MaxSeqIsSome | worker/event_triggers.go:265-274 | The accumulated maximum bounds every entry of the batch and is 0 or one of their seqs |
| EventSafety.StepGrows | worker/event_triggers.go:125-127 | No step undoes the log, the handled and acked sets or the watermark, or touches another consumer's phase |
| EventLoss.AbortIsSafeIffCaught | worker/event_triggers.go:443-468 | Whatever the other consumers are doing, ending a startup early cannot lose an event if and only if everything behind the group's next read is handled or pending |
| EventLoss.IdleIsSafeIffCaught | worker/event_triggers.go:211-239 | The same for any state with a consumer past its startup, however it got there |
| EventLoss.GapOfAbortedScan | worker/event_triggers.go:463-468 | For a scan that failed at a cursor that condition is about the outbox rows above the cursor, up to and including the stream's head |
| EventLoss.LostForever | worker/event_triggers.go:443-455 | An unhandled, unheld event behind the next read and at or below the watermark stays so under every later step, healthy or not, as long as the relay keeps the order |
| EventLoss.DoomedLoses | worker/event_triggers.go:264-284 | A consumer past its startup with such an event above the watermark loses it by consuming the entries that follow |
| EventLoss.AbortedScanLoses | worker/event_triggers.go:465-468 | A healthy run from the initial state reaches a failing scan after which a healthy continuation loses an event |
| EventLoss.PoisonHeadLoses | worker/event_triggers.go:452-455 | And one reaches a startup that meets a poison entry at the stream's head, skips the backfill, and can lose an event |
| EventDeployment.FirstDeployment | worker/event_triggers.go:196-207 | For every batch size and after every healthy run without a group, joining it and reading watermark and head is safe exactly in these cases: no backfill is due and the stream holds no event; or one is due, the stream holds no event but its head, and the row right below is not in the outbox or the rows up to there do not fill a batch |
| EventDeployment.NotDueIsSafeIffHandled | worker/event_triggers.go:452-455 | For any state without a group, watermark and history included: with no backfill due, if and only if every event in the stream was handled before |
| EventDeployment.DueIsSafeIffOnlyHeadOwed | worker/event_triggers.go:460-495 | With one due, if and only if every event past the stream's head was handled before, and so was the head, or the outbox does not hold the seq right below it, or the rows from the watermark to there do not fill a batch |
| EventDeployment.HeadIsLost | worker/event_triggers.go:453-475 | Otherwise batches of the fixed size end right below the head, after a purge of their odd front while a second consumer has yet to scan if need be, and a crash and a second startup leave the head behind the group's next read |
| EventDeployment.FirstDeploymentSkips | worker/event_triggers.go:196-207 | One event published before the first start is enough to reach a state that can lose it |
| EventDeployment.FirstBackfillSkips | worker/event_triggers.go:57-60 | One full batch of events trimmed and one left reach a state in which a backfill is due and does not help |
| EventDeployment.ShortBackfillIsSafe | worker/event_triggers.go:57-60 | With three events, two of them trimmed, the first start cannot lose any |
| EventBackfill.BackfillAll | worker/event_triggers.go:460-495 | A backfill left alone ends, having called the handler on exactly the rows of its range, in order, whatever the batch size |
| EventBackfill.BatchesTo | worker/event_triggers.go:461-494 | If the rows up to some seq fill whole batches, the watermark comes to stand there while the backfill is still on |
| EventConsumer.EventTriggerConsumer.Backfill | worker/event_triggers.go:460-495 | Terminates for every batch size; it fails exactly with the first scan that fails, is cancelled only when told to stop, and is otherwise complete; the handler calls this consumer makes meanwhile, read off the record, are short of purges and late commits exactly the rows one scan of the range up to its cursor would list, each once, in order, which is the whole range when complete |
| EventConsumer.EventTriggerConsumer.BackfillBatch | worker/event_triggers.go:461-494 | One scan and its rows: the recorded handler calls are exactly the rows of (cursor, next], each once, in order, and the watermark is at least at the last |
| EventConsumer.EventTriggerConsumer.ReplayRows | worker/event_triggers.go:472-494 | The recorded handler calls are exactly the rows, then watermark and cursor move to the last, which ends the backfill at or past the head |
| EventConsumer.EventTriggerConsumer.HandleEntries | worker/event_triggers.go:264-274 | The recorded handler calls are exactly the events of the batch in order; returns its ids and its largest seq, whatever others do meanwhile |
| EventConsumer.EventTriggerConsumer.HandleBatch | worker/event_triggers.go:264-284 | Every entry is handled before any is acked; after a successful ack and advance the watermark covers the batch |
| EventConsumer.EventTriggerConsumer.Settle | worker/event_triggers.go:275-283 | All ids acked or none; the watermark reaches the batch's maximum only after a successful ack |
| EventConsumer.EventTriggerConsumer.ClaimStale | worker/event_triggers.go:290-325 | At a recorded moment of the call the stale entries are taken over exactly if all of them are pending and there are 1 to 64; every one taken over is handled, and acked where the ack succeeded; alone, that moment is the start and nothing else of the stream changes |
| EventConsumer.EventTriggerConsumer.ConsumeSession | worker/event_triggers.go:244-286 | At two recorded moments, in order, a session takes over the stale entries if they can be claimed then, and reads exactly the next unread entries if there are as many; it calls the handler on exactly their events, in order, and acks them where the ack succeeded, whatever others do meanwhile; alone, what it returns, the cursor and what is pending are functions of the state before |
| EventConsumer.EventTriggerConsumer.ConsumeLoop | worker/event_triggers.go:211-239 | Sessions repeated alone drain the stream: every unread entry is handled in the end, and where acks succeed every unread and every pending one is handled and acked, and with watermark writes none of the unread is above the watermark |
| EventConsumer.EventTriggerConsumer.Probe | worker/event_triggers.go:443-459 | A backfill is due exactly when both reads succeed and the stream's head is more than one past the mark, which is the watermark at some moment of the startup |
| EventConsumer.EventTriggerConsumer.Startup | worker/event_triggers.go:149-154 | At a recorded moment, alone one at which stream, outbox and watermark are those before the call, a backfill is due exactly when both reads succeeded and the head is more than one past the watermark read; short of rewrites the handler was then called on exactly what the outbox held between that watermark and the cursor, each once, in order; the cursor is the head unless a scan failed or the process was told to stop, and with neither it is complete |
| EventConsumer.ScanIsPrefix | internal/infra/events/outbox_backfill.go:28-41 | A bounded scan equals the unbounded one up to its own last row |
| EventConsumer.RecordIsRun | worker/event_triggers.go:133-165 | The commands a consumer and the others issued form a run of the state machine, and the calls noted for each consumer are its handler calls along that run |
| WebhookRows.DrainedRunHasEveryRowOnce | worker/webhook_events.go:267-347 | After any healthy run with reclaims, crashes and overlapping backfills, once the stream is drained: no key has two rows, of the matches of the published events exactly those are missing that no handler call got to, and with one call that went through for each event none is |
| WebhookRows.RowsAreWhatCallsGotTo | worker/webhook_events.go:285-347 | Handler calls in any order and multiplicity, each cut short at any place, give exactly the (webhook, event) pairs some call got to, one row each |
| WebhookRows.RowsAreDistinctMatches | worker/webhook_events.go:285-347 | With one call that went through for each event, exactly the matches of the distinct events |
| WebhookRows.FailedCallLosesRows | worker/webhook_events.go:327-339 | A healthy run whose one handler call fails at its first insert drains the stream without its row |
| WebhookRows.MissingRowStaysMissing | worker/webhook_events.go:355-406 | For an event behind the next read and the watermark, a match that no call got to stays missing in every in-order continuation |
| WebhookRows.MissingRowCanComeIff | worker/webhook_events.go:355-406 | After any healthy run that ends with the stream drained and every consumer past its startup or down, a missing row can still come if and only if the watermark is below its event |
| WebhookRows.InsertAllKeys | internal/infra/bun/bunrepo/webhook_delivery_repo.go:32-59 | Inserting adds exactly the missing keys, keeps every earlier row, and keeps keys unique |
| WebhookRows.DeliveryTable.CreateDeliveries | internal/infra/bun/bunrepo/webhook_delivery_repo.go:32-59 | The row loop, with a failing insert at any place; the count returned is that of the rows actually new |
| WebhookRows.VisitedIsHandled | worker/webhook_events.go:41-44 | What a run's handler calls are is what the protocol records as handled |
| RetryQueue.NothingVanishes | worker/worker.go:345-374 | In every run, with crashes, lost acks and failed re-enqueues, each submitted invocation has an unread or pending copy, or succeeded, or was discarded as invalid, or failed its last attempt |
| RetryQueue.StepKeepsInv | worker/worker.go:328-376 | The invariant behind it: a re-enqueued hand-out has a live successor until its ack |
| RetryQueue.LiveStays | worker/worker.go:356-367 | No ack removes the last live copy of an unresolved invocation, because the re-enqueue comes first |
| RetryQueue.WorkIsBounded | worker/worker.go:28-28 | With R reclaims an invocation is processed at most 4 * (1 + R) times in any run, at most 4 times without any |
| RetryQueue.FourTriesBeforeGivingUp | worker/worker.go:397-413 | In every run an invocation that is out of attempts was processed at least 4 times, exactly 4 times if nothing of it was reclaimed |
| RetryQueue.RunKeepsBudget | worker/worker.go:397-413 | Work done plus the weighted potential of all copies and hand-outs never exceeds the budget |
| RetryQueue.MarkedIffHeld | worker/worker.go:368-371 | An invocation out of attempts can still come to be marked if and only if a copy of it is unread or pending, or some worker has yet to process, put back, ack or mark it |
| RetryQueue.AnInvocationIsAbandoned | worker/worker.go:355-371 | A run from the empty queue ends with an invocation out of attempts that no continuation marks |
| RetryQueue.DeathBeforeMarkAbandons | worker/worker.go:368-371 | For a last attempt on the only copy, a death between ack and mark leaves no copy, hand-out or mark |
| RetryQueue.AbandonedForever | worker/worker.go:429-438 | No later step of queue or workers marks it |
| RetryWorker.ScriptIsSafe | worker/worker.go:345-374 | In one pass the message is processed once and first, acked only if it succeeded, is invalid, is out of tries or its successor was accepted, and marked only after the ack; it is put back exactly if it failed for a reason that may pass with fewer than 3 tries behind it and no stop, and it is exactly said when it is acked and when marked |
| RetryWorker.Worker.Consume | worker/worker.go:328-376 | One pass, others interleaved anywhere: the commands issued on the message are such a safe and full pass, and nothing is left to do on it |
| RetryWorker.Worker.Dequeue | worker/worker.go:329-341 | At a recorded moment, alone the start, it hands out the stale entry if it is pending then, else the unread one, else nothing, and it comes back empty only if neither was there |
| RetryWorker.RecordIsRun | worker/worker.go:328-376 | The recorded commands form a run of the step relation, so conservation holds of it |
| DslText.UnescapeEscape | pkg/query/query.go:537-566 | Unescaping undoes escaping, for every string |
| DslText.EscapeString | pkg/query/query.go:552-566 | The loop computes the escaped text that `UnescapeEscape` is about |
| DslText.UnescapeString | pkg/query/query.go:537-548 | The loop computes the unescaped text that `UnescapeEscape` is about |
| DslText.SplitArgs | pkg/query/query.go:466-518 | The scanning loop computes the pieces that `SplitIsExact` is about, or fails |
| DslScan.SplitIsExact | pkg/query/query.go:466-518 | By counting quotes, backslashes and brackets alone: it fails exactly on text ending inside quotes or unbalanced; the pieces joined by commas are the text; a position is cut exactly if it is a comma not escaped, not in quotes, at depth 0 |
| DslScan.FlagsCount | pkg/query/query.go:468-510 | The scanner's three flags equal those counts at every position |
| DslScan.CutsAreSeparators | pkg/query/query.go:499-505 | The pieces are cut exactly where the scanner saw a separator |
| DslScan.ScanQuoted | pkg/query/query.go:552-570 | A quoted string of any content passes the scanner whole and leaves its flags as they were |
| DslRoundTrip.ParseUndoesBuildFilter | pkg/query/query.go:226-352 | `Parse` of `BuildFilter` gives exactly the leaf back if and only if the operator takes that many values, no part has a newline, and the text is within 4096 bytes |
| DslRoundTrip.ParseUndoesArrayFilter | pkg/query/query.go:277-322 | The array form reads back exactly if the operator takes an array, it is not empty, no part has a newline, and the text is within 4096 bytes |
| DslRoundTrip.ArrayReadsBack | pkg/query/query.go:595-612 | An array of quoted items reads back as those items |
| DslRoundTrip.SplitOfList | pkg/query/query.go:466-518 | A list of quoted strings splits into exactly those strings |
| DslRoundTrip.ParseOfCall | pkg/query/query.go:226-246 | What `Parse` makes of a call to a known operator, every error case included |
| DslRoundTrip.NamesDiffer | pkg/query/query.go:14-40 | No two operators share a name |
| DslRoundTrip.OperatorNames | pkg/query/query.go:14-40 | The name of each operator, letter by letter |
| DslClauses.ParseUndoesOrder | pkg/query/query.go:354-362 | A printed `orderAsc` reads back as the ascending order on that attribute and a printed `orderDesc` as the descending one, with nothing else in the query, exactly on one line of at most 4096 bytes |
| DslClauses.ParseUndoesCursor | pkg/query/query.go:396-410 | A printed cursor reads back in the field it names, under the same condition |
| DslClauses.ParseUndoesSelect | pkg/query/query.go:412-420 | A printed selection reads back as those fields in order, under the same condition |
| DslClauses.ParseUndoesNumber | pkg/query/query.go:364-394 | A printed limit or offset reads back exactly if it fits 64 bits; the limit is the page size, too, exactly from 1 to 2^31 - 1 |
| DslClauses.AtoiIsValue | pkg/query/query.go:368-371 | A numeral, signed or not, with leading zeros or not, is read as its value exactly if that fits 64 bits |
| DslClauses.NegativeIsRefused | pkg/query/query.go:372-374 | A negative limit or offset gives the error for it, one below 64 bits that for a number |
| DslClauses.NonNumberIsRefused | pkg/query/query.go:368-371 | So does an argument that is no optional sign and digits |
| DslClauses.ParseReadsLiteral | pkg/query/query.go:248-275 | A comparison with a bare literal compares with that text |
| DslClauses.OddCallsAreRefused | pkg/query/query.go:354-422 | A clause with more than one argument, and any name that is neither a predicate nor a clause, give their own errors |
| DslClauses.ParseOfClause | pkg/query/query.go:226-246 | What `Parse` makes of a call to a clause, every error case in order |
| DslClauses.SpacesAroundMeanNothing | pkg/query/query.go:227-230 | Spaces around the text change nothing |
| DslParse.ParseMany | pkg/query/query.go:429-463 | The merging loop computes the merge that `ParseManyKeepsMeaning` is about, or the first input's error |
| DslParse.ParseManyKeepsMeaning | pkg/query/query.go:429-463 | The merged tree's preorder leaves are the inputs' leaves in order, it holds exactly when every input's filter does, and the result passes `Validate` |
| DslParse.ParseManySucceedsIff | pkg/query/query.go:429-446 | Succeeds exactly on at most 100 inputs of at most 4096 bytes that each parse; otherwise the error is that of the first bad input |
| DslParse.MergedClauses | pkg/query/query.go:447-460 | Orders and selections are the inputs' in order, and of each limit, offset, page size and cursor the last one set wins |
| DslParse.Parse | pkg/query/query.go:226-423 | A parsed query has no filter, or one valid comparison leaf that is also its only list entry; which one, and what the clauses give, is what the round trips say |
| DslParse.ParseArray | pkg/query/query.go:595-612 | The in-place loop over the split items computes the unquoted list, or the error |
| DslTree.Validate | pkg/query/query.go:162-196 | Accepts exactly the queries with at most 100 leaves, each with two values for a range, any number for a null test, and at least one for everything else |
| DslTree.BoolNode | pkg/query/construct.go:105-120 | The filtering loop builds the node that `NodeKeepsMeaning` is about |
| DslTree.NodeKeepsMeaning | pkg/query/construct.go:97-120 | With some non-nil child, And holds exactly when all of them do and Or exactly when one does; without any there is no filter |
| DslTree.AndKeepsLeaves | pkg/query/query.go:198-213 | The conjunction of a leaf list has exactly that list as its leaves |
| DslTree.AndMeansAll | pkg/query/query.go:198-213 | And it holds exactly when all of them do |
| DslWire.WireKeepsWellFormedTrees | pkg/query/wire.go:69-92 | A tree can be read back from its wire form if and only if its operators are known and nodes carry nothing the wire drops |
| DslWire.WireIsInjective | pkg/query/wire.go:43-92 | Different well-formed trees have different wire forms |
| DslWire.ArmNames | pkg/query/wire.go:43-67 | The protojson arm of each operator, letter by letter |
| DslWire.FilterOnWire | pkg/query/wire.go:69-92 | A known filter is one object with one arm; a comparison's says its attribute, and its values if it has any, a node's its children's objects in order |
| DslWire.FieldsOf | pkg/query/wire.go:15-40 | Each field of the object stands exactly when the query has it, under its name and with its value |
| DslWire.OrderOnWire | pkg/query/wire.go:22-30 | An order says its attribute, and that it is descending only when it is |
| DslWire.QueryWireIsInjective | pkg/query/wire.go:11-40 | Equal wire forms imply equal filter, orders, selects, page size and page token |
| DslWire.ParsedQueriesCrossTheWire | pkg/query/wire.go:11-92 | Whatever `ParseMany` returns has a filter the wire keeps |
| DslWire.ToWireJSON | pkg/query/wire.go:11-40 | The object built field by field, zero values omitted, is the one `QueryWireIsInjective` is about |
| Semaphore.AtMostMaxHolders | pkg/semaphore/semaphore.go:77-101 | Under every interleaving of scans, expiries, lost replies and late releases at most `max` clients hold an unexpired lease |
| Semaphore.AtMostMaxLeases | pkg/semaphore/semaphore.go:77-101 | And at most `max` leases are live, those taken by a command whose reply was lost included |
| Semaphore.LeaseEndsOnlyByItself | pkg/semaphore/semaphore.go:89-96 | A live lease ends only by its own holder's release or its own expiry; a late release cannot end a successor's |
| Semaphore.ExactlyMaxAcquires | pkg/semaphore/semaphore.go:82-100 | With no slot live, expired ones still in the store or not, exactly `max` sequential acquires within one time to live succeed, in slot order, and the next fails |
| Semaphore.SlotKeysDiffer | pkg/semaphore/semaphore.go:103-117 | Different slots have different keys |
| Semaphore.RedisSemaphore.SlotKey | pkg/semaphore/semaphore.go:103-117 | Filling the 20-byte buffer from its end writes the decimal numeral, for every index below 10^20 |
| Semaphore.RedisSemaphore.TryAcquire | pkg/semaphore/semaphore.go:77-101 | Whatever others do meanwhile: acquires the first slot it finds not live, under a fresh token and for a full time to live; is refused only after it found each slot live in turn; with nobody else at work takes the first free slot |
| Semaphore.RecordIsRun | pkg/semaphore/semaphore.go:77-101 | The commands recorded form a run of the step relation, so what every run keeps holds of them |
| Semaphore.RedisSemaphore.ReleaseLease | pkg/semaphore/semaphore.go:89-96 | Unless its command is lost, afterwards the lease of this key and token is over, and every other lease is as it was just before, a successor's on the same key included |
| Snowflake.IdsIncreaseIffSameEra | pkg/idgen/snowflake.go:36-69 | For every sequence of clock readings within 2^42 ms of the state before it, with backward jumps and any number of calls in a millisecond: of two ids issued the later is larger if and only if both times fall into the same 2^42 ms, and no two are equal |
| Snowflake.IdsStrictlyIncrease | pkg/idgen/snowflake.go:36-69 | A new generator whose first time is in range issues strictly increasing ids if and only if its last time is in range |
| Snowflake.NextIsLargerIffInRange | pkg/idgen/snowflake.go:65-67 | One call from a time in range gives a larger id if and only if the new time is in range |
| Snowflake.FieldsReadBack | pkg/idgen/snowflake.go:65-67 | Node and sequence always read back from an id; the time does exactly within 2^41 ms of the epoch |
| Snowflake.NodesNeverCollide | pkg/idgen/snowflake.go:65-67 | Ids of different nodes differ, whatever the clocks and counters |
| Snowflake.PackIsSum | pkg/idgen/snowflake.go:65-67 | Or'ing the shifted fields as 64-bit words adds them: no two share a bit |
| Snowflake.OrDisjoint | pkg/idgen/snowflake.go:65-67 | A number below 2^k or'd onto a multiple of 2^k is their sum |
| Snowflake.NextMovesOn | pkg/idgen/snowflake.go:53-63 | A call moves to a later millisecond, or to the next sequence number of the same one |
| Snowflake.NextTakesFirstUsable | pkg/idgen/snowflake.go:40-63 | A call gives an id exactly if the clock ever shows a later millisecond, or the last one while its 4096 numbers last; it takes the first such reading, and numbers the id from 0 in a new millisecond |
| Snowflake.OneReadingIsEnough | pkg/idgen/snowflake.go:53-62 | A later reading is taken at once and starts the sequence at 0; the same reading takes the next number while there is one |
| Snowflake.MillisecondHas4096 | pkg/idgen/snowflake.go:53-62 | On a clock that stands still a millisecond gives exactly 4096 ids, numbered from 0, one for each reading |
| Snowflake.EpochIs2020 | pkg/idgen/snowflake.go:10 | The epoch is the start of 2020 in the calendar of `Date.UTC` |
| Snowflake.Snowflake.Next | pkg/idgen/snowflake.go:36-69 | Both spins and the counter, for every clock: the state and id that the run lemmas are about |
| Ident.ParseUndoesSchemaName | pkg/ident/ident.go:69-98 | Printing succeeds exactly on two valid ids, gives `tw_`, the project, `_` and the database, and parsing takes it apart again |
| Ident.ParsesIffTwoSegments | pkg/ident/ident.go:54-98 | Parsing succeeds exactly when the name, prefixed if it is not, has two segments, and printing gives that name back |
| Ident.ParseTellsNamesApart | pkg/ident/ident.go:87-98 | Two names parse to the same ids only as a name with and without its prefix |
| Ident.OneAndTwoSegmentsDiffer | pkg/ident/ident.go:30-35 | No name matches both expressions; a two-segment name has at most 60 characters |
| Ident.ProjectSchemaIsItsOwn | pkg/ident/ident.go:41-52 | A project's own schema name is never any database's, never two-segment, and never parses |
| Ident.ValidIDIs | pkg/ident/ident.go:27-28 | The expression for ids matches exactly a letter a to z followed by up to 27 of a to z and 0 to 9 |
| ProjectScope.Converges | console/src/hooks/useAuth.tsx:68-77 | In every run of any number of tabs, a tab with no storage event under way selects what is stored |
| ProjectScope.PushesFollowArrivals | console/src/hooks/useProjectScopeSync.ts:27-39 | Effects select no more often than tabs arrive at a project's URL |
| ProjectScope.NoPingPong | console/src/hooks/useProjectScopeSync.ts:15-20 | Renders, effects and deliveries alone come to an end: no run of them is longer than a measure of the state |
| ProjectScope.RestIsAgreement | console/src/hooks/useAuth.tsx:61-77 | When they have, every tab selects and has rendered what is stored |
| ProjectScope.ChoiceStands | console/src/hooks/useProjectScopeSync.ts:15-20 | Once every URL has been pushed, no render, effect or delivery changes the stored selection |
| ProjectScope.FirstEffectSyncs | console/src/hooks/useProjectScopeSync.ts:27-39 | The first effect for a URL ends on that project, except exactly when its render saw it selected and it no longer is |
| ProjectScope.StaleRenderLeavesUnsynced | console/src/hooks/useProjectScopeSync.ts:27-39 | A run of two tabs gets there, and no render, effect or delivery changes the stored selection afterwards |
| ProjectScope.ConsoleTab.SyncEffect | console/src/hooks/useProjectScopeSync.ts:27-39 | The effect's early returns and writes, on the values its render saw, are one effect step |
| ProjectScope.ConsoleTab.OnStorage | console/src/hooks/useAuth.tsx:69-74 | Re-reads storage for this key or a full clear, and does nothing for another key |
| ProjectScope.ConsoleTab.SelectProject | console/src/hooks/useAuth.tsx:98-101 | Writing storage, then state, is one selection step seen by all other tabs, only if the value changed |
| ProjectScope.ConsoleTab.LogOut | console/src/hooks/useAuth.tsx:84-96 | Clears the stored and the shown selection |
| ProjectScope.ConsoleTab.SetProjectID | console/src/api/client.ts:57-63 | An empty or absent id removes the key |
| SessionRefresh.OneRefreshAtATime | console/src/api/client.ts:38-52 | In every run all refreshes under way are one, and it is the one the shared promise stands for |
| SessionRefresh.SentAtMostTwice | console/src/api/client.ts:113-124 | In every run a request is sent at most twice, and twice only if the flags allow its retry |
| SessionRefresh.OneRedirectPerRenewal | console/src/api/client.ts:77-89 | Over any stretch without a successful refresh there is at most one redirect, none if one is under way; over a run at most one more than successful refreshes |
| SessionRefresh.RedirectHasCause | console/src/api/client.ts:106-135 | In every run a redirect comes only after a refresh failed, or after an expired session was reported for a request that was already retried or had opted out |
| SessionRefresh.WaiterFollowsItsRefresh | console/src/api/client.ts:113-127 | In every run a request that waits for a refresh waits until that one is answered; then it is sent a second time if the refresh succeeded, and is not if it failed |
| SessionRefresh.NobodyIsStranded | console/src/api/client.ts:119-127 | Every request not answered for good can go on, and no run is longer than ten steps a request and three for each refresh asked for outside the interceptor |
| SessionRefresh.StepKeepsInv | console/src/api/client.ts:91-135 | A waiting request waits for the refresh in flight; retried ones are past waiting; counts match phases |
| SessionRefresh.Client.OnAnswer | console/src/api/client.ts:91-122 | An expired session reported for the first time, on a request that may retry, makes it wait for the one refresh, started only if there is none; on one that may not it forces the login, once; every other answer is passed on, and starts nothing |
| SessionRefresh.Client.AfterRefresh | console/src/api/client.ts:123-127 | A renewed session marks and resends the request and nothing else; a failed refresh forces the login and ends it |
| SessionRefresh.BurstSharesOneRefresh | console/src/api/client.ts:33-52 | A burst of calls, however many, leaves exactly one refresh under way, the one the promise stands for, and starts one only if there was none |
| SessionRefresh.BurstRedirectsOnce | console/src/api/client.ts:77-89 | A burst of forced logins redirects once in all and clears the project, and does nothing if a redirect is under way |
| ZonedTime.TwoLookupsSuffice | console/src/lib/datetime.ts:165-181 | With at most one transition nearby, the resolved instant shows the requested wall clock if and only if it is not in a forward jump, if and only if any nearby instant shows it |
| ZonedTime.GapMovesByTheJump | console/src/lib/datetime.ts:178-180 | Inside a jump the clock shown is off by exactly its length, and in which direction |
| ZonedTime.OverlapChoice | console/src/lib/datetime.ts:178-180 | Of two instants showing the same clock, the earlier is taken exactly when the naive instant precedes the transition |
| ZonedTime.InstantRoundTrip | console/src/lib/datetime.ts:139-151 | An instant's own wall clock resolves to it, except exactly when it is shown twice and the other one is taken |
| ZonedTime.RequestedFieldsAreShown | console/src/lib/datetime.ts:165-181 | For an existing date the resolved instant shows its very fields if and only if any nearby instant does |
| ZonedTime.PickerRoundTrip | console/src/lib/datetime.ts:155-181 | Text shown in the picker reads back with the seconds dropped, and the instant it resolves to shows it if and only if any nearby one does |
| ZonedTime.TextReadsBack | console/src/lib/datetime.ts:161-174 | The picker reads its own text back exactly for years of four digits |
| ZonedTime.TextWithSecondsReadsBack | console/src/lib/datetime.ts:171-177 | And text with the seconds written out, seconds included |
| ZonedTime.SpringForward | console/src/lib/datetime.ts:139-151 | A zone that jumps from two to three o'clock meets every hypothesis of these lemmas, and half past two is in its gap |
| ZonedTime.ThirdLookupDecides | console/src/lib/datetime.ts:165-181 | For any offsets whatsoever, the resolved instant shows the requested clock if and only if a third lookup would agree with the second |
| ZonedTime.TwoTransitionsMiss | console/src/lib/datetime.ts:165-181 | A zone with two backward changes in which a wall clock that is shown is not found |
| ZonedTime.FromDateTimeLocalValue | console/src/lib/datetime.ts:167-181 | The two assignments to the offset compute the instant these lemmas are about; text of another shape gives none |
| Calendar.UtcTellsApart | console/src/lib/datetime.ts:142-149 | From the year 100 on, no two existing dates and times have the same number |
| Calendar.SameNumberIffSameCanonical | console/src/lib/datetime.ts:142-149 | Existing dates and times of any year share a number if and only if they agree once years below 100 are moved by 1900, the 29th of February of the year 0 becoming the 1st of March 1900 |

## Left out

- The hypotheses of a healthy run, `EventProtocol.Healthy`: seqs are committed and relayed in increasing order and are
  below 2^53 (the Lua script compares doubles); the group exists; rows are purged only at or below the watermark;
  unread entries are trimmed only while no consumer runs, pending ones never; startup reads and scans succeed and the
  stream's head decodes. `EventSafety` needs none of them; `EventLoss.LostForever` needs the order of the relay.
- EventNoLoss.NoEventLost: "handled" means that the handler was called, because the code acks even when what it calls fails.
- EventConsumer.EventTriggerConsumer.ConsumeLoop: states what sessions repeated with nobody else at work achieve; the endless
  loop, its back-off and its errors are left out. A single session is stated under any interference.
- Outbox rows whose payload does not decode: the source skips the handler for them; the model counts them as visited.
- A destroyed consumer group. The session's own `ensureGroup("$")` recreates the group at the stream's end before the
  NOGROUP branch can rebuild it from 0, so that branch needs a destruction within one session.
- What a relay that redelivers or reorders rows does to the no-loss result; acks and watermark are sound under it.
- What the handlers call: subscription snapshots and their refresh, invocation payloads, HTTP delivery and its schedule.
  `WebhookRows` takes a fixed snapshot.
- Redis, PostgreSQL, metrics, logs, timeouts and back-off: only their atomic effects and failures are steps.
- Trimming of the invocation queue (`internal/infra/queue/redis_queue.go:138-148`): no entry is trimmed before it is
  acked. The bodies of queue messages; `Worker.Start`, `Stop`, orphan recovery and the periodic jobs. Dequeue's claim of
  stale entries is the reclaim step.
- Bytes that are not valid UTF-8 in DSL text, and error texts. `unicode.IsSpace` is written out.
- Nil children inside a hand-built filter node; vector search, limit, offset and cursors, which the encoder does not emit.
- `InMemorySemaphore` and `NoopSemaphore`; a nil client. Slot indexes are below 10^20, as a 64-bit int is.
- Snowflake.Snowflake.Next: a clock that stops showing new readings while it spins yields no id, where the source keeps waiting; the lock is one call at a time.
- Regular expressions other than those of `pkg/ident` and the call shape `^(\w+)\((.*)\)$`, of which only what the source uses is modelled.
- `ProjectBootstrap`, and login state in the tabs; several hooks in one page. Storage events reach a tab in order.
- SessionRefresh.Client.OnAnswer: leaves out toasts and errors that carry no request config; a page load after a redirect starts a new client.
- The zone database (`Intl`): a zone is any function from instants to fields. Formatter and validity caches, `resolveTimezone`, and the display formats other than the picker's.
