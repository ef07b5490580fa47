# Verified model of the publishing, comment and DM automation

This project models, in Dafny, the protocols of the repository that have to survive crashes,
redelivery, expired leases and network answers that say nothing, and proves what they guarantee.

- **The event inbox** (`EventStore.dfy`): claims with tokens and leases, token-fenced writes, effect
  states, tags. Every SQL statement is a function from table to table; the class is the store as it
  stands, updated in place.
- **Comments** (`Admission.dfy`, `CommentProtocol.dfy`, `DurableAcceptance.dfy`): any number of workers,
  each of which may stop between any two statements, race over the inbox while leases run out, modes
  change and the retry queue works beside them. Proved over all runs: each effect goes out at most once;
  whatever the poller caches or the webhook acknowledges is durably accepted.
- **The cutover** (`PollTargets.dfy`, `CutoverSafety.dfy`): the state machine of watched media and the
  baseline commands, run as processes beside the workers.
- **Direct messages** (`DmProtocol.dfy`, `ReplySlots.dfy`): two reply paths and any number of retry
  executions over the same inbox; the in-memory reservations and their pruning.
- **Publishing** (`Publisher.dfy`, `PublishPending.dfy`, `SlotGate.dfy`, `PublishLedger.dfy`): single posts
  and carousels, the ledger of unsettled outcomes and its reconciler, the daily slots, the standalone
  publish ledger and its scheduled publisher.
- **Budgets, queues and planning** (`SafetyGuard.dfy`, `RetryQueue.dfy`, `CanaryGuard.dfy`,
  `Onboarding.dfy`).

Each protocol is a step system: a world, an `Enabled` relation, an `Exec` function and runs of any length;
its main results hold of every reachable world. Code that updates state in place is a class or a method
with loops, proved equal to the specification function the results are about.

The results say both what never happens, over every run, and what does: for each protocol, undisturbed runs
are given to their end, with every answer of the outside world as a parameter, and where a rule decides
(who may claim, reserve, send, export, publish), the exact condition is stated over the whole history, in
terms of what happened and not of the code's own tables.

What the outside world answers (HTTP, Airtable, Telegram, Gemini) is arbitrary: a parameter of a step, or a
havocked value that is logged. A call that raises may or may not have taken effect, unless said otherwise
below. Hashes are modelled by what they are hashes of; a token is a number never issued before.

Three statements one would like to make turn out to be false of the code. Each has a run that shows it, and
its exact condition:

- A comment of the verified baseline of an ACTIVE media can still be answered, if it is COMPLETED, untagged,
  and a worker that lost its claim had already written STARTED (`CutoverSafety.ActiveYetInFlight`).
  `CutoverSafety.SilentIffNothingInFlight` gives the condition, and `CutoverSafety.OldCommentsStayUnanswered`
  what the table alone can rule out.
- A post can be stuck in `uploading` without a ledger entry when its job dies between claim and verdict
  (`PublishPending.ADeadJobLeavesNoTrace`); one way to die is a 200 answer to media_publish whose JSON body
  is not an object, which raises out of `publish_single`. `PublishPending.NothingIsForgotten` and
  `PublishPending.WhatADeadJobLeaves` say exactly when there is an entry.
- Ledger keys do not tell all contents apart: they are lower-cased, while Airtable record ids are case
  sensitive, and parts may contain the separator (`PublishLedger.KeysCollide`). For one account and channel
  `PublishLedger.KeysTellContentApart` is exact, across the accounts of a channel
  `PublishLedger.KeysCollideExactly`.

Where documents and code differ, the model follows the code: a comment first seen in shadow mode is
tagged SHADOW_SEEN and can never be claimed again.

## Model

| member | source | states |
|---|---|---|
| EventStore.ClosedForever | modules/comment/comment_event_store.py:102-184 | once a row is tagged, COMPLETED or DEAD, no interleaving of any statements ever lets anybody claim it again, and its tag and token stand |
| EventStore.OwnerUntilLeaseEnds | modules/comment/comment_event_store.py:102-162 | mutual exclusion: until the lease runs out the owner keeps its token and nobody else is granted the event, whatever statements run |
| EventStore.BeginIsExclusive | modules/comment/comment_event_store.py:265-299 | of two callers that try to begin one effect only the first may; a definite failure hands it back as STARTED |
| EventStore.EffectsAreApart | modules/comment/comment_event_store.py:222-262 | a write to one effect is read back there and changes nothing else of the row |
| EventStore.CommentEventStore.TryClaimEvent | modules/comment/comment_event_store.py:102-162 | a claim succeeds exactly for a new event, or outside shadow mode for a PROCESSING untagged one whose lease has run out; the new row is given in full, and a row taken over keeps everything but its owner, lease and each STARTED, which becomes UNKNOWN and flagged; the caller owns it under a token that owns nothing else, and no earlier token does; a refused claim changes nothing |
| EventStore.CommentEventStore.SuppressPreCutover | modules/comment/comment_event_store.py:165-184 | suppresses exactly the unseen event, which is closed from then on; an existing row is left alone |
| EventStore.CommentEventStore.MarkEffect | modules/comment/comment_event_store.py:222-251 | takes effect exactly for the token that owns the event |
| EventStore.CommentEventStore.MarkEffectUnknown | modules/comment/comment_event_store.py:254-262 | exactly for the owner: the effect is UNKNOWN and the event marked for review |
| EventStore.CommentEventStore.TryBeginEffect | modules/comment/comment_event_store.py:265-283 | SENDING exactly for the owner and from an allowed state, in one statement |
| EventStore.CommentEventStore.FinishEffectFailed | modules/comment/comment_event_store.py:286-299 | answers yes exactly when it changed the row: SENDING back to STARTED under the owner's token |
| EventStore.CommentEventStore.MarkAirtableRetryPending | modules/comment/comment_event_store.py:318-322 | exactly for the owner, with the retry task that took over |
| EventStore.CommentEventStore.MarkAirtableDone | modules/comment/comment_event_store.py:325-332 | exactly for the owner; record and status change together, and the row is closed |
| EventStore.CommentEventStore.MarkAirtableRetryCompleted | modules/comment/comment_event_store.py:335-353 | needs no token, but takes effect exactly while the row is RETRY_PENDING |
| EventStore.CommentEventStore.MarkAirtableEnqueueFailed | modules/comment/comment_event_store.py:356-360 | exactly for the owner, keeping at most 500 characters of the error |
| EventStore.CommentEventStore.Kill | modules/comment/comment_event_store.py:363-373 | closes the row whatever its state and whoever owns it |
| Admission.KnownMediaNeedsActive | modules/comment/comment_auto_reply.py:605-744 | exactly who is let in and how: whatever the flags, an unreadable campaign or a failing lookup lets nothing through, a known media gets through only while ACTIVE and in the campaign, an unknown one unless gating holds a campaign media back; claimed exactly in enforce mode on a campaign post with everything in place, observed exactly in shadow mode, past the store otherwise |
| CommentProtocol.AtMostOnce | modules/comment/comment_auto_reply.py:365-562 | over every run, with crashes, expiries, takeovers and mode changes: a comment's Telegram alert and Private Reply each go out at most once under a claim, and never for a tagged comment |
| CommentProtocol.DoneMeansDelivered | modules/comment/comment_auto_reply.py:365-485 | in every run, an effect that is DONE in the table went out exactly once, and its request was answered well |
| CommentProtocol.AnswerIsRecorded | modules/comment/comment_auto_reply.py:396-413 | and the other way: a worker that still owns the event records a good answer as DONE and any other as UNKNOWN for a person to look at, and nothing else of the row changes |
| CommentProtocol.AnUnrecordedAnswerIsUnknown | modules/comment/comment_auto_reply.py:402-413 | a good answer whose DONE cannot be written ends as UNKNOWN, whether or not the write took effect |
| CommentProtocol.UnknownIsFlagged | modules/comment/comment_event_store.py:140-150 | in every run, an effect of unknown outcome is flagged for a person, be it unanswered, refused or abandoned |
| CommentProtocol.ACallGoesThrough | modules/comment/comment_auto_reply.py:493-562 | undisturbed, a call for a new comment in enforce mode sends each wanted effect once, and the row, the record, the retry task and the answer are those given, for every answer of the outside world and every way the recording can fail |
| CommentProtocol.OtherCallsReturn | modules/comment/comment_auto_reply.py:695-744 | in the other modes the call ends at once: shadow mode leaves a row no claim can ever take, a call that is not let in leaves nothing |
| CommentProtocol.HowRecordingEnds | modules/comment/comment_auto_reply.py:258-327 | the recording, whatever goes wrong in it: ACCEPTED exactly when the record is marked or the queue is noted in the row; otherwise rejected, with the error in the row |
| CommentProtocol.ARepeatIsTurnedAway | modules/comment/comment_auto_reply.py:747-761 | a call for a comment that is not for the taking is told why, and leaves no trace |
| CommentProtocol.AStaleCallIsFinished | modules/comment/comment_auto_reply.py:516-562 | the next call after a stalled one inherits its row, sends exactly the effects that were neither begun nor settled, and finishes the recording unless that is done or queued |
| CommentProtocol.AFencedCallGivesWay | modules/comment/comment_auto_reply.py:377-383 | a call that lost its claim sends nothing from any gate, and its record is not acceptance |
| CommentProtocol.TheQueueRecords | modules/comment/comment_auto_reply.py:330-361 | an undisturbed execution of the retry task creates the record, closes the row and finishes the task |
| CommentProtocol.TheQueueGivesUp | modules/comment/comment_retry_dead_monitor.py:50-62 | a task that is given up turns the row of its comment DEAD; one that merely fails stays waiting |
| CommentProtocol.SendInvStep | modules/comment/comment_auto_reply.py:493-562 | the invariant behind it is kept by every step: who may still send what, given the row and what the worker has read |
| CommentProtocol.StepEvolves | modules/comment/comment_event_store.py:102-262 | a step taken under one token leaves the effects of a row owned by another untouched, except a takeover, which turns STARTED into UNKNOWN |
| CommentProtocol.BeginSlot | modules/comment/comment_auto_reply.py:377-383 | a fenced STARTED admits at most one worker to sending an effect |
| CommentProtocol.SendSlot | modules/comment/comment_auto_reply.py:384-413 | a request goes out only from the one admitted worker, and uses its admission up |
| DurableAcceptance.AcceptedMeansDurable | modules/dm/dm_receiver.py:311-341 | in every run, a comment the poller cached, and every comment of a webhook request that went on to its DMs, is suppressed, recorded, or held by a retry task if its own call came in enforce mode on a campaign post, however it was handled at other times; otherwise it was handled by that call |
| DurableAcceptance.AnswerIsDealt | modules/comment/comment_auto_reply.py:695-768 | a good answer means what it says about the comment it was given for: a call in enforce mode never answers legacy, and its good answers are durable acceptance |
| DurableAcceptance.DurableForGood | modules/comment/comment_auto_reply.py:258-361 | acceptance, once reached, survives every later step |
| DurableAcceptance.AcceptInvStep | modules/comment/comment_auto_reply.py:258-327 | every step keeps the accounts: a row that says recorded, queued or dead has its record or its task, and so has a worker that reports acceptance |
| DurableAcceptance.VerdictIsSafe | modules/comment/comment_auto_reply.py:747-761 | a refused claim that is reported as completed or retry-owned is durably accepted already |
| DurableAcceptance.SystemInvMove | modules/comment/comment_poller.py:175-206 | every move of a poller sweep or webhook request keeps: only comments that are dealt with are cached or let the DMs begin |
| DurableAcceptance.DoorsAreExact | modules/comment/comment_poller.py:175-206 | in every run: a webhook request goes on to its DMs exactly when each of its comments was answered well, and is sent back with 503 exactly when one was not; a sweep adds exactly the comments answered well; and both process exactly the items they have to |
| DurableAcceptance.AnswerIsKept | modules/dm/dm_receiver.py:320-336 | exactly four answers are good; each is kept, any other, or an exception, fails the request |
| DurableAcceptance.SweepFillsTheCache | modules/comment/comment_poller.py:175-206 | a sweep that added nothing leaves the cache alone; one that may keep everything has every comment it added in it |
| PollTargets.ActiveIsInCampaign | modules/comment/comment_poll_targets.py:102-157 | after a sync exactly those media are ACTIVE that were and are still in the campaign; a media that left is PAUSED (or INVALID still), its columns as they were, and can be neither applied, verified nor activated; one that is new or comes back starts from nothing; any other keeps everything but the hash |
| PollTargets.SyncIsIdempotent | modules/comment/comment_poll_targets.py:102-157 | a second sync with the same campaign changes nothing |
| PollTargets.ActiveOnlyByTheBook | modules/comment/comment_poll_targets.py:102-285 | over every history, an ACTIVE media was registered, then applied, then verified with no apply since, then activated with matching hashes, none of it before its last registration, and every campaign since that registration listed it |
| PollTargets.ParkedStays | modules/comment/comment_poll_targets.py:129-147 | once out of the campaign a media stays PAUSED, whatever commands run, until it is registered anew |
| PollTargets.ByTheBookGoesLive | modules/comment/comment_poll_targets.py:102-285 | and the book is enough: listed, applied, verified and activated in a row, a new, parked or waiting media is ACTIVE on exactly that baseline |
| PollTargets.EveryRowHasAPedigree | modules/comment/comment_poll_targets.py:215-285 | the same for every state: each column of a row goes back to the event that last set it |
| PollTargets.CommentPollTargets.SyncFromCampaign | modules/comment/comment_poll_targets.py:102-157 | the three row-by-row loops amount to one simultaneous update, said row by row; an unreadable campaign changes nothing |
| PollTargets.CommentPollTargets.ApplyBaseline | modules/comment/comment_poll_targets.py:215-242 | only while PENDING_BASELINE; forgets an earlier verification |
| PollTargets.CommentPollTargets.VerifyBaseline | modules/comment/comment_poll_targets.py:245-258 | only while PENDING_BASELINE with a baseline applied |
| PollTargets.CommentPollTargets.ActivateMedia | modules/comment/comment_poll_targets.py:261-285 | only when verified and the campaign is the one the baseline was taken for |
| CutoverSafety.SafeMeansClosed | tools/comment_campaign_baseline_cli.py:108-131 | exactly what the command makes of a comment: new without an event, safe when tagged or completed, beyond repair when dead with nothing pending or unknown; what is safe can never be claimed again, and only DEAD rows are closed without being called safe |
| CutoverSafety.ApplyInsists | tools/comment_campaign_baseline_cli.py:180-265 | an apply reads on only past comments that are new or safe, gives up with nothing written on the first other one, and where one it took for new has an event by now goes on only if that is safe |
| CutoverSafety.VerifyInsists | tools/comment_campaign_baseline_cli.py:268-350 | a verification begins only on the baseline that was applied, goes on only past baseline comments that are safe and later ones that are not suppressed, and is confirmed only for that apply and its campaign |
| CutoverSafety.OverreachIsCaught | tools/comment_campaign_baseline_cli.py:268-350 | in every run, a verification whose list holds a suppressed comment of after the cutover does not succeed |
| CutoverSafety.SplitIsByFirstAppearance | tools/comment_campaign_baseline_cli.py:140-162 | the comment list is refused exactly when some first appearance lacks an id or a readable time; otherwise every id is on exactly one side, once, by the time of its first appearance |
| CutoverSafety.FetchAndSplit | tools/comment_campaign_baseline_cli.py:140-162 | the loop with its two lists and its set of seen ids computes that split |
| CutoverSafety.ClosedStays | modules/comment/comment_event_store.py:102-184 | no step of the comment protocol reopens a closed comment |
| CutoverSafety.BaselineIsClosed | tools/comment_campaign_baseline_cli.py:180-265 | in every run, from the moment an apply succeeds every comment of the recorded baseline is closed, although it was read, classified and suppressed one by one beside the workers |
| CutoverSafety.ActiveMediaHasAClosedBaseline | tools/comment_campaign_baseline_cli.py:268-377 | so is the baseline of every ACTIVE media |
| CutoverSafety.SendsInTheEnd | modules/comment/comment_auto_reply.py:516-562 | a worker that can still send needs nobody's help to do so: the run that sends is given |
| CutoverSafety.SilentIffNothingInFlight | modules/comment/comment_auto_reply.py:365-562 | a closed comment is never answered again if and only if no worker that took it before is on its way to sending |
| CutoverSafety.TaggedIsSilent | modules/comment/comment_event_store.py:140-184 | a suppressed or shadow-seen comment has nothing in flight and never had anything sent under a claim |
| CutoverSafety.DoneIsSilent | modules/comment/comment_auto_reply.py:365-485 | an effect that is DONE in the table has nothing in flight, and went out exactly once |
| CutoverSafety.OldCommentsStayUnanswered | tools/comment_campaign_baseline_cli.py:180-377 | end to end: while a media is ACTIVE no comment of its baseline is answered again under a claim, exactly unless such a worker exists; and none exists for an effect that is DONE in the table, or on a tagged row |
| CutoverSafety.SafeByClassYetInFlight | tools/comment_campaign_baseline_cli.py:108-131 | a reachable event that the command calls safe and whose first worker can still send |
| CutoverSafety.CommandsAcceptTheSafe | tools/comment_campaign_baseline_cli.py:180-377 | over every reachable state of the workers in which a comment is called safe, the commands take its media to ACTIVE with that comment as the baseline, and leave that state as it is |
| CutoverSafety.CommandsSuppressTheNew | tools/comment_campaign_baseline_cli.py:180-377 | and with a comment nobody has seen as its baseline, that comment is suppressed by a row given in full, and nothing else changes for the workers |
| CutoverSafety.ActiveYetInFlight | tools/comment_campaign_baseline_cli.py:180-377 | so a state is reached in which a media is ACTIVE and a comment of its verified baseline can still be answered |
| DmProtocol.AtMostOneUncertainReply | modules/dm/dm_auto_reply.py:746-824 | over the whole life of a DM with a persistent event: once a reply may have arrived (sent, and not answered by a status from 400 to 499), none is tried any more, so at most one does; at most one handler has its claim confirmed, and without that nothing is tried |
| DmProtocol.NeverSentTwice | modules/dm/dm_auto_reply.py:420-474 | whoever is about to send owns the event, is alone in that position, and no reply that may have arrived went out before |
| DmProtocol.InvStep | modules/dm/dm_auto_reply.py:652-824 | every step of handlers, AI workers and retry executions keeps the agreement between the state of the event and the point each process has reached |
| DmProtocol.Alone | modules/dm/dm_receiver.py:191-230 | two processes are never both past the confirmed claim of one event, and no retry runs while the first handler is at work |
| DmProtocol.ClaimKept | modules/dm/dm_receiver.py:341-444 | claim, record, confirm: a handler goes on to reply only with its claim confirmed, which happens once |
| DmProtocol.TemplateKept | modules/dm/dm_auto_reply.py:996-1101 | the template path replies from STARTED and queues a retry only after a definite failure |
| DmProtocol.AiKept | modules/dm/dm_auto_reply.py:652-737 | the AI path replies from SENDING, and hands over to the queue only from STARTED after a definite failure, or ends in UNKNOWN |
| DmProtocol.RetryKept | modules/dm/dm_auto_reply.py:746-824 | a retry replies only after winning SENDING, and leaves the event retryable only after a definite failure |
| DmProtocol.HolderIsAlone | modules/comment/comment_event_store.py:265-283 | two concurrent retry executions are never both past that state change |
| DmProtocol.RetryGetsThrough | modules/dm/dm_auto_reply.py:746-824 | as long as every reply failed for certain, one undisturbed execution of the retry task sends: DONE after a status below 400, open for the next execution after nothing sent or a status from 400 to 499, otherwise UNKNOWN and flagged |
| DmProtocol.RetryStandsBack | modules/dm/dm_auto_reply.py:762-790 | an execution that finds the event DONE, UNKNOWN or SENDING does nothing |
| DmProtocol.FirstReplyGoesOut | modules/dm/dm_auto_reply.py:652-737 | a new message is recorded and closed, its reply tried once on either path, and the event left DONE, UNKNOWN and flagged, or open with a retry task, as the status says, and with a task in no other case |
| DmProtocol.ADuplicateIsDropped | modules/dm/dm_receiver.py:200-215 | a message that is there already, and not for the taking, is dropped without a trace |
| DmProtocol.UnrecordedIsNotAnswered | modules/dm/dm_receiver.py:378-392 | a message whose record failed is closed and not replied to |
| DmProtocol.ReadingDecides | modules/dm/dm_auto_reply.py:996-1030 | which reply goes on after reading the event, on each path |
| DmProtocol.AiFumbleEndsUnknown | modules/dm/dm_auto_reply.py:676-737 | whatever raises in the AI path, before the request or after its answer, and whether or not the write at hand took effect, ends UNKNOWN and flagged, with no retry |
| DmProtocol.AiUnqueuedEndsUnknown | modules/dm/dm_auto_reply.py:708-722 | a refused AI reply that cannot be queued ends UNKNOWN, so that none is open without a task |
| DmProtocol.AiHasNothingToSay | modules/dm/dm_auto_reply.py:692-695 | an AI with nothing to say sends and queues nothing |
| DmProtocol.TemplateUnqueuedStaysOpen | modules/dm/dm_auto_reply.py:1078-1082 | a refused template reply that cannot be queued stays open |
| DmProtocol.BuryingCloses | modules/comment/comment_event_store.py:363-373 | mark_dead closes the event and touches neither its owner nor its reply |
| DmProtocol.OutsideKeeps | modules/comment/comment_event_store.py:363-373 | burying a DM, and anything done to comments, does not loosen this |
| ReplySlots.PruningIsInvisible | modules/dm/dm_auto_reply.py:92-224 | under a clock that never goes back, every reserve in every mix of reserves, releases and holds is answered as if nothing had ever been pruned |
| ReplySlots.SaneMeans | modules/dm/dm_auto_reply.py:92-224 | exactly which pruning rules drop only entries that no longer block, at the microsecond resolution of the clock |
| ReplySlots.PoliciesAreSane | modules/dm/dm_auto_reply.py:83-224 | the four rules in use are of that kind, for every configured burst length, with their windows in microseconds |
| ReplySlots.ReservationsAreApart | modules/dm/dm_auto_reply.py:92-180 | two reservations of one key with no release in between are at least the window apart |
| ReplySlots.HoldIsKept | modules/dm/dm_auto_reply.py:161-232 | after an unknown outcome nothing is reserved for that buyer for an hour, whatever is released |
| ReplySlots.ReservedExactly | modules/dm/dm_auto_reply.py:92-232 | over every run under such a clock: a reservation is granted exactly when no granted one within the window stands unreleased, and nothing of unknown outcome happened within the hour |
| ReplySlots.Reservations.TryReserve | modules/dm/dm_auto_reply.py:161-180 | the map operations of a reservation, run-out holds and pruning included, are those the results are about |
| ReplySlots.Reservations.DropStale | modules/dm/dm_auto_reply.py:175-179 | deleting the stale keys one by one leaves exactly the fresh entries |
| Publisher.SinglePostIsSound | launcher/main.py:400-616 | whatever the network did: at most three media_publish requests, at most one of which reached the server; a definite failure made none; a success carries a media id; all name the one container, seen FINISHED, after which none was created; and a wait timed out only after thirty seconds |
| Publisher.CarouselIsSound | launcher/main.py:623-688 | the same for carousels, at whichever phase they stop |
| Publisher.PublishedMeansReady | launcher/main.py:623-688 | any publish request of a carousel means that before it every child was made from its url, in order, and seen FINISHED, the parent was made of exactly those children, the ledger accepted exactly that parent, and it was seen FINISHED |
| Publisher.PublishPhaseCounts | launcher/main.py:541-616 | all requests of the publishing phase but the last failed to connect |
| Publisher.Graph.WaitContainerFinished | launcher/main.py:466-538 | looks and sleeps in turn, three seconds or what is left of thirty; ready exactly on a FINISHED, the three deciding answers named exactly, and given up exactly when the time is up, never before |
| Publisher.AtMostTenLooks | launcher/main.py:476-530 | so a wait looks ten times at most, each look the interval after the one before |
| Publisher.Graph.PublishReadyContainer | launcher/main.py:541-616 | at most three requests for the same container, repeated only after a connect timeout; published exactly on an accepted answer with an id, and with that id, raised exactly on a body that is no object, unknown otherwise |
| Publisher.Graph.CreateContainer | launcher/main.py:438-458 | at most three attempts, ended by the first success |
| Publisher.Graph.PublishSingle | launcher/main.py:400-464 | runs the phases in order, each only if the one before succeeded, and its result is sound; a timeout takes at least thirty seconds |
| Publisher.Graph.PublishCarousel | launcher/main.py:623-688 | an invalid list makes no request at all; otherwise the run goes one of seven ways, the first failure ending it: a child not made, a child not ready, the parent not made, not confided or not ready, or published |
| Publisher.ValidItems | launcher/main.py:640-646 | valid are two to four different https addresses |
| Publisher.Graph.AwaitChildren | launcher/main.py:660-668 | the parent is begun only after every child was waited for and FINISHED; the first that is not names itself in the error |
| Publisher.Graph.PublishParent | launcher/main.py:670-688 | no wait and no publication without the ledger's acceptance of that parent, and the error names the step that failed |
| PublishPending.NothingIsForgotten | launcher/main.py:1022-1101 | in every reachable state, a post in uploading has a ledger entry if and only if the job that claimed it last is over, or had confided in the ledger, or its claim found an entry there that no round has removed since |
| PublishPending.WhatADeadJobLeaves | launcher/main.py:1347-1365 | the post of a job that died has no entry if and only if the job had not confided and its claim left none behind; what a confiding job leaves is an in_flight entry, and a job for a single post never confides |
| PublishPending.ADeadJobLeavesNoTrace | launcher/main.py:1023-1041 | the exception is real: a reachable state with an uploading post, no entry, and no job at work |
| PublishPending.RoundSettles | launcher/main.py:1604-1658 | an undisturbed round settles an entry of half an hour whose evidence allows a verdict, posted for a media id that was returned, failed for a refusal or a container that can be looked up: the post gets it, the entry goes, no job is touched |
| PublishPending.RoundHolds | launcher/main.py:1604-1658 | what cannot be settled, for want of evidence, of a lookup, or of the uploading status, keeps its status and its entry, which is reported once |
| PublishPending.RoundWritesItsVerdict | launcher/main.py:1604-1658 | a step of a round writes to a post only the verdict it confirmed, and to the ledger only at the end |
| PublishPending.RunsAreReleased | launcher/main.py:1604-1658 | a post is published no more often than it was made ready: reconciling and restarting never publish |
| PublishPending.RoundSparesTheNew | launcher/main.py:1642-1658 | the end of a round keeps every entry written since it began, and removes only one it judged itself, of a post out of uploading or in the hands of a later job that has written nothing |
| PublishPending.VerdictsRestOnJobs | launcher/main.py:1537-1645 | in every run, a round writes posted only for a post one of whose publishing jobs ended with that media id, never from a container lookup, and failed only if a job was refused or for the container of a job that had confided or lost track of it |
| PublishPending.PostedIsDeclared | launcher/main.py:1063-1101 | no step of a job or a round makes a post posted unless some job of that post succeeded |
| PublishPending.JobDeclaresItsOutcome | launcher/main.py:1058-1101 | in every run, what a job writes to its post is its own outcome, in both directions: posted exactly when its publishing run succeeded, failed exactly when it was refused, and nothing at any other step |
| PublishPending.RejectedIsDeclared | launcher/main.py:1058-1101 | no step of a job or a round makes a post failed unless a job of it was refused, or a round judged a container that one of its jobs had confided or lost track of |
| PublishPending.AJobRuns | launcher/main.py:1347-1419 | an undisturbed job, single or carousel, claims, runs once, and leaves post and ledger as given for each outcome, written or not |
| PublishPending.ALostWriteIsRepaired | launcher/main.py:1063-1085 | a success that could not be written is declared published by a later round, without publishing again |
| PublishPending.JobTrips | launcher/main.py:1381-1419 | an exception after the outcome was written leaves the verdict and adds a clue |
| PublishPending.AnUnconfidedJobFails | launcher/main.py:670-680 | a carousel whose container was not confided is not published and counts as refused |
| PublishPending.ALostClaim | launcher/main.py:1023-1025 | a claim whose answer was lost leaves the post uploading with nobody publishing it |
| PublishPending.JobTurnKeepsInv | launcher/main.py:1347-1419 | every step of a publishing job, single or carousel, keeps post, ledger and rounds in order |
| PublishPending.RoundTurnKeepsInv | launcher/main.py:1604-1658 | every step of a reconciling round does too, with any number of rounds at once |
| SlotGate.DailyBound | launcher/main.py:788-807 | at every time of day an account's claims number at most the slots begun plus the failed saves; with none failed, at most the distinct hours and the positive limit |
| SlotGate.CatchUp | launcher/main.py:928-945 | k polls of one hour that come to a post of the account raise its count to min(n + k, slots begun), whatever happens to other accounts |
| SlotGate.OneAPoll | launcher/main.py:928-945 | one claim a poll and account at most |
| SlotGate.FirstPostDecides | launcher/main.py:928-1020 | the first post of an account decides for all of them in a poll: claimed exactly with a slot open and every other check passed, the slot spent whether or not the spending was saved, and no later post has a turn |
| SlotGate.NoHoursNoGate | launcher/main.py:928-945 | an account without post_hours always has its turn, once a poll, and touches no count |
| SlotGate.ParseIsBounded | launcher/main.py:2826-2841 | never more slots than distinct hours, nor than a positive limit |
| SlotGate.ParseIsExact | launcher/main.py:2826-2841 | exactly which slots an account has: none for text that is no list of hours of the day, otherwise each distinct hour in order, the earliest first, up to a positive limit |
| SlotGate.DueCounts | launcher/main.py:788-807 | the slots begun are the hours not in the future |
| SlotGate.Ascending | launcher/main.py:2826-2841 | the hours are exactly the given ones below the bound, strictly ascending |
| SlotGate.Poller.RunPoll | launcher/main.py:924-1035 | the loop over the posts, with its memory, its set of accounts and its saves, is the poll the results are about; an unreadable state file changes nothing |
| SlotGate.Poller.OfferOne | launcher/main.py:928-1035 | one post: refused, passed without a slot, or claimed with exactly one slot spent, saved or lost |
| PublishLedger.PublishedOnceAndOnRecord | modules/common/aijomoojin_scheduled_publish_job.py:31-98 | over all runs, wherever they stop: the publish function is called at most once a key, and an Instagram id is in the ledger before any attempt to write it to Airtable |
| PublishLedger.PublishingIsEnteredOnce | modules/common/publish_ledger.py:45-138 | whoever uses the ledger and however, a key enters PUBLISHING at most once ever |
| PublishLedger.ARunSettles | modules/common/aijomoojin_scheduled_publish_job.py:31-98 | an undisturbed run calls the publish function once and leaves what came of it: PUBLISHED with the id, FAILED with the error, UNKNOWN with the container, or RECEIPT_PENDING when Airtable refused |
| PublishLedger.ASecondRunStops | modules/common/aijomoojin_scheduled_publish_job.py:31-60 | a key that is there, in whatever state, stops every later run before it does anything |
| PublishLedger.AnUnclaimedRunStops | modules/common/aijomoojin_scheduled_publish_job.py:31-60 | a run that cannot claim the post stops there, its key still reserved |
| PublishLedger.TidyIsTheMiddle | modules/common/publish_ledger.py:60-66 | what counts of a part of a key is everything between the blanks around it, without regard to case |
| PublishLedger.KeysTellContentApart | modules/common/publish_ledger.py:60-66 | for one account and channel, keys are equal exactly when the contents read the same trimmed and lower-cased |
| PublishLedger.KeysTellTriplesApart | modules/common/publish_ledger.py:60-66 | across accounts the same holds of all three parts when none contains the separator |
| PublishLedger.KeysCollideExactly | modules/common/publish_ledger.py:60-66 | across the accounts of one channel, keys are equal exactly when both parts read the same, or when one pair is the other with the boundary moved to another separator |
| PublishLedger.KeysCollide | modules/common/publish_ledger.py:60-66 | otherwise keys can collide: by a separator inside a part, or by two record ids that differ in case |
| PublishLedger.Ledger.Reserve | modules/common/publish_ledger.py:79-95 | succeeds exactly for a key with all parts that is not there yet, in whatever state |
| PublishLedger.Ledger.Transition | modules/common/publish_ledger.py:98-138 | happens exactly along the seven pairs of the table, and a blank id or error keeps what was stored |
| PublishLedger.MovedFacts | modules/common/publish_ledger.py:98-138 | no transition returns a key to RESERVED, drops a key, or touches another key's id |
| SafetyGuard.DailyBudgetHolds | modules/comment/comment_safety_guard.py:104-117 | whatever the configured budget, no more attempts than it allows on any UTC day, over any run with restarts |
| SafetyGuard.RepliesAreApart | modules/comment/comment_safety_guard.py:73-99 | whatever the configured cooldown, after a successful reply to a user the next request to the same user starts at least that much later |
| SafetyGuard.CircuitHolds | modules/comment/comment_safety_guard.py:125-138 | whatever the configured threshold and pause: once failures reach the threshold nothing is sent for the pause, and the first failure after it opens the circuit again unless a success or restart came between |
| SafetyGuard.SentExactly | modules/comment/comment_auto_reply.py:442-485 | over the whole history, an attempt is paid for exactly when the comment is eligible, no failure holds the circuit open, the user was not answered within the cooldown and the attempts of the day are fewer than the budget; and a reply goes out exactly when it is, and the claim stands |
| SafetyGuard.DaysAre | modules/comment/comment_safety_guard.py:104-117 | a day is a UTC date of 86400 seconds |
| SafetyGuard.FailuresAreTheStreak | modules/comment/comment_safety_guard.py:129-138 | the failure counter is the number of failures since the last success or restart |
| SafetyGuard.Guard.TryPrivateReply | modules/comment/comment_auto_reply.py:442-485 | the checks, the payment and the bookkeeping in their order are the step the results are about |
| SafetyGuard.Guard.ConsumeDailyBudget | modules/comment/comment_safety_guard.py:104-117 | pays exactly while something is left for today, and a new day starts from nothing |
| RetryQueue.CallsAreBounded | modules/common/retry_queue.py:132-174 | over any history the handler of a task is called at most max(1, max_attempts) times, and a done or dead task stays as it is and is called no more |
| RetryQueue.WorkEnds | modules/common/retry_queue.py:118-174 | a history has no more executions than the attempts there were and were added |
| RetryQueue.ExecutionMakesProgress | modules/common/retry_queue.py:132-174 | every execution uses up an attempt; done exactly on success; dead exactly without a handler or at the last attempt; otherwise due again after 10, 60 or 300 seconds; and the last error is the one it had |
| RetryQueue.NothingIsLost | modules/common/retry_queue.py:82-174 | after any history the queue holds exactly the tasks it held and those handed in, each under its number with its kind, payload and limit, and pending, done and dead add up to just these |
| RetryQueue.Queue.Enqueue | modules/common/retry_queue.py:82-93 | adds one pending task at the end and keeps the accounts |
| RetryQueue.Queue.PickDue | modules/common/retry_queue.py:118-130 | at most ten due tasks in order of their time, none left out that is due earlier than one taken, or while there is room |
| RetryQueue.Queue.Execute | modules/common/retry_queue.py:132-166 | changes that one task, calls its handler exactly when there is one, and leaves strictly less work |
| RetryQueue.Queue.ProcessDue | modules/common/retry_queue.py:118-130 | a round is a history of one execution of each task of the batch, in order, so all that holds of histories holds of it; it touches nothing else, and leaves less work by at least one for each |
| CanaryGuard.BudgetHolds | modules/common/canary_execution_guard.py:129-233 | over any calls by any guards sharing the table, some of which may raise after their commit: a run id is begun at most once, and permissions never exceed the limit of the one guard that began it |
| CanaryGuard.BudgetIsThere | modules/common/canary_execution_guard.py:168-233 | and all of it can be had: a guard that began its run and asks n times gets exactly min(n, limit) permissions |
| CanaryGuard.EndsExactly | modules/common/canary_execution_guard.py:242-260 | the guard that began a run can end it while it runs, and nobody else can |
| CanaryGuard.EndedForGood | modules/common/canary_execution_guard.py:242-260 | a run that has ended gives no more permissions and is never begun again |
| CanaryGuard.ExecutionGuard.Start | modules/common/canary_execution_guard.py:129-166 | begins exactly an unused run id in an approved context |
| CanaryGuard.ExecutionGuard.AuthorizeWrite | modules/common/canary_execution_guard.py:168-233 | permits exactly a running run of this guard, the approved record and an unspent limit, and spends it first; a refusal spends nothing |
| CanaryGuard.ExecutionGuard.MarkTerminal | modules/common/canary_execution_guard.py:248-260 | ends exactly a running run that this guard began, in a live context |
| CanaryGuard.Exporter.ExportExact | modules/crawlers/source_exporter.py:92-158 | with a failure possible at every call, the export goes its one way through permissions and requests to the end, each permission given just when the guard gives it; an ineligible item is left alone; and it succeeds exactly when the last request declared it exported and went well |
| CanaryGuard.ExportIsBounded | modules/crawlers/source_exporter.py:92-158 | so the requests are one of six sequences, each paid for beforehand: at most two source patches and one post, never both exported and rejected, exported only after the post was created |
| CanaryGuard.SmoothExportSucceeds | modules/crawlers/source_exporter.py:92-158 | with its budget untouched and nothing going wrong, an export claims, creates and finishes |
| CanaryGuard.ExportsShareOneBudget | modules/crawlers/source_exporter.py:92-158 | any number of exports by any guards, interleaved and breaking off anywhere: the requests under a run id stay within the budget of the guard that began it, two source patches and one post in all for an export run |
| Onboarding.RegistryStaysUnique | tools/onboard_meta_accounts.py:81-299 | Instagram ids, page ids and credential keys stay unique in the registry whatever part of a plan is applied, in whatever order, wherever it stops |
| Onboarding.FilledCellsStay | tools/onboard_meta_accounts.py:186-197 | no cell that held something is changed |
| Onboarding.ProtectedRowsStay | tools/onboard_meta_accounts.py:118-126 | nothing ready concerns a protected identity, and its rows stay as they are |
| Onboarding.OrderIndependent | tools/onboard_meta_accounts.py:111-212 | permuting the pages permutes the plan: the item of a page depends on neither its place nor the order of the others |
| Onboarding.SurvivorsAreApart | tools/onboard_meta_accounts.py:200-208 | items left in a plan differ pairwise in identity, Instagram id, page id and credential key |
| Onboarding.AfterKeeps | tools/onboard_meta_accounts.py:200-208 | an item survives the duplicate pass, unchanged, exactly when it clashes in no column; otherwise it is skipped for the first it clashes in, and writes nothing |
| Onboarding.ClashesExactly | tools/onboard_meta_accounts.py:200-208 | two live items clash exactly when they share a value of the column that is not empty |
| Onboarding.LiveIsFit | tools/onboard_meta_accounts.py:111-197 | what is decided for a page names an unprotected identity with exactly one row, writes empty cells only, and no value that another row holds |
| Onboarding.LiveExactlyWhen | tools/onboard_meta_accounts.py:111-197 | a page is handled exactly when no id or name links it to a protected identity, it belongs to one identity by id, or without ids by every name it has, that identity has one row, and nothing opposes: no other value in a cell, no other row with its ids or key, the environment at most once and in agreement |
| Onboarding.NothingToDoExactly | tools/onboard_meta_accounts.py:186-197 | a handled page is called no_change exactly when there is nothing to assign, no cell to fill and no variable to add |
| Onboarding.ReasonsAreTrue | tools/onboard_meta_accounts.py:111-160 | why a page is left alone is said truly: protection first, then two identities by id, then names that all contradict the one id, then names that disagree |
| Onboarding.NormSplits | tools/onboard_meta_accounts.py:47-48 | names are compared character by character |
| Onboarding.NormOfOne | tools/onboard_meta_accounts.py:47-48 | and of those, blanks, slashes and at signs do not count, nor does case |
| Onboarding.AKnownAccountIsLive | tools/onboard_meta_accounts.py:111-197 | a witness that pages are handled at all: a registry of one unprotected row that has the Instagram id of a page-less account, with nothing else to match or to conflict |
| Onboarding.AppliedRowIsComplete | tools/onboard_meta_accounts.py:168-197 | once an item with an Instagram id is applied, every wanted cell of its row holds the wanted value, whatever else was applied |
| Onboarding.ChangedCell | tools/onboard_meta_accounts.py:246-299 | a cell that changed was empty and holds what an applied item of that row wanted there |
| Onboarding.BuildPlan | tools/onboard_meta_accounts.py:81-212 | the two passes compute the plan the results are about |
| Onboarding.DropDuplicates | tools/onboard_meta_accounts.py:200-208 | rewriting the items column by column in place gives the same as judging each against all initially live ones |
| Onboarding.MergeIgOnly | tools/onboard_meta_accounts.py:67-78 | keeps the pages, and adds exactly one page-less entry for every account id that no page has |
| Onboarding.MergeIsOrderFree | tools/onboard_meta_accounts.py:67-78 | which Instagram ids the list ends up with does not depend on the order of the accounts |
| Onboarding.Registry.ApplyPlan | tools/onboard_meta_accounts.py:246-299 | whatever fails and wherever: the registry is the old one with the patches that landed, all of ready items; the writes begun are the intended ones in their order, all of them unless one failed; and every write that may have landed is reported as applied or unknown |

## Left out

- HTTP, SQLite, JSON files, threads and locks: a locked or transactional operation is one step; tables are maps; token strings, timestamps such as updated_at, and list_stale_effects are not modelled.
- reclaim_stale: it is not on the runtime path.
- Sends in disabled and shadow mode, and of media outside the campaign: they are not deduplicated; the model only remembers that such a comment was handled that way.
- Airtable lookup-then-create is not atomic, and the model does not claim that a comment has a single record; records are never deleted by people.
- DmProtocol.AtMostOneUncertainReply: is about DMs with a persistent event only; without the event flag, or without a message id, the source promises nothing of the kind.
- DmProtocol.ClaimKept: leaves out lead scoring, order detection and the Telegram alert, which touch no event state.
- The baseline commands' own checks of environment flags, of the dry-run hash and of the acknowledgement flag before activation: each only makes the commands refuse more often.
- Publisher.Graph.PublishSingle: does not model image preprocessing, the text of error details, or the waits between media attempts.
- PublishPending.NothingIsForgotten: assumes a single worker a post, as the claim is a blind PATCH; that nobody else sets a post to uploading; and clock readings that never go back.
- PublishPending.JobDeclaresItsOutcome: models the status that is written to a post, not the media id and error code written with it.
- PublishPending.RunsAreReleased: rests on the same assumption about the claim.
- SlotGate.DailyBound: post_hours is fixed, one poll runs at a time, and its text is modelled by the list of integers it parses to.
- SafetyGuard.RepliesAreApart: assumes that the state files are written; an empty user name has no cooldown in the source either.
- CutoverSafety.OldCommentsStayUnanswered: speaks of replies under a claim; in disabled and shadow mode the source replies past the inbox, to baseline comments of an ACTIVE media too.
- CanaryGuard.ExecutionGuard.Start: does not raise after its commit; the calls of CanaryGuard.BudgetHolds do.
- Onboarding.AKnownAccountIsLive: is a witness; Onboarding.LiveExactlyWhen is the general statement.
- RetryQueue.CallsAreBounded: assumes no crash between a handler's return and the bookkeeping write.
- ReplySlots.HoldIsKept: only the template_en map has holds in the source; for the other maps no hold is ever set.
- Onboarding.BuildPlan: normalises ASCII letters and the usual blanks only, takes environment values as already trimmed, and leaves out the filter on chosen identities, which only removes items.
- Onboarding.Registry.ApplyPlan: the read-only look after a failed write is taken to be right whenever it answers.
- Onboarding.MergeIsOrderFree: speaks of ids; of two accounts with one id, the first listed gives the user name.
- PublishLedger.PublishedOnceAndOnRecord: other users of the ledger are taken to write no post id.
- The Streamlit dashboard, monitors, migrations, persona and caption gates, vault packages, Threads publishing, text filters and encryption: plumbing, or easy members.
