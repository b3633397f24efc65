# Verified bookkeeping of the herdr Telegram bridge

A Dafny model of the daemon's bookkeeping: the state it keeps in memory, on disk
and in Telegram, and the proofs that the three stay in agreement although any
write, any call and the process itself can fail at any time.

Check it with `dafny verify dfyconfig.toml`.

## Modules

| module | what it covers |
|---|---|
| Keys | agent keys, their two text forms, unpadded base64url (RFC 4648, section 5) |
| Topics | topic entries, live agents, and the matching rules as predicates |
| Sorting | the byte-wise order of texts, walks and sorting in order |
| Reassociation | what a matching plan and its application promise |
| Planning | the loops that compute a plan and carry it out |
| Mapping | the mapping object, changed in place |
| World | Telegram and the disk, with every outcome left open, and the guard against duplicate topics |
| TopicRules | when a topic shows its agent, when a mapping is settled, how steps add up |
| Agreement | what Telegram shows agrees with the mapping, but for what is known to be unsure |
| Reconciler | the single writer of forum topics, its sweep, and whole runs with crashes; each operation reports the failure that ended it (`Reported`) |
| Dashboard | the one pinned message and its creation intent |
| SharePolicy | grants, mirrors, access rules and every step of the policy writer, as values |
| ShareRuns | what every run of those steps keeps |
| ShareTables | each step and each decision of the policy writer field by field, and who may do what |
| Sharing | the policy writer and the private topics, proved to take those steps |
| HistoryRules | what a screen history means, and its relation to a transcript |
| History | the history object, changed in place |
| Versions | version precedence and section 11 of Semantic Versioning 2.0.0 |
| UpdateWorker | the journalled self-update |
| Debouncer | delayed edits and their timer goroutines, as interleaved steps |
| Registry | the stream of agent changes and the retirement of keys |
| PrivateOutput | the bounded queue of private deliveries |

Objects that the program updates in place are classes; each method is proved
against a predicate or a function, and the promises of the program are proved
about those. Files, Telegram, the supervisor and the installer answer
nondeterministically: a write may fail before or after it took effect, a create
request may be carried out without an answer, topics may be deleted by hand. The
process may die between any two operations.

Main results: `Reconciler.Run` (over any run no duplicate topic, and Telegram shows
what is recorded but for what is accounted for), `Reconciler.Reconciler.Reconcile`
(one pass settles, fails exactly when an agent is stuck, and the next pass does
nothing), `Agreement.SettledIsShown` (settled means shown),
`Reconciler.ReportAndFire` (a reported change is shown by its delayed edit),
`Mapping.Mapping.PlanReassociation` with the lemmas of `Reassociation`,
`ShareTables.BeginAdmits`, `ShareTables.RevivedExactly`,
`ShareRuns.NoStaleDispatch` with `ShareRuns.ChangeWithoutCancel`,
`ShareRuns.DeniedExactly`, `ShareRuns.IdentityForever`, `ShareRuns.RequestsBounded`,
`HistoryRules.HistoryIsTranscript` with `HistoryRules.DistinctExactly`,
`UpdateWorker.Worker.Run`, `Debouncer.Interleave`, `Registry.Run`,
`PrivateOutput.Drain`, `Versions.CompareIsSemVer`.

## Where code and documentation differ

The model follows the code.

- internal/domain/sharing.go:82-83 says that a transition never revives a revoked
  grant. `ChangeState` accepts pending for a revoked or expired grant, and
  `ActivateMirror` then makes it active: `ShareRuns.PendingReopens`. Exactly that
  change and an accepted owner grant end a denial (`ShareRuns.DeniedStep`,
  `ShareRuns.DeniedExactly`). The owner panel never asks for pending.
- internal/app/dashboard.go:322-326 says that switching the dashboard off never
  leaves a live-looking message behind. `Dashboard.OffLeavesOrphan` shows one, and
  `Dashboard.LeftBehindExactly` says exactly when: the deletion fails for a reason
  that passes, the off note fails without being refused, and neither worked without
  an answer.
- The dashboard's creation intent is meant to block a second message until an
  unknown outcome is resolved. `SetDashboardID` clears it whenever a message is
  forgotten, so `Repin` at the next start or `remove` drops an unresolved intent if
  the message recorded before it is gone. `Dashboard.ForgettingIsSafe` gives the
  exact condition: forgetting is safe if and only if no creation is unresolved.
- internal/domain/sharing.go:59-61 says that each change of a grant invalidates work
  admitted before. An agent event that cannot be saved suspends the grants of its
  pane without cancelling their work or making a new revision
  (internal/app/sharing.go:531-539): `ShareRuns.FailedSaveKeepsWork`.
  `ShareRuns.ChangeWithoutCancel` says exactly when, for every operation.
- internal/app/reconciler.go:30-37 says that lost rights, the sync switch and quiet
  hours each block every Telegram write. A topic that an operator reopens is revived
  whatever they say: `Reconciler.PausedYetSends`. `Reconciler.Reconciler.Resume` and
  `OnTopicReopened` say exactly when something is sent although writes are blocked:
  the agent runs and its entry is recorded as finished.

## Model

| member | source | states |
|---|---|---|
| Keys.DecodeEncode | internal/domain/agent.go:87-89 | base64url decoding returns every byte string that was encoded |
| Keys.Vectors | internal/domain/agent.go:87-89 | the encoding meets test vectors of RFC 4648, section 10, without padding |
| Keys.StringParse | internal/domain/mapping.go:114-140 | an accepted storage key holds a well-formed key, and printing that key gives back the accepted text |
| Keys.ParseString | internal/domain/mapping.go:114-140 | a key is read back from its printed form if and only if it is well-formed |
| Keys.StringInjective | internal/domain/agent.go:23-28 | two well-formed keys never print alike, so they never share a slot of the mapping |
| Keys.IdentifiedIsSame | internal/domain/mapping.go:192-197 | a stored key that passes the exact-match test of a live agent is that agent's own key |
| Planning.Entries | internal/domain/mapping.go:147-154 | collects exactly the readable stored keys |
| Planning.UniqueAgents | internal/domain/mapping.go:155-166 | keeps one agent per key, the first |
| Planning.ExactPass | internal/domain/mapping.go:188-198 | assigns exactly the exact matches |
| Planning.SessionSets | internal/domain/mapping.go:203-218 | lists, for each unmatched agent, exactly the unused entries of its session |
| Planning.CandidateOwners | internal/domain/mapping.go:353-364 | names, for each entry, exactly the agents that could take it |
| Planning.SessionPass | internal/domain/mapping.go:219-231 | assigns and refuses exactly what the session rule says |
| Planning.FallbackSets | internal/domain/mapping.go:237-252 | lists, for each agent still open, exactly the unused entries its metadata fits |
| Planning.Select | internal/domain/mapping.go:255-270 | picks the single live candidate, else the single candidate, else none |
| Planning.FallbackPass | internal/domain/mapping.go:253-276 | assigns and refuses exactly what the metadata rule says |
| Planning.PlanComplete | internal/domain/mapping.go:278-291 | the three passes together decide every agent once, assigned or refused, and leave nothing out |
| Planning.OrderPlan | internal/domain/mapping.go:281-289 | a plan rearranged by agent, then by old key, is still a plan |
| Sorting.SortBy | internal/domain/mapping.go:281-289 | sorting gives an ordered rearrangement: same elements, same multiplicities, non-decreasing |
| Planning.ApplyPlan | internal/domain/mapping.go:295-351 | an error exactly for plans that are not applicable, otherwise the moved table |
| Planning.CarryOut | internal/domain/mapping.go:333-350 | carries out the moves in any order; its occupied check cannot fire |
| Mapping.Mapping.PlanReassociation | internal/domain/mapping.go:145-291 | the plan is exactly what the declarative matching rules demand, ambiguities included, each agent once, in the order of the keys |
| Mapping.Mapping.ApplyReassociation | internal/domain/mapping.go:295-351 | all moves at once or none: the error case leaves the mapping unchanged |
| Reassociation.DestinationInjective | internal/domain/mapping.go:325-348 | re-keying by an applicable plan never merges two entries, whatever cycles it contains |
| Reassociation.MovedUnique | internal/domain/mapping.go:339-348 | the result does not depend on the order in which the moves are made |
| Reassociation.MovedConserves | internal/domain/mapping.go:295-351 | no entry is lost or duplicated and the same threads stay linked |
| Reassociation.ExactIffStored | internal/domain/mapping.go:188-198 | a well-formed live key is an exact match if and only if it is stored |
| Reassociation.AssignsOnce | internal/domain/mapping.go:219-276 | two agents never get the same entry |
| Reassociation.AssignsOne | internal/domain/mapping.go:188-276 | one agent never gets two entries, nor for two reasons |
| Reassociation.PlanApplicable | internal/domain/mapping.go:295-331 | a plan for well-formed keys is always accepted |
| Reassociation.AssignedBecomesExact | internal/domain/mapping.go:145-351 | every assigned agent is an exact match to itself once the plan is applied, with the entry it was assigned |
| Reassociation.NoConflict | internal/domain/mapping.go:185-187 | no assignment joins keys of different panes or of two known, different sessions |
| Reassociation.OneFallbackPerLookAlike | internal/domain/mapping.go:233-236 | of live agents that pane, directory, kind and name cannot tell apart, at most one is matched by metadata |
| Reassociation.FallbackCandidate | internal/domain/mapping.go:233-252 | whom metadata matches: the same pane, a session missing on one side, a known directory equal to the recorded one or none recorded by an older version, no other kind, and the stored name equal to the desired one of at most 128 characters |
| Reassociation.FallbackAgrees | internal/domain/mapping.go:366-380 | so an assignment by metadata joins only what agrees in all of that |
| Reassociation.OneToOne | internal/domain/mapping.go:203-276 | for one agent and one entry of another run: assigned by session or by metadata if and only if the fields say so |
| Reassociation.MarkerStripped | internal/domain/status.go:94-101 | a stored name is compared without one leading status marker of older versions and the blanks after it |
| Reassociation.OthersKept | internal/domain/status.go:94-101 | and without such a marker as it is |
| Mapping.Mapping.Link | internal/domain/mapping.go:435-446 | the whole new entry: confirmed or desired name, status, cwd, kind and time of the link, not muted; no other entry changes |
| Mapping.Mapping.UpdateMetadata | internal/domain/mapping.go:451-470 | afterwards all that the agent reports is known, what it does not report is as it was, and the topic is untouched; it answers whether anything was new |
| Mapping.Mapping.Update | internal/domain/mapping.go:495-538 | replaces and stamps an existing entry, ignores a missing one |
| Mapping.Mapping.Forget | internal/domain/mapping.go:542-544 | drops one entry and no other |
| Mapping.Mapping.StoredKeys | internal/domain/mapping.go:650-668 | every key that can be read back, once, in the order of its text |
| Mapping.Mapping.Orphans | internal/domain/mapping.go:549-561 | exactly the readable, unmuted, running entries without a live agent, in key order |
| Mapping.Mapping.Unclosed | internal/domain/mapping.go:565-574 | exactly the readable, unmuted, finished entries whose topic is open, in key order |
| Mapping.Mapping.KeyForThread | internal/domain/mapping.go:396-411 | the key of the newest entry of the thread, running before finished and then first by key; none if that entry cannot be read back or nobody claims the thread |
| Mapping.Mapping.Stale | internal/domain/mapping.go:587-604 | exactly the readable, closed entries of finished agents older than the limit, each once, oldest first and ties by key |
| Mapping.BestByThread | internal/domain/mapping.go:624-631 | for each thread the entry that beats all others of it: newer, then running, then first by key |
| Mapping.DropOthers | internal/domain/mapping.go:632-639 | removes every entry that is not its thread's best, and counts them |
| Mapping.BestKept | internal/domain/mapping.go:621-640 | keeping the best of each thread gives exactly the entries that beat all others of their thread |
| Mapping.DedupedKeeps | internal/domain/mapping.go:621-640 | what remains has one entry per thread and every thread; a table without duplicates stays as it was |
| Mapping.Mapping.DedupeThreads | internal/domain/mapping.go:623-640 | exactly the entries that beat all others of their thread remain, so one for each and no thread is lost; without duplicates nothing happens |
| Mapping.BestExactly | internal/domain/mapping.go:623-649 | in terms of times, states and keys: the later change wins, then the running entry, then the first key |
| Mapping.StaleExactly | internal/domain/mapping.go:587-604 | an entry is stale exactly if it is closed, finished, and its last change is longer ago than the limit |
| Mapping.OlderExactly | internal/domain/mapping.go:596-602 | the order of a sweep: by time, then by key |
| World.GuardedSameThreads | internal/app/reconciler.go:465-508 | re-keying entries, changing them and dropping those of vanished topics keep the guard |
| World.GuardedCreate | internal/app/reconciler.go:465-481 | a topic may be asked for once its intent is recorded and no unlinked topic of the agent exists |
| World.GuardedLink | internal/app/reconciler.go:499-503 | linking the new topic makes the intent unnecessary |
| World.GuardedFewer | internal/app/reconciler.go:789-796 | topics that vanish never break the guard |
| TopicRules.GuardedWithoutIntent | internal/app/reconciler.go:482-492 | an intent may be dropped when its request is known to have failed |
| World.World.Save | internal/app/reconciler.go:817-828 | a write that fails may or may not have replaced the file |
| World.World.CreateTopic | internal/app/reconciler.go:482-498 | a create request needs its intent on disk and no unlinked topic of the agent; it may work without an answer |
| World.World.Touch | internal/app/reconciler.go:789-815 | an edit, close or reopen request; gone means the topic does not exist; what it is about is sure once accepted and unsure otherwise |
| World.World.Meddle | internal/app/reconciler.go:602-651 | an operator's change makes exactly its parts unsure |
| World.AccountedRefused | internal/app/reconciler.go:789-815 | a refused request accounts for what it makes unsure |
| World.World.Delete | internal/app/sweep.go:56-66 | a delete request; accepted or gone means the topic does not exist |
| Agreement.AgreedTold | internal/app/reconciler.go:789-815 | an accepted request and its record keep Telegram and mapping in agreement |
| Agreement.AgreedRefused | internal/app/reconciler.go:789-815 | a request that was not accepted leaves exactly what it was about unsure |
| Agreement.AgreedMade | internal/app/reconciler.go:482-498 | a create request, answered or not, changes no other topic |
| Agreement.AgreedLink | internal/app/reconciler.go:499-503 | a topic that was just made looks as it is recorded |
| Agreement.AgreedMoved | internal/app/reconciler.go:336-410 | taking over entries keeps the agreement |
| Agreement.AgreedAfterCrash | internal/app/reconciler.go:817-836 | after a crash the file is in agreement but for the entries that were not written |
| TopicRules.Diff | internal/domain/mapping.go:475-492 | empty exactly when nothing differs or the topic is finished; applying it reaches the desired name and status |
| TopicRules.RequestsShow | internal/app/reconciler.go:416-597 | if a topic looked as recorded, the requests of an edit, a revival or an exit make it look as wanted; a forced edit does so whatever it looked like |
| TopicRules.ServeOneMore | internal/app/reconciler.go:303-315 | serving one more agent leaves the topics of all others as they were |
| TopicRules.MovesFromDead | internal/app/reconciler.go:357-361 | an entry that is taken over did not belong to a live agent |
| TopicRules.MovedFromExactly | internal/app/reconciler.go:357-361 | the keys that are no longer known after taking over are exactly those the assignments move away from |
| TopicRules.AllExactMovesNothing | internal/app/reconciler.go:336-383 | when every live agent has its entry, the plan moves nothing |
| TopicRules.LearnedAll | internal/app/reconciler.go:352-380 | after reassociation every entry of a live agent knows what the agent reports |
| TopicRules.AdoptedExactly | internal/app/reconciler.go:336-410 | after reassociation a live agent has an entry if and only if the matching rules assign it one |
| TopicRules.StuckAreHindered | internal/app/reconciler.go:465-470 | so the agents that creation will refuse are known before the pass: an unresolved request and no entry to take over |
| TopicRules.NothingToLearn | internal/app/reconciler.go:381-383 | when all that is known already, reassociation changes nothing |
| TopicRules.PassSettles | internal/app/reconciler.go:258-317 | the steps of a pass add up: the dead are finished, the live shown up to the first stuck one, and with nobody stuck the table is settled |
| TopicRules.ServedUpTo | internal/app/reconciler.go:302-316 | service in key order reaches everybody before the first agent that is stuck |
| TopicRules.SettledNeedsNothing | internal/app/reconciler.go:258-317 | a settled table gives no step of a pass anything to do |
| Agreement.PartsSureOf | internal/app/reconciler.go:245-256 | what a forced service made sure holds for every live agent, judged by its topic after reassociation |
| TopicRules.OthersFinished | internal/app/reconciler.go:291-301 | finishing other topics leaves those of live agents running |
| Agreement.SettledIsShown | internal/app/reconciler.go:245-250 | in a settled mapping Telegram really shows every live agent's topic under its name, with its status, and open, unless it is muted, unsure or deleted |
| Agreement.SettledIsFinished | internal/app/reconciler.go:245-250 | and the topic of every other agent finished and closed |
| Reconciler.Reconciler.Save | internal/app/reconciler.go:817-828 | success means that memory is on disk; failure is remembered |
| Reconciler.Reconciler.PersistPending | internal/app/reconciler.go:830-836 | retries only a failed write |
| Reconciler.Reconciler.Fail | internal/app/reconciler.go:789-815 | a gone topic's entry is dropped and that is written; a refusal that concerns the whole bot and a cancelled call are returned; anything else is left to the next pass |
| Reconciler.Reconciler.Tell | internal/app/reconciler.go:789-815 | one request about an entry, recorded exactly once it is accepted; only what a refused request was about becomes unsure |
| Reconciler.Reconciler.CreateTopic | internal/app/reconciler.go:465-508 | an unresolved intent refuses without any effect; otherwise one request, and afterwards exactly an unanswered one keeps its intent; when nothing fails the agent is served |
| Reconciler.Reconciler.AskForTopic | internal/app/reconciler.go:482-508 | the request itself: rejected drops the intent and keeps the table, unanswered keeps both the intent and the table, answered links the one new topic |
| Reconciler.Reconciler.Record | internal/domain/mapping.go:495-538 | records an accepted change of one entry and writes the mapping |
| Reconciler.Reconciler.Close | internal/app/reconciler.go:580-597 | sends the close request exactly for an open topic; when nothing fails the topic is finished and closed |
| Reconciler.Reconciler.Exit | internal/app/reconciler.go:546-578 | sends the finished icon and the close request, each only if needed and nothing for a muted topic; when nothing fails the topic is finished and closed |
| Reconciler.Reconciler.Flag | internal/app/reconciler.go:560-577 | sends the finished icon; done only if it was accepted and written |
| Reconciler.Reconciler.Revive | internal/app/reconciler.go:416-463 | reopens if closed, always sends the status; when nothing fails the old topic shows the agent |
| Reconciler.Reconciler.Refresh | internal/app/reconciler.go:436-462 | the second half of a revival; a topic found gone is replaced under an intent |
| Reconciler.Reconciler.Show | internal/app/reconciler.go:439-462 | always sends the status, the name if it differs; a topic found gone is replaced under an intent |
| Reconciler.Reconciler.Recreate | internal/app/reconciler.go:446-455 | a topic found gone is forgotten and made anew under an intent |
| Reconciler.Reconciler.Unlock | internal/app/reconciler.go:424-437 | a closed topic is reopened first; one found gone is replaced |
| Reconciler.Reconciler.Create | internal/app/reconciler.go:319-334 | nothing while writes are paused; a muted topic stays untouched; otherwise the agent is served |
| Reconciler.Reconciler.Edit | internal/app/reconciler.go:510-544 | sends exactly the difference, or everything when forced, and nothing for an up-to-date or muted topic; when nothing fails the agent is served, and a forced edit makes name and icon sure again |
| Reconciler.Reconciler.Send | internal/app/reconciler.go:537-543 | one edit with exactly the given parts, recorded only once accepted |
| Reconciler.Reconciler.Learn | internal/app/reconciler.go:352-380 | learns the metadata of every assigned agent, changes no topic, reports whether anything changed |
| Reconciler.Reconciler.Reassociate | internal/app/reconciler.go:336-410 | makes no call; the agents take over exactly what a plan assigns them, one entry per topic is kept, all metadata is known; idle when nothing is to be learned |
| Reconciler.Reconciler.ExitOrphans | internal/app/reconciler.go:291-296 | when nothing fails every unmuted entry without a live agent is finished and no topic changes hands |
| Reconciler.Reconciler.CloseFinished | internal/app/reconciler.go:297-301 | when nothing fails every unmuted finished topic is closed |
| Reconciler.Reconciler.Serve | internal/app/reconciler.go:304-311 | creates, revives or edits as the entry demands; refuses exactly an agent without an entry whose request is unresolved |
| Reconciler.Reconciler.ServeLive | internal/app/reconciler.go:302-316 | when nothing fails the agents are served in key order up to the first one without an entry and with an unresolved request; an error if and only if there is one |
| Reconciler.Reconciler.Dedupe | internal/app/reconciler.go:273-278 | exactly the best entry of each thread stays, writing only if something was dropped |
| Reconciler.Reconciler.Adopt | internal/app/reconciler.go:279-290 | after taking over a snapshot its agents are exactly the known ones, all their metadata is known, and the agents without entry and with an unresolved request are those the rules predict |
| Reconciler.Reconciler.Replay | internal/app/reconciler.go:291-316 | when nothing fails: the dead finished, the live shown up to the first hindered one, an error if and only if there is one; nothing at all on a settled table |
| Reconciler.Reconciler.Reconcile | internal/app/reconciler.go:258-317 | when nothing fails one pass finishes every topic without an agent and shows every agent; any failure is reported and ends it; it fails if and only if some agent has an unresolved request and the rules assign it no stored entry, and then everybody before it is shown; a second pass sends and writes nothing |
| Reconciler.Reconciler.Resync | internal/app/reconciler.go:252-256 | the same guarantee with everything sent again, whatever Telegram showed: afterwards the icon of every running topic is sure, and its name unless reassociation left it finished |
| Reconciler.Reconciler.Handle | internal/app/reconciler.go:180-211 | any failure is reported and ends it; the report is remembered, and of the other agents exactly those are forgotten whose entries were taken over; when nothing fails a gone agent's topic is finished, and a new agent is shown, or refused exactly if its request is unresolved and the rules assign it no entry; a change of an agent with a running topic sends nothing |
| Reconciler.ReportAndFire | internal/app/reconciler.go:180-206 | a report and then the delayed edit of its key, with writes unblocked and nothing failing: the topic shows the agent as reported |
| Reconciler.Reconciler.Recall | internal/app/reconciler.go:190-194 | the agent is remembered as reported and takes over the entry that is its own; of the other agents exactly those whose entries it took are forgotten |
| Reconciler.Reconciler.Meet | internal/app/reconciler.go:188-206 | the entry is looked for first; then the agent is served, waits for its edit, or is refused exactly if it is stuck |
| Reconciler.Reconciler.Attend | internal/app/reconciler.go:195-206 | a change of an agent with a running topic sends nothing; everything else is done at once |
| Reconciler.Reconciler.OnTopicClosed | internal/app/reconciler.go:602-624 | makes no call: the topic of the entry that claims the thread is muted if its agent runs, else recorded as closed |
| Reconciler.Reconciler.OnTopicReopened | internal/app/reconciler.go:628-651 | when nothing fails the topic is shown again, unmuted, or finished and closed again, and its icon is sure |
| Reconciler.Reconciler.Reopen | internal/app/reconciler.go:634-641 | lifts the mute and records the topic as open; if it was muted its icon is unsure, as an exit was never sent |
| Reconciler.Reconciler.Resume | internal/app/reconciler.go:642-651 | shows or finishes the topic, after which its icon is sure again |
| Reconciler.PausedYetSends | internal/app/reconciler.go:30-40 | the switches do not hold back a revival: a finished topic whose agent runs again and that the operator reopens is written to although writes are paused |
| Reconciler.Reconciler.Finish | internal/app/reconciler.go:653-668 | sends the finished icon whatever the mapping believes, then closes; both are sure afterwards |
| Reconciler.Reconciler.Sweep | internal/app/sweep.go:20-94 | asks for the deletion of the oldest stale topics, at most one batch; drops and counts exactly the confirmed ones; ends early only with a refusal, which is no error, a cancelled call or a failed write; a no-op when off, paused or without the right |
| Reconciler.Reconciler.StaleBatch | internal/app/sweep.go:40-56 | the oldest stale entries, no more than a batch |
| Reconciler.Reconciler.SweepKeys | internal/app/sweep.go:57-94 | one deletion after the other until a refusal, a cancelled call or a failed write |
| Reconciler.Reconciler.SweepOne | internal/app/sweep.go:57-90 | one deletion; the entry goes exactly when the topic is confirmed gone, and only a cancelled call or a failed write is an error |
| TopicRules.SweptMore | internal/app/sweep.go:56-90 | a further deletion still drops only stale entries of vanished topics |
| Reconciler.Reconciler.DeleteTopic | internal/app/sweep.go:56-66 | forgets the entry exactly when the deletion is confirmed |
| Reconciler.Reconciler.Restart | internal/app/reconciler.go:61-88 | a new process knows what is on disk and nothing else; what was not on disk becomes unsure |
| Reconciler.Reconciler.Work | internal/app/reconciler.go:180-317 | whatever the program does of its own accord, something becomes unsure only by a request that is not accepted |
| Reconciler.Reconciler.Take | internal/app/reconciler.go:180-651 | and what operators and crashes add is named |
| Reconciler.Run | internal/app/reconciler.go:465-508 | over any run of events, passes, operator actions, sweeps and crashes: at every moment each unlinked topic is covered by its agent's intent on disk and no agent has two; and after it Telegram shows every existing topic as recorded but for its unsure parts, each of which was unsure before or is owed to a request sent and not accepted, an operator's action, a reopened topic or a crash; with no failure, operator or crash nothing becomes unsure |
| Dashboard.Chat.Send | internal/app/dashboard.go:249-261 | a dashboard is sent only under a recorded intent and when no other one is looked after |
| Dashboard.ForgettingIsSafe | internal/app/dashboard.go:297-311 | forgetting a vanished message keeps the guard, whatever is in the chat, if and only if no creation is unresolved |
| Dashboard.Dashboard.SetID | internal/app/reconciler.go:113-121 | records the message, clears the intent and writes only if that changes something |
| Dashboard.Dashboard.Refresh | internal/app/dashboard.go:205-270 | a failed earlier write is tried again first and stops it if it fails again; when nothing fails the message shows the body, edited in place or made anew if it was gone, or is gone if switched off; it sends nothing for an unchanged body, edits exactly a changed one, and creates nothing while an intent is unresolved |
| Dashboard.Dashboard.Create | internal/app/dashboard.go:238-270 | refuses under an unresolved intent without any call; otherwise it succeeds exactly if nothing fails, and then the message is recorded, on disk, and shows the body |
| Dashboard.Dashboard.Keep | internal/app/dashboard.go:262-270 | pins and records the new message; the hash is remembered only once that is saved |
| Dashboard.Dashboard.Remove | internal/app/dashboard.go:327-351 | the slot, the chat and what is forgotten follow from the replies to the deletion and the off note |
| Dashboard.LeftBehindExactly | internal/app/dashboard.go:327-351 | a shown message is forgotten if and only if its deletion fails for a reason that passes, its off note fails without being refused, and neither worked unanswered |
| Dashboard.RemoveKeepsGuardExactly | internal/app/dashboard.go:322-351 | with no creation unresolved, switching off keeps the guard if and only if no shown message is forgotten |
| Dashboard.OffLeavesOrphan | internal/app/dashboard.go:322-326 | two unanswered requests that did not work do leave a live-looking message |
| Dashboard.Dashboard.Repin | internal/app/dashboard.go:297-315 | pins exactly when enabled with a message recorded, and forgets a vanished message; harmless unless a creation is unresolved |
| Dashboard.Run | internal/app/dashboard.go:205-270 | over any run with crashes and foreign writes of the shared file, apart from messages forgotten while shown, there is the recorded dashboard and at most one more, covered by the intent on disk |
| ShareTables.BeginAdmits | internal/domain/access.go:56-105 | work is admitted if and only if grant, mirror, origin, session, expiry, process and role all allow it at that moment, field by field and with the roles' actions spelled out |
| ShareTables.ReadOnlyReads | internal/domain/access.go:88-105 | a read-only recipient gets output, screen, history, overview, preferences and, if granted, repository reads, and nothing else, whatever else holds |
| ShareTables.PermitsExactly | internal/domain/access.go:88-105 | the actions of each role |
| ShareTables.RefusalReason | internal/domain/access.go:56-86 | the first test that fails, in the order of the tests, gives the reason of a refusal |
| ShareTables.NobodyThere | internal/app/sharing.go:368-384 | without a policy of this bot, a grant or a living vouched agent the answer is inactive |
| ShareTables.TermsExactly | internal/app/sharing.go:250-273 | the terms of a grant: those asked for, suspended, at the next revision |
| ShareTables.TargetsExactly | internal/app/sharing.go:243-249 | which grant an owner grant is for: the recipient's grant of that very key, or a new name if there is none |
| ShareTables.GrantTable | internal/app/sharing.go:231-290 | an owner grant: when it is refused, and memory, disk and work in flight afterwards |
| ShareTables.ChangeTable | internal/app/sharing.go:292-335 | a change of state: when it is refused, which changes are possible from which state, and all it changes |
| ShareTables.BindTable | internal/app/sharing.go:677-694 | a managing call is admitted exactly at the grant's present revision |
| ShareTables.PrepareTable | internal/app/sharing.go:418-439 | a creation intent is written exactly for a pending grant without a topic |
| ShareTables.IssueTable | internal/app/sharing.go:677-694 | a creation request uses up a saved intent |
| ShareTables.ActivateTable | internal/app/sharing.go:441-463 | activation: new revision, topic recorded, or left in need of repair |
| ShareTables.RepairTable | internal/app/sharing.go:547-566 | repair: only from its own state, back to pending without a mirror |
| ShareTables.MissingTable | internal/app/sharing.go:568-585 | a confirmed loss: an active grant goes back to pending, its work is cancelled |
| ShareTables.ForgetTable | internal/app/sharing.go:712-722 | a confirmed deletion: only a revoked grant's mirror is forgotten |
| ShareTables.RetireTable | internal/app/sharing.go:737-756 | retirement: only a grant suspended since the exit of its agent is revoked |
| ShareTables.ExpireTable | internal/app/sharing.go:645-673 | expiry: exactly the grants in play past their time |
| ShareTables.BeginTable | internal/app/sharing.go:385-397 | admitted work is remembered at the grant's present revision; refused work leaves no trace |
| ShareTables.ReleaseTable | internal/app/sharing.go:395-395 | finished work is forgotten |
| ShareTables.RecordTable | internal/app/sharing.go:697-708 | presentation state touches no grant |
| ShareTables.FlushTable | internal/app/sharing.go:162-172 | one more write changes the disk alone |
| ShareTables.RestartTable | internal/app/sharing.go:37-46 | a new process has the file and nothing else |
| ShareTables.LifecycleTable | internal/app/sharing.go:478-542 | an agent event: what becomes of every grant of the pane, saved or not |
| ShareTables.RevivedExactly | internal/app/sharing.go:493-513 | a suspended grant becomes active by an event if and only if sharing is enabled for this bot, the write is saved, it is no departure, an exit had suspended the grant, and its non-empty session digest and its pane are those of the event |
| ShareTables.DepartureSuspends | internal/app/sharing.go:496-499 | a departure suspends every active grant of the pane, with the exit as cause and its time |
| ShareTables.OtherSessionSuspends | internal/app/sharing.go:500-509 | an event of a known but different session suspends every active grant of the pane because its identity changed |
| ShareRuns.StepRenew | internal/app/sharing.go:231-290 | renewing a grant keeps the invariant, saved or not |
| ShareRuns.StepFirstGrant | internal/app/sharing.go:231-290 | so does the first grant for a session |
| ShareRuns.StepChange | internal/app/sharing.go:292-335 | so does a change of state |
| ShareRuns.StepBegin | internal/app/sharing.go:368-397 | so does admitting a dispatch, or refusing it |
| ShareRuns.StepBind | internal/app/sharing.go:677-694 | so does admitting a call that manages the topic |
| ShareRuns.StepRecord | internal/app/sharing.go:697-708 | so does recording presentation state, even without a mirror |
| ShareRuns.StepPrepare | internal/app/sharing.go:418-439 | so does saving a creation intent |
| ShareRuns.StepIssue | internal/app/sharing.go:677-694 | so does the creation request |
| ShareRuns.StepActivate | internal/app/sharing.go:441-463 | so does activation, which gives a new revision without cancelling |
| ShareRuns.StepRepair | internal/app/sharing.go:547-566 | so does an owner repair, which does not cancel either |
| ShareRuns.StepMissing | internal/app/sharing.go:568-585 | so does a confirmed loss |
| ShareRuns.StepForget | internal/app/sharing.go:712-722 | so does a confirmed deletion |
| ShareRuns.StepRetire | internal/app/sharing.go:737-756 | so does retirement |
| ShareRuns.StepLifecycle | internal/app/sharing.go:478-542 | so does an agent event, including the suspension after a failed write that neither cancels nor counts up |
| ShareRuns.StepExpire | internal/app/sharing.go:645-673 | so does expiry |
| ShareRuns.StepFlush | internal/app/sharing.go:162-172 | so does writing the state once more, as changes of other parts of the file do |
| ShareRuns.StepRestart | internal/app/sharing.go:37-46 | so does a crash, after which only the disk is known |
| ShareRuns.RunSound | internal/app/sharing.go:358-397 | the invariant holds over every run of all operations with writes failing at will |
| ShareRuns.NoStaleDispatch | internal/app/sharing.go:358-397 | a dispatch that was admitted and not cancelled was admitted at its grant's present revision; the grant is active unless its suspension could not be saved |
| ShareRuns.ChangeWithoutCancel | internal/app/sharing.go:478-542 | an operation changes the grant of uncancelled work if and only if it is an agent event whose write fails, that moves some grant, and that finds this one in play and leaves it as it is |
| ShareRuns.FailedSaveKeepsWork | internal/domain/sharing.go:59-61 | that happens: two grants of one pane, an event that moves the first, and a failed write |
| ShareRuns.RunKept | internal/domain/sharing.go:59-61 | within a process grants never vanish, revisions never decrease and a grant's pane and session stay |
| ShareRuns.IdentityForever | internal/app/sharing.go:476-517 | over every run, restarts included, pane and session digest of a grant never change, and without a digest its key never does |
| ShareRuns.DeniedStays | internal/domain/sharing.go:82-107 | a revoked or expired grant stays denied for the rest of the process, even if every write fails, unless an owner grant for it or a change to pending is accepted |
| ShareRuns.DeniedStep | internal/domain/sharing.go:82-107 | an operation ends the denial of a grant if and only if it is an accepted owner grant for it or a change to pending at its present revision |
| ShareRuns.DeniedExactly | internal/domain/sharing.go:82-107 | over every run within a process a denied grant is denied throughout if and only if no such operation is among them |
| ShareRuns.PendingReopens | internal/domain/sharing.go:92-93 | setting a denied grant to pending and activating its mirror makes it active without a new grant |
| ShareRuns.RequestsBounded | internal/app/private_reconciler.go:36-50 | over every run creation requests for a grant exceed its repairs, confirmed losses and confirmed deletions by at most one |
| ShareRuns.IntentFirst | internal/app/sharing.go:417-439 | a request leaves only with its intent on disk, and after a crash none is prepared again |
| ShareRuns.StartSound | internal/app/sharing.go:37-46 | every policy file whose grants carry their own names is a sound start |
| Sharing.Store.Save | internal/app/sharing.go:174-189 | a policy write that fails may or may not have happened |
| Sharing.Sharing.constructor | internal/app/sharing.go:37-46 | a new process starts sound from the file |
| Sharing.Sharing.Find | internal/app/sharing.go:243-249 | finds a grant of the recipient for the key if there is one |
| Sharing.Sharing.Grant | internal/app/sharing.go:231-290 | takes exactly the grant step: a failed write leaves a renewed grant suspended and a first one absent |
| Sharing.Sharing.Publish | internal/app/sharing.go:274-289 | puts the terms into force, cancels what was admitted under the old ones, rolls back what could not be saved |
| Sharing.Sharing.Replace | internal/app/sharing.go:321-331 | puts a changed grant in place, cancels its work, saves |
| Sharing.Sharing.Cancel | internal/app/sharing.go:358-363 | ends exactly the work in flight of one grant |
| Sharing.Sharing.ChangeState | internal/app/sharing.go:292-335 | takes exactly the state step; denial holds although the write failed, enabling does not |
| Sharing.Sharing.Begin | internal/app/sharing.go:368-397 | admits exactly what the access rules allow (ShareTables.BeginAdmits says them field by field) and remembers it at the present revision |
| Sharing.Sharing.Release | internal/app/sharing.go:395-395 | ends one piece of work |
| Sharing.Sharing.Bind | internal/app/sharing.go:677-694 | admits exactly calls for the current revision |
| Sharing.Sharing.Issue | internal/app/private_reconciler.go:42-42 | the create request's guard uses up the saved intent |
| Sharing.Sharing.PrepareMirror | internal/app/sharing.go:418-439 | saves an intent, returns an existing topic or refuses an unresolved one |
| Sharing.Sharing.ActivateMirror | internal/app/sharing.go:441-463 | activates at a new revision, or leaves the grant in need of repair |
| Sharing.Sharing.RepairMirror | internal/app/sharing.go:547-566 | forgets the intent at a new revision |
| Sharing.Sharing.MissingMirror | internal/app/sharing.go:568-585 | takes an active grant back to pending and cancels its work |
| Sharing.Sharing.ForgetMirror | internal/app/sharing.go:712-722 | forgets the mirror of a revoked grant only |
| Sharing.Sharing.RetireMirror | internal/app/sharing.go:737-756 | revokes the grant of an agent that left and cancels its work |
| Sharing.Sharing.FollowAll | internal/app/sharing.go:484-526 | applies an agent event to every grant in play, whatever the order |
| Sharing.Sharing.Lifecycle | internal/app/sharing.go:478-542 | takes exactly the lifecycle step (ShareTables says what becomes of each grant), with the affected grants suspended when the write fails |
| Sharing.Sharing.SuspendAll | internal/app/sharing.go:532-537 | suspends exactly the affected grants |
| Sharing.Sharing.ExpireAll | internal/app/sharing.go:651-668 | denies exactly the grants past their time, whatever the order |
| Sharing.Sharing.Expire | internal/app/sharing.go:645-673 | takes exactly the expiry step |
| Sharing.Sharing.RecordOutput | internal/app/sharing.go:697-708 | touches no grant, and a mirror only at the current revision |
| Sharing.PrivateTopics.CreateTopicAt | internal/app/private_reconciler.go:42-42 | the one request under a saved intent; a topic is returned only if the guard admitted it |
| Sharing.PrivateTopics.Request | internal/app/private_reconciler.go:40-50 | without an answer the grant is left in need of repair |
| Sharing.PrivateTopics.Open | internal/app/private_reconciler.go:28-58 | exactly the steps opening takes: nothing without a living agent, an intent unless there is a topic, one request, then activation, or the mark that repair is needed; success means an active grant at the next revision with a topic, on disk |
| Sharing.PrivateTopics.DeleteTopicAt | internal/app/private_reconciler.go:194-194 | a deletion can be confirmed only if its guard admitted the request |
| Sharing.PrivateTopics.Retire | internal/app/private_reconciler.go:187-199 | the grant is revoked before the request leaves, and the mirror is forgotten exactly when the deletion is confirmed; nothing else changes |
| HistoryRules.TrimLongest | internal/domain/history.go:221-243 | trimming leaves the longest suffix within both caps |
| HistoryRules.TrimExactly | internal/domain/history.go:222-244 | in numbers: what is dropped is the least that leaves at most 2000 lines and 256 KiB |
| HistoryRules.TrimAppend | internal/domain/history.go:221-243 | trimming early loses nothing: lines that fall out never come back in |
| HistoryRules.MergeGrows | internal/domain/history.go:72-116 | every merge grows the lines before trimming by exactly what it reports, plus its gap line |
| HistoryRules.MergeEnds | internal/domain/history.go:72-116 | merged lines end as the new screen does |
| HistoryRules.AppendKeeps | internal/domain/history.go:72-116 | after any snapshot both caps hold, the mark is inside, and lines and last screen agree on their common suffix |
| HistoryRules.AlignsExactly | internal/domain/history.go:254-283 | two windows of a transcript align only where they are the same lines, and there exactly if the second ends no earlier and an anchor line is not blank |
| HistoryRules.AlignedExactly | internal/domain/history.go:260-280 | for any two blocks: of the first six lines three with text agree, or all that have any |
| HistoryRules.AnchoredExactly | internal/domain/history.go:143-158 | and a repeat needs three of the first six |
| HistoryRules.StableAndLive | internal/domain/history.go:246-258 | the last eight lines of a screen may still change; the others are merged |
| HistoryRules.BlankLine | internal/domain/history.go:143-158 | a line of white space characters of Unicode, in UTF-8, is blank |
| HistoryRules.BlankLineOnly | internal/domain/history.go:143-158 | and no other line is |
| HistoryRules.ShiftIsScroll | internal/domain/history.go:94-112 | the first aligned shift is the distance scrolled; there is none exactly if the window does not start inside the last one, ends before it, or shares only blank anchor lines |
| HistoryRules.RepeatContinues | internal/domain/history.go:121-141 | a recent screen is recognised exactly if it reaches the end of the last one, repeats enough of it, and starts with what is kept |
| HistoryRules.MergeTracks | internal/domain/history.go:72-116 | merging any window, recent or not, adds exactly what an observer of the transcript would add, and reports a gap exactly when that one sees it |
| HistoryRules.WindowTracks | internal/domain/history.go:57-116 | after any window, wherever it lies, the history holds what the observer does, within its caps and with the right mark |
| HistoryRules.FirstTracks | internal/domain/history.go:90-93 | the first screen with stable lines starts a history that was empty, marked or not |
| HistoryRules.RunTracks | internal/domain/history.go:57-203 | and every run of screens and messages keeps it |
| HistoryRules.MarkTracks | internal/domain/history.go:175-178 | a mark starts the range at the last line committed, before the first screen too |
| HistoryRules.EventTracks | internal/domain/history.go:57-203 | so after any message and any screen, one without stable lines included |
| HistoryRules.ShownIsTold | internal/domain/history.go:189-203 | a reader sees all that the observer kept since the mark, behind a gap line exactly when some of it is beyond the caps |
| HistoryRules.HistoryIsTranscript | internal/domain/history.go:26-203 | for every sequence of screens of a transcript with distinct non-blank lines, whatever they skip or repeat, and of messages before, between and after them, an empty history holds what the observer keeps, trimmed to the longest suffix within the caps, and shows it |
| HistoryRules.UnbrokenIsTranscript | internal/domain/history.go:26-203 | if every screen continues the one before, that is the transcript itself from the first line seen, and a reader sees it from the last message to the bottom of the screen |
| HistoryRules.DistinctExactly | internal/domain/history.go:90-116 | gaps are reported rightly in every run over a transcript if and only if its non-blank lines are distinct |
| HistoryRules.GapMissed | internal/domain/history.go:90-116 | two screens that end and begin with the same line are taken for neighbours, whatever lies between |
| HistoryRules.GapExactly | internal/domain/history.go:113-115 | a window reports a gap if and only if it does not continue the last one; an ordinary one continues it exactly if it starts inside it, ends no earlier and shares an anchor line that is not blank |
| History.EqualLines | internal/domain/history.go:160-170 | whether two blocks of lines are equal |
| History.HasAnchors | internal/domain/history.go:143-158 | whether three non-blank lines of the anchor window agree |
| History.IsAligned | internal/domain/history.go:260-283 | whether the start of an overlap matches the start of a screen |
| History.History.Append | internal/domain/history.go:57-60 | merges the screen as specified and keeps the representation invariant |
| History.History.AppendRecentAfterVisible | internal/domain/history.go:67-70 | the same for a screen with older lines in front |
| History.History.AppendSnapshot | internal/domain/history.go:72-116 | the merge, its report and the exact byte count |
| History.History.Align | internal/domain/history.go:90-116 | the first aligned shift decides; shared lines are replaced by their fresh version, else a gap line is put in |
| History.History.RecentPrefixEnd | internal/domain/history.go:121-141 | finds the first repeat of the last screen whose prefix is already kept |
| History.History.Mark | internal/domain/history.go:175-178 | everything so far belongs to the past, and a truncation no longer matters |
| History.History.Lines | internal/domain/history.go:189-203 | what a reader is shown |
| History.History.Commit | internal/domain/history.go:205-210 | appends lines with an exact byte count |
| History.History.Cut | internal/domain/history.go:214-219 | drops a tail with an exact byte count |
| History.History.Cap | internal/domain/history.go:222-243 | trims to the longest suffix within both caps and moves the mark along |
| Versions.Compare | internal/domain/version.go:59-105 | computes the order by number, then pre-release |
| Versions.ComparePre | internal/domain/version.go:74-104 | compares pre-release identifiers in order |
| Versions.CompareText | internal/domain/version.go:91-96 | byte-wise text order |
| Versions.IsNumeric | internal/domain/version.go:49-56 | whether an identifier is all digits |
| Versions.CompareTotal | internal/domain/version.go:59-105 | antisymmetric, transitive, zero only between equal versions |
| Versions.NumbersByValue | internal/domain/version.go:78-85 | comparing numbers by length and then text compares their values |
| Versions.LeadingZeroMisorders | internal/domain/version.go:41-43 | which fails for the leading zeros that parsing refuses |
| Versions.IdentOrderIsLower | internal/domain/version.go:75-96 | identifiers are ordered as section 11.4 of Semantic Versioning 2.0.0 says |
| Versions.CompareIsSemVer | internal/domain/version.go:59-105 | on parsed versions the order is that of section 11 of Semantic Versioning 2.0.0 |
| UpdateWorker.Machine.Save | internal/app/updateworker.go:149-158 | a journal write, allowed only if it does not deny an install that started |
| UpdateWorker.Machine.Install | internal/app/updateworker.go:73-75 | starts only once the journal is past the backup and the daemon is stopped |
| UpdateWorker.Machine.ReadInstallation | internal/app/updateworker.go:80-92 | runs the binary in place, allowed only for the old or a checked one |
| UpdateWorker.Worker.Run | internal/app/updateworker.go:35-120 | it succeeds if and only if the job names its commit, the daemon is as it was at approval and every call and answer is the one hoped for; otherwise the first bad answer is the recorded reason, and the job is rolled back if and only if every answer of the recovery is good but for journal writes; at every crash point a journal that says queued, backed up or failed means no install started |
| UpdateWorker.Worker.Proceed | internal/app/updateworker.go:57-72 | backed up, written down, stopped, written down: a failure before the installation leaves the old one in place |
| UpdateWorker.Worker.Halt | internal/app/updateworker.go:64-72 | the daemon is stopped, and that is written down, before any file is replaced |
| UpdateWorker.Worker.Replace | internal/app/updateworker.go:73-119 | from the first irreversible step on: installed, checked and healthy if every answer is good, else undone, or stuck exactly if the recovery met a bad answer too |
| UpdateWorker.Worker.Conclude | internal/app/updateworker.go:80-120 | checked, started and healthy, or undone; it succeeds exactly if every answer is the one hoped for |
| UpdateWorker.Worker.Inspect | internal/app/updateworker.go:83-105 | accepts only the approved commit and version with checked bytes at both roots, and runs nothing unchecked |
| UpdateWorker.Worker.StartHealthy | internal/app/updateworker.go:106-114 | success means that the daemon runs at the version asked for |
| UpdateWorker.Worker.Fail | internal/app/updateworker.go:160-170 | only before any install |
| UpdateWorker.Worker.Undo | internal/app/updateworker.go:172-221 | rolled back if and only if no answer of the recovery but a journal write is bad, and then the old version and the daemon are as before; stuck otherwise |
| UpdateWorker.Worker.Recover | internal/app/updateworker.go:181-216 | the old files, and the old daemon if it ran; fails with the first answer that is not the one hoped for |
| UpdateWorker.Worker.Restore | internal/app/updateworker.go:181-203 | the files are of the old version again, with the daemon stopped |
| Debouncer.Debouncer.Close | internal/app/debounce.go:49-51 | a cancel channel may be closed once only |
| Debouncer.Debouncer.ScheduleAfter | internal/app/debounce.go:46-71 | arms a new timer and supersedes the key's old one |
| Debouncer.Debouncer.Cancel | internal/app/debounce.go:74-85 | supersedes the key's timer, if any |
| Debouncer.Debouncer.MoveOut | internal/app/debounce.go:89-109 | both keys lose their timers and the remaining delay is kept, never negative |
| Debouncer.Debouncer.Drain | internal/app/debounce.go:116-127 | supersedes every timer and returns exactly the armed keys, each once, in order |
| Debouncer.Debouncer.TimerFires | internal/app/debounce.go:57-61 | the timer may win although the channel is closed |
| Debouncer.Debouncer.TryRemove | internal/app/debounce.go:62-68 | removes its own edit exactly if it was not superseded |
| Debouncer.Debouncer.Send | internal/app/debounce.go:69-69 | delivers a schedule that was not delivered before |
| Debouncer.Interleave | internal/app/debounce.go:46-127 | in every interleaving no channel is closed twice, no schedule is delivered twice or after it was superseded, and none is lost |
| Registry.DiffersIsVisible | internal/app/registry.go:451-453 | two rows differ exactly when the rest of the program can see it |
| Registry.LabelExactly | internal/domain/agent.go:125-144 | the label: workspace by label or id, agent by name, tab or kind, joined by the dot if both are there |
| Registry.FoldSettles | internal/app/registry.go:134-137 | changes that tell the truth, and all of it, lead to the truth in any order |
| Registry.SnapshotTold | internal/app/registry.go:163-204 | the changes of a snapshot turn the old agents into the new ones |
| Registry.StoreTold | internal/app/registry.go:334-339 | a socket event tells exactly what became visible |
| Registry.IsPaired | internal/app/registry.go:215-236 | whether a new agent is the only heir of exactly one that left |
| Registry.RestartExactly | internal/app/registry.go:257-273 | which newcomer continues an agent that left: another key of its pane, with the same known session or else the same directory, kind and name as far as they were known |
| Registry.Part | internal/app/registry.go:228-250 | splits the newcomers into heirs and others, keeping their order |
| Registry.OrderEvents | internal/app/registry.go:210-251 | heirs, leavers, other newcomers, changes, each group in key order; a permutation of the changes, with exactly the heirs in front of the agents that left |
| Registry.Registry.RetirePane | internal/app/registry.go:312-319 | retires the key the pane holds |
| Registry.Registry.ApplyStatus | internal/app/registry.go:321-340 | updates status and title of the pane's agent, unless its key is retired |
| Registry.Registry.ApplyUpdate | internal/app/registry.go:342-382 | keeps labels, name and directory a report leaves out; an unknown key retires the one it replaces |
| Registry.Registry.Apply | internal/app/registry.go:286-308 | what each kind of event changes, tells and asks for; it keeps the keys, never lifts a doubt, and bars exactly the panes the event contradicts |
| Registry.Registry.ApplySnapshot | internal/app/registry.go:163-204 | the list replaces everything, clears all doubts and tells each difference exactly once, heirs before the agents that left |
| Registry.Registry.Compare | internal/app/registry.go:175-189 | sorts the differences into gone, appeared and changed, none missing, none twice |
| Registry.VouchedExactly | internal/app/registry.go:36-44 | the registry vouches for exactly the listed agents but for the one each contradicted pane is known to hold |
| Registry.UnvouchedAdmitsNothing | internal/app/sharing.go:368-397 | sharing admits nothing for a key it does not vouch for |
| Registry.RetiredAdmitsNothing | internal/app/registry.go:40-44 | once an event contradicts a pane's agent, sharing admits nothing for its key until a snapshot lists it again |
| Registry.Run | internal/app/registry.go:163-382 | over any run of events and snapshots the changes told add up to exactly the live agents, the contradicted panes are those of the events since the last snapshot, and sharing admits nothing for their agents before a snapshot lists them again |
| PrivateOutput.Origins | internal/app/private_output.go:115-131 | exactly the mirrors of the job that are still admitted, each once |
| PrivateOutput.AdmittedExactly | internal/app/private_output.go:115-131 | a mirror is served only while its grant is active at the queued revision, unexpired, its topic made, its agent vouched for and living, and neither it nor its recipient paused or unreachable: exactly then |
| PrivateOutput.WaitForReply | internal/app/private_output.go:213-242 | mirrors that show replies wait five seconds, as many of the others as fit go on; nobody waits after three attempts |
| PrivateOutput.Batch | internal/app/private_output.go:156-168 | four are served if there are as many, the rest is queued for the next second, none lost or doubled |
| PrivateOutput.Deliver | internal/app/private_output.go:109-204 | of the admitted mirrors that need not wait as many as fit are served, all others are queued at the same revision; lost are exactly those due when the agent left or the screen cannot be read |
| PrivateOutput.ShrinkingLeft | internal/app/private_output.go:29-40 | the lexicographic decrease bounds the ticks a job can take by its grants plus four |
| PrivateOutput.Queue.Observe | internal/app/private_output.go:49-90 | a newer event replaces an older wait; idle after working counts as done |
| PrivateOutput.CollectGrants | internal/app/private_output.go:80-85 | exactly the active grants of the key at their revisions |
| PrivateOutput.Queue.TakeDue | internal/app/private_output.go:92-105 | takes one due job; with posting off it drops exactly the due ones |
| PrivateOutput.Queue.Tick | internal/app/private_output.go:92-107 | serves one due job so, leaves all others alone, and the work left decreases |
| PrivateOutput.Drain | internal/app/private_output.go:92-171 | without newer events the queue empties whatever the ticks run into |

## Left out

- Reconciler.Run: it starts from a file without a strayed topic in which no running agent's topic is recorded as closed, as every file the program writes is; the guard itself does not need the latter. What the topics look like then is arbitrary as long as the differences are among the parts given as unsure.
- Reconciler.Reconciler.Handle: a change of a running agent only arms the delayed edit; the edit itself is Edit, and when it runs is the Debouncer module.
- Reconciler.Reconciler.OnTopicClosed: an operator's action is taken to have happened when the program is told of it; one it is never told of is a step of its own in the runs.
- Agreement.AgreedTold: Telegram's answer to an accepted edit is taken at its word; changing nothing counts as accepted.
- ShareRuns.RunSound: preferences, service topics and reachability are parts of the policy file that the model does not have; writing them is a Flush step here.
- Mapping.Mapping.PlanReassociation: nil entries of a damaged mapping do not exist here.
- Planning.CarryOut: entries are values, so a pointer shared by two keys is not captured.
- Keys.DecodeEncode: the digest part of a key is opaque; hashing a session tuple is not part of this model.
- Dashboard.Dashboard.Create: pinning is an ordinary call without effect on the record; message texts are opaque hashes.
- ShareRuns.RunKept: revisions are unbounded; the refusals at the largest 64-bit value do not occur. The revision of the policy file as a whole is not modelled.
- ShareTables.BeginAdmits: a caller's own cancelled context, message ids and the history cursor, which is always zero, are not modelled.
- ShareRuns.RequestsBounded: a request counts when its guard admits it; repeated sending of one request by the gateway after a rate limit is not modelled.
- Sharing.Sharing.Grant: whether the recipient is registered and the bot ready are arguments; registration, metering and hiding of recipients, service topics, dashboards of recipients and mirror preferences are left out, as simpler methods of the same pattern. Random names are arguments that were never used before.
- Sharing.PrivateTopics.Open: one flow is shown without interruption; interleavings are covered by the run theorems. The access card sent at the end and topic renames in flushEvent are left out.
- HistoryRules.HistoryIsTranscript: non-blank lines must be distinct; DistinctExactly shows that the gaps come out right for no other transcript. For arbitrary screens, such as ones redrawn in place, the representation invariant and the merge itself are stated.
- Versions.CompareIsSemVer: the patterns that split a version text, and git-describe suffixes, are not part of this model; versions are given in parts.
- UpdateWorker.Worker.Run: nobody else starts or stops the daemon during an update, and a process that never claimed the pid file is not the daemon. The install receipt, which decides nothing, is left out, and so is the marking of an interrupted job at the next start.
- Debouncer.Debouncer.Send: the bound of the delivery channel is not modelled.
- Registry.RetiredAdmitsNothing: with two agents in one pane the pane index holds only one of them, so only that key is retired; Run and VouchedExactly state this case exactly.
- PrivateOutput.Queue.Tick: a served mirror may still be skipped because it was sent the same text before; hashing, rendering and buttons are left out.
- Times are integers given as arguments or answered by a clock; wall-clock details, timeouts and contexts are left out.
- Renaming a tab from a topic, following an agent's pending edit to its new key, publishing the read-only view and all logging are left out of the reconciler.
- Telegram, Herdr, git, process and file-system adapters, panels, rendering, redaction, quota, the setup wizard, command routing and outbound posting are not part of this model.
