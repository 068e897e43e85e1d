# Sonara's decision logic, verified

Sonara reads the text of several agent sessions aloud. This project models the parts that decide
*what* is spoken, from *which* session and *when*, and proves what they keep over every run. Nothing
here is executed; the proofs are about the logic of the source files cited below.

## How it is laid out

Each part has two forms. A value form (records, and one function for each input, from the state
before to the state after and what comes out) is what the theorems over whole runs are about. An
object form (a class whose methods update the same fields step by step, with the source's loops) is
proved equal to it, method by method: `ensures` ties the object's `View()` after the call to the value
function of the view before. So what holds of every run of the value form holds of every use of the
object.

- `DeltaOrders`: the re-sequencer of streamed deltas (class `DeltaOrder`).
- `RulesModel`: the rules of the agent as values, with `Step` over every input; `RuleBooks`: the same
  as an object (class `RuleBook`). The theorems: `RulesDecisions`, `RulesTimers`, `RulesDropped` and
  `RulesOnce` (decisions are conserved, timed, and dropped only by inputs that cancel), `RulesBuffer` (the
  reorder buffer of summaries), `RulesEnds` (what firing all timers leads to), `RulesCancel` and
  `RulesJobs` (cancellation, jobs), `RulesProse` (prose is conserved and not late). `RulesFrames` says what
  most inputs leave alone. What single inputs do, stated without their functions: `RulesSpeech` (the mute
  level), `RulesTexts`, `RulesAsks`, `RulesReads` (decisions let go), `RulesRecaps` (summaries), `RulesTurns`,
  `RulesEndings`.
- `Wordings`: white space, trimming, and the wording of decisions: what it says, and that there is always something to read.
- `RouterModel` and the object form `Channels`, `Routers`: the channel router. The theorems:
  `RouterInvariants`, `RouterFeeding`, `RouterFloor`, `RouterHandoffs`, `RouterRing`, `RouterBatches`; and
  `RouterPicks`, `RouterKeys`, `RouterEdits` on single operations.
- `DriverModel` and the object form `Drivers`, over the router object: what is in flight at the
  reader. The theorems: `DriverAgreement`, `DriverRuns`, `DriverTexts` (what the reader is given),
  `DriverLands` (where the keys land), `DriverEdits` (what is cut and reported).
- `Sequencer` (class `Schedule`) and `Earcons`: the earcon schedule, and the two threads that play
  earcons as a state machine over their interleaved steps.
- `Licences` (class `Parser`): the election of licences from an SPDX expression. AND binds tighter
  than OR as in Annex D of the SPDX 2.3 specification.
- `Bags`, `Options`: small helpers.

## What the model takes from outside

- The prose assembler, the folding of text to compare it, the wording of a code block and
  `normalize_for_speech` are functions in a record `Env`, about which nothing is assumed.
- Time appears as timers that fire (rules) and as a parameter `now` that does not go back
  (`Sequencer`). Timers are armed as actions of the output; which are outstanding is kept by the run.
- The reader answers polls from a stream of arbitrary answers, and what it is told is recorded.
- Ids, counters and generations are unbounded naturals.
- The rules' output also records what happens without an action of the source: a decision dropped by
  a cancellation, a slot given out and served. Each spoken text carries the
  decision it reads, the generation of its summary, or the chunks it is made of. The theorems are stated
  on these records; the texts and their order are the source's.

## Findings

- The hold of a replay never decides anything: under the joint invariant the active floor alone gives
  the same pick (`RouterFloor.HoldIsTheActiveFloor`).
- The hand-off announcement has one exception more than a dropped one or a shared tab: a channel closed
  while its announcement is armed and opened again is read unannounced after another channel's entry
  (`RouterHandoffs.ReopenedIsSilent`; `RouterHandoffs.SilentHandoff` is a run from the empty router).
- A gap's generation in a reopened channel counts from 0 and can reach the number of an old timer; the
  timer is still harmless, because generations only coincide when nothing is held
  (`RulesCancel.OldGapsAreDead`).

## Model

| member | source | states |
|---|---|---|
| `DeltaOrders.AnyArrivalOrder` | crates/sonara-agent/src/rules.rs:251-337 | The deltas of one block, arriving in any permutation at a fresh order, come out as the block in index order, each once, and the order is fresh again afterwards. |
| `DeltaOrders.AnyArrivalOrderOfBlocks` | crates/sonara-agent/src/rules.rs:251-337 | Block after block, each shuffled on its own: the output is the in-order stream of all blocks. |
| `DeltaOrders.RunConserves` | crates/sonara-agent/src/rules.rs:251-337 | Over any run of arrivals and releases, with duplicates, late deltas and restarted blocks: what came out and what is still held is, as a bag, what was held and what arrived; what is held stays sorted and past the expected index. |
| `DeltaOrders.GapKeepsItsName` | crates/sonara-agent/src/rules.rs:271-328 | A gap that stays open keeps its generation, a new gap opens only when nothing was held, and when what was held goes the generation moves on. |
| `DeltaOrders.DeltaOrder.Take` | crates/sonara-agent/src/rules.rs:271-309 | `accept` as it updates the fields, loop included: deltas ready, whether a gap opened, and the whole new state are those of the transition the lemmas are about. |
| `DeltaOrders.DeltaOrder.ReleaseHeld` | crates/sonara-agent/src/rules.rs:316-328 | `release` as it updates the fields: everything held, in order, the missing indices given up, the generation moved on if something was held. |
| `Licences.ElectionIsSound` | packaging/notices/gen_notices.py:69-105 | On the tokens of any expression tree, at any nesting: the election succeeds exactly when every OR level (of every group reached) has an allowed alternative, else it raises; when it succeeds it consumed all tokens, names only allowed licences, in order of preference without repeats, and they satisfy the tree with AND binding tighter than OR. |
| `Licences.OrDecides` | packaging/notices/gen_notices.py:75-102 | The recursive descent from any position inside a longer token list reads exactly the tokens of the tree there and elects what the tree elects. |
| `Licences.BestIsLeast` | packaging/notices/gen_notices.py:83-84 | `min` over the allowed options: there is a choice exactly when an option is allowed, and no allowed option has smaller ranks. |
| `Licences.Parser.Or` | packaging/notices/gen_notices.py:75-84 | `parse_or` with its loop over the shared position: outcome and position are those of the recursive reading. |
| `Licences.Parser.And` | packaging/notices/gen_notices.py:86-92 | `parse_and` with its loop over the shared position, in the same terms. |
| `Licences.Parser.Term` | packaging/notices/gen_notices.py:94-102 | `parse_term`: an atom, or a group whose closing token is passed over unread. |
| `Sequencer.NeverOverlaps` | crates/sonara-agent/src/sequencer.rs:36-92 | Over every run with time going forward: admitted intervals not dropped never overlap, waiting ones are `GAP` apart with different neighbours, at most `MAX` are live, and the quiet instant lies behind all of them and behind the last key sound. |
| `Sequencer.AdmittedStartsSoon` | crates/sonara-agent/src/sequencer.rs:46-76 | After every run an admitted start is between now and now + maxKey + AFTER_KEY + (MAX - 1) * (maxLen + GAP). |
| `Sequencer.Schedule.Schedule` | crates/sonara-agent/src/sequencer.rs:55-76 | `admit` on the slots in place: ended slots leave, a repeat of the last and a full schedule are refused, else the start is after the last slot and the floor. |
| `Sequencer.Schedule.PlayKey` | crates/sonara-agent/src/sequencer.rs:39-42 | `key_sound`: the end of key sounds only ever moves later. |
| `Sequencer.Schedule.DropNotStarted` | crates/sonara-agent/src/sequencer.rs:80-82 | `drop_waiting`: exactly the slots not started leave. |
| `Sequencer.Schedule.Quiet` | crates/sonara-agent/src/sequencer.rs:86-91 | `quiet_at`: after the last slot and the floor. |
| `Earcons.SoundInOrder` | crates/sonara-agent/src/lib.rs:1274-1322 | Every interleaving of callers, mutes and the earcon thread, step by step: non-key earcons sound in the order they were admitted, each at most once; each admitted one sounded, was dropped or is on its way; with nothing on its way the deferred count is 0. |
| `Earcons.DroppedByMute` | crates/sonara-agent/src/lib.rs:1582-1617 | Without a mute, or one still under way, nothing is dropped, in any interleaving. |
| `Earcons.MutedNeverSounds` | crates/sonara-agent/src/lib.rs:1092-1108 | An earcon queued in an epoch that is over, its last check still to come, never sounds, whatever is unmuted later. |
| `RouterInvariants.RunKeeps` | crates/sonara-channels/src/router.rs:163-1056 | Every run of the router's operations from the empty router keeps the joint invariant: cursors within batches, ids unique and issued, set-aside and decision marks within the batch, every named channel open, the active channel the last reader, hold and armed announcement of the active channel only. |
| `RouterInvariants.StepKeeps` | crates/sonara-channels/src/router.rs:163-1056 | Each single operation keeps the joint invariant, from any state that has it. |
| `RouterInvariants.DropOk` | crates/sonara-channels/src/router.rs:260-285 | `drop_decisions` is a filter that keeps the order and the read/unread split: what stays of the read entries is a subsequence of them before the cursor, of the unread ones after it; exactly the decisions named go, and exactly the unread of them are returned, in order. |
| `RouterFeeding.FeedLowersPending` | crates/sonara-channels/src/router.rs:798-834 | A feed lowers the total of unread entries by exactly one when it is an entry, and by nothing otherwise. |
| `RouterFeeding.Drains` | crates/sonara-channels/src/router.rs:798-834 | Without new input at most 2 * pending + 1 calls feed anything, however many are made. |
| `RouterFeeding.NothingFed` | crates/sonara-channels/src/router.rs:683-774 | When nothing is fed every channel with unread text is muted, suppressed with nothing new, or gated. |
| `RouterFeeding.PickAgain` | crates/sonara-channels/src/router.rs:730-774 | `pick` is idempotent in result and state. |
| `RouterFloor.FloorIsKept` | crates/sonara-channels/src/router.rs:730-834 | In every run of operations that leave the floor alone, the active channel's due entries are all fed, in order, before any feed of another channel. |
| `RouterFloor.ReplayIsKept` | crates/sonara-channels/src/router.rs:520-532 | A held replay (h, mark) is not preempted: until every due entry up to the mark was fed, every feed is of h, whatever pushes, appends, priorities, focus or authorisations come. |
| `RouterFloor.HoldIsTheActiveFloor` | crates/sonara-channels/src/router.rs:520-532 | A finding: given the joint invariant the hold never changes what `pick` returns; the active floor alone decides it. |
| `RouterFloor.AnnounceThenEntry` | crates/sonara-channels/src/router.rs:798-834 | After an announcement of X the next feed is X's first unread entry whenever X is unmuted with something unread. |
| `RouterFloor.ReadsThrough` | crates/sonara-channels/src/router.rs:798-834 | The channel with the floor reads all it has unread, entry by entry, in order. |
| `RouterFloor.ReplayReads` | crates/sonara-channels/src/router.rs:950-979 | A replay feeds exactly the batch from the entry on (or from the top) without the entries set aside, announced first when another channel read last. |
| `RouterHandoffs.HandoffsAnnounced` | crates/sonara-channels/src/router.rs:457-471 | In every run an entry of B after an entry of A is preceded by an announcement of B since, unless B's armed announcement was dropped (a flush, a clear, or a close of B) or B shares the closed last reader's host tab. |
| `RouterHandoffs.ReopenedIsSilent` | crates/sonara-channels/src/router.rs:474-503 | A finding: A was read last and B's announcement is armed; B closed, opened again in any host tab and given a text is read next, with no announcement of B since A's entry. |
| `RouterHandoffs.SilentHandoff` | crates/sonara-channels/src/router.rs:474-503 | That case reached: a run from the empty router, for any two channels and texts, that ends in such an unannounced hand-off. |
| `RouterRing.LandsWell` | crates/sonara-channels/src/router.rs:845-905 | The next-session key never lands on a muted channel unless all are muted, nor on an empty one unless all candidates are empty. |
| `RouterRing.LandsNext` | crates/sonara-channels/src/router.rs:845-905 | It lands on the first ring member after the current position in opening order, wrapping around, also when the current position is not in the ring. |
| `RouterRing.PressesAre` | crates/sonara-channels/src/router.rs:845-905 | Consecutive presses walk the ring, which they do not change, from where the first one lands. |
| `RouterRing.RoundRobin` | crates/sonara-channels/src/router.rs:845-905 | As many presses as the ring has members visit each exactly once, and one more starts over. |
| `RouterBatches.BatchIsTheMessage` | crates/sonara-channels/src/router.rs:641-674 | From a flushed, caught-up channel that is not being read, any appends interleaved with feeds and other channels' traffic leave its batch equal to all texts appended, in order. |
| `RouterBatches.BatchGrows` | crates/sonara-channels/src/router.rs:221-249 | Once begun, a batch only gains the texts appended, in order, whatever is fed. |
| `RouterBatches.FlushRests` | crates/sonara-channels/src/router.rs:1021-1040 | A flush of a channel not being read leaves it caught up with its batch ended. |
| `RouterBatches.StoredIsBehind` | crates/sonara-channels/src/router.rs:641-657 | Text stored while nothing is unread or being read goes behind the cursor. |
| `RouterBatches.StoredWaits` | crates/sonara-channels/src/router.rs:641-657 | It is then never fed in any run without a return by hand: not after an unmute, a focus or new text. |
| `Channels.Channel.Push` | crates/sonara-channels/src/router.rs:221-236 | A new entry at the end, or before the unread ones; the batch starts anew when it is replaced, or was caught up, ended and is not being read. |
| `Channels.Channel.Take` | crates/sonara-channels/src/router.rs:238-249 | The next entry not set aside is passed and returned; those set aside are skipped. |
| `Channels.Channel.ToEnd` | crates/sonara-channels/src/router.rs:252-256 | The cursor moves to the end. |
| `Channels.Channel.Drop` | crates/sonara-channels/src/router.rs:260-285 | The index walk over the changing vector removes what the filter removes, moves the cursor with it, and returns the unread ones. |
| `Channels.Channel.Rewind` | crates/sonara-channels/src/router.rs:288-294 | The cursor goes back onto the entry just taken, if it is still in the batch. |
| `Routers.Router.Open` | crates/sonara-channels/src/router.rs:415-435 | A channel is made, muted as its id was, or its label, tab and policy are updated while its entries stay. |
| `Routers.Router.LabelIfMissing` | crates/sonara-channels/src/router.rs:440-451 | A label only where there was none. |
| `Routers.Router.Close` | crates/sonara-channels/src/router.rs:474-503 | The channel leaves every list and name that mentions it. |
| `Routers.Router.Focus` | crates/sonara-channels/src/router.rs:537-548 | The channel is put in front; the one focused before is authorised if it has something unread. |
| `Routers.Router.SetMuted` | crates/sonara-channels/src/router.rs:551-564 | A mute is remembered by id, set on the open channel, and ends its hold. |
| `Routers.Router.SetFocusOnly` | crates/sonara-channels/src/router.rs:571-573 | The focus-only gate. |
| `Routers.Router.Authorize` | crates/sonara-channels/src/router.rs:581-587 | An open channel is let past the focus-only gate. |
| `Routers.Router.Prioritize` | crates/sonara-channels/src/router.rs:714-722 | An open channel joins the list of priorities, once. |
| `Routers.Router.PushWith` | crates/sonara-channels/src/router.rs:611-634 | Text for an open channel: replacing what is unread, put in front, or added; it gets the next entry id. |
| `Routers.Router.Append` | crates/sonara-channels/src/router.rs:641-657 | Agent text joins a growing batch; stored text goes behind the cursor when nothing is unread or being read. |
| `Routers.Router.DropDecisions` | crates/sonara-channels/src/router.rs:661-665 | Decisions leave the batch; the unread ones come back. |
| `Routers.Router.EndBatch` | crates/sonara-channels/src/router.rs:670-674 | The next text starts a new batch. |
| `Routers.Router.SetAside` | crates/sonara-channels/src/router.rs:987-1000 | Entries are set aside or taken back. |
| `Routers.Router.Revise` | crates/sonara-channels/src/router.rs:1007-1016 | An entry's text is replaced in place. |
| `Routers.Router.Rewind` | crates/sonara-channels/src/router.rs:1044-1046 | The entry just taken becomes unread again. |
| `Routers.Router.FlushEverything` | crates/sonara-channels/src/router.rs:1035-1039 | Every channel is skipped to its end, announcement and hold dropped. |
| `Routers.Router.Flush` | crates/sonara-channels/src/router.rs:1021-1034 | The channel is skipped to its end, its announcement and hold dropped, the next text starts a new batch. |
| `Routers.Router.IsSuppressed` | crates/sonara-channels/src/router.rs:683-694 | A channel switched away from, with nothing new since. |
| `Routers.Router.Pick` | crates/sonara-channels/src/router.rs:730-774 | The channel to read next: hold, floor, priorities, focus, opening order, under gates, mutes and suppressions. |
| `Routers.Router.HasWork` | crates/sonara-channels/src/router.rs:1054-1056 | Something would be fed. |
| `Routers.Router.NextFeed` | crates/sonara-channels/src/router.rs:798-834 | The announcement armed, or the next entry of the pick, announced first on a hand-off. |
| `Routers.Router.NextChannel` | crates/sonara-channels/src/router.rs:845-905 | The next-session key: where it lands and all that the switch changes. |
| `Routers.Router.TakeFloor` | crates/sonara-channels/src/router.rs:909-925 | A channel takes the floor by hand. |
| `Routers.Router.ReadAt` | crates/sonara-channels/src/router.rs:950-979 | A channel is read from an entry or the top, as a replay with its hold or as a step. |
| `DriverRuns.AlwaysAgreed` | crates/sonara-channels/src/lib.rs:357-1317 | From a fresh driver, after every run of its operations and whatever the reader answered: an entry is in flight exactly if the router reads it, and if it is still in its batch it sits just before its channel's cursor. |
| `DriverRuns.DoAgrees` | crates/sonara-channels/src/lib.rs:379-1317 | Each single operation keeps driver and router in agreement. |
| `DriverRuns.OtherEndsAreIgnored` | crates/sonara-channels/src/lib.rs:1196-1203 | The end of an item that is not the one in flight changes nothing. |
| `DriverRuns.InterruptedComesBack` | crates/sonara-channels/src/lib.rs:566-583 | An entry of another channel cut by an interrupt is its channel's first unread entry again, unless set aside. |
| `DriverRuns.SwitchComesBack` | crates/sonara-channels/src/lib.rs:983-999 | So is one cut by the next-session key. |
| `DriverRuns.ReadFromComesBack` | crates/sonara-channels/src/lib.rs:1155-1186 | So is one cut by reading another channel from an entry. |
| `DriverRuns.RestartComesBack` | crates/sonara-channels/src/lib.rs:641-721 | So is one cut by a restart of another channel. |
| `DriverRuns.PushComesBack` | crates/sonara-channels/src/lib.rs:523-590 | So is one cut by text spoken with `interrupt` elsewhere. |
| `DriverRuns.FeedTells` | crates/sonara-channels/src/lib.rs:1223-1303 | A feed tells the reader of exactly the item that is then in flight. |
| `DriverRuns.PumpWaits` | crates/sonara-channels/src/lib.rs:1210-1219 | The pump speaks only with nothing in flight and the reader idle, and never cuts. |
| `DriverRuns.CutAndFeedTells` | crates/sonara-channels/src/lib.rs:1173-1186 | A cut always reaches the reader unless the reader says it plays nothing. |
| `DriverRuns.InterruptTells` | crates/sonara-channels/src/lib.rs:566-583 | So does the cut of an interrupt. |
| `DriverRuns.SwitchTells` | crates/sonara-channels/src/lib.rs:983-999 | So does the cut of the next-session key. |
| `Drivers.Driver.Feed` | crates/sonara-channels/src/lib.rs:1223-1303 | The loop over feeds that passes announcements with no wording; what ends in flight. |
| `Drivers.Driver.Pump` | crates/sonara-channels/src/lib.rs:1210-1219 | A feed only with nothing in flight and an idle reader. |
| `Drivers.Driver.CutIfOf` | crates/sonara-channels/src/lib.rs:1307-1317 | The item in flight is cut if it is of the channel. |
| `Drivers.Driver.CutFeed` | crates/sonara-channels/src/lib.rs:1173-1186 | The item in flight is cut, another channel's taken back, and the next one fed. |
| `Drivers.Driver.Ended` | crates/sonara-channels/src/lib.rs:1196-1203 | An end event of the item in flight feeds the next. |
| `Drivers.Driver.Push` | crates/sonara-channels/src/lib.rs:523-590 | Text into a channel, opened if needed: what makes way, the interrupt, what is fed. |
| `Drivers.Driver.Mute` | crates/sonara-channels/src/lib.rs:595-603 | A mute cuts what the channel has in flight. |
| `Drivers.Driver.CloseIt` | crates/sonara-channels/src/lib.rs:392-407 | A close cuts it too. |
| `Drivers.Driver.Next` | crates/sonara-channels/src/lib.rs:983-999 | The next-session key on the driver. |
| `Drivers.Driver.Stop` | crates/sonara-channels/src/lib.rs:645-661 | `stop` for all: every channel skipped, what was unread reported, the reader stopped. |
| `Drivers.Driver.ControlIt` | crates/sonara-channels/src/lib.rs:687-721 | `control` for one channel. |
| `Drivers.Driver.ControlReader` | crates/sonara-channels/src/lib.rs:645-686 | `control` without a channel. |
| `Drivers.Driver.Again` | crates/sonara-channels/src/lib.rs:669-685 | Restart while idle: the engaged channel, the focused one, or the one written last. |
| `Drivers.Driver.ReadNow` | crates/sonara-channels/src/lib.rs:1155-1169 | A channel is read from an entry or the top, its cut item taken care of. |
| `Drivers.Driver.Interrupt` | crates/sonara-channels/src/lib.rs:566-583 | What is in flight is cut, the channel takes the floor, the next is fed. |
| `Drivers.Driver.Backward` | crates/sonara-channels/src/lib.rs:760-807 | The back key: restart of the item or the entry before. |
| `Drivers.Driver.Onward` | crates/sonara-channels/src/lib.rs:813-842 | The forward key: the next entry. |
| `Drivers.Driver.StopReading` | crates/sonara-channels/src/lib.rs:930-951 | What is being read stops: its channel, its announcement with the channel it names, or the reader's own item. |
| `Drivers.Driver.Flush` | crates/sonara-channels/src/lib.rs:887-978 | The flush hotkey: what is being read, then the other channels named that have something unread. |
| `Wordings.QuestionText` | crates/sonara-agent/src/decision.rs:51-86 | A question, its options and the note of a multi-select: whatever is empty in them, there is something to read. |
| `Wordings.WordOptions` | crates/sonara-agent/src/decision.rs:53-68 | The loop over the options: one without a label is skipped but keeps its number. |
| `Wordings.PlanText` | crates/sonara-agent/src/decision.rs:89-96 | A plan always has something to read. |
| `Wordings.PermissionText` | crates/sonara-agent/src/decision.rs:100-107 | So has a permission prompt. |
| `Wordings.NumberedQuestion` | crates/sonara-agent/src/decision.rs:111-113 | So has a question of a set. |
| `Wordings.WithExtras` | crates/sonara-agent/src/decision.rs:116-127 | Notes and hints take nothing away: what had something to read still has. |
| `Wordings.TrimmedIs` | crates/sonara-agent/src/decision.rs:101-106 | Trimming leaves nothing exactly of blank text, and what it leaves is not blank. |
| `Wordings.MarkedNotBlank` | crates/sonara-core/src/code_speech.rs:24 | Prose in its spoken form, which starts with the mark, is never blank. |
| `RulesFrames.RefusedIsIgnored` | crates/sonara-agent/src/rules.rs:662-669 | An input of an earlier turn changes nothing and asks for nothing. |
| `RulesOnce.DecisionsConserved` | crates/sonara-agent/src/rules.rs:1440-1647 | No decision is lost or doubled: in every run and for every channel the numbers spoken or stored, those dropped and those still pending or held are, as a bag, those that waited before and those asked in the run. |
| `RulesDropped.StepCancels` | crates/sonara-agent/src/rules.rs:1396-1405 | A decision is dropped only by a turn start, an answer or a close of its own channel, or a stop that goes through it: no flush, hold cap, settle window, timer or summary ever drops one. |
| `RulesOnce.NotCancelledIsRead` | crates/sonara-agent/src/rules.rs:1440-1647 | In a run without those four inputs for the channel, every number that waited or was asked was spoken or stored, or still waits. |
| `RulesOnce.EachDecisionOnce` | crates/sonara-agent/src/rules.rs:1440-1647 | From the start each number asked is in exactly one place, once: read, dropped or waiting; and dropped only if one of the four inputs came. |
| `RulesOnce.AskedOnce` | crates/sonara-agent/src/rules.rs:1596-1600 | A run numbers each decision once, past the last number before it. |
| `RulesTimers.AlwaysTimed` | crates/sonara-agent/src/rules.rs:2192-2286 | After every run: pending decisions wait for a settle window or lead-in whose timer is outstanding, every held decision has its cap outstanding, every open gap its timer, every watched slot its watchdog. |
| `RulesTimers.StepLive` | crates/sonara-agent/src/rules.rs:2192-2286 | Each single input keeps that, from any state that has it. |
| `RulesTimers.FireBelow` | crates/sonara-agent/src/rules.rs:2210-2286 | A timer that fires asks only for timers of lower rank (lead-in and gap, settle, cap and watchdog). |
| `RulesEnds.FireAllIsRun` | crates/sonara-agent/src/rules.rs:2210-2286 | Firing all outstanding timers is a run of timer inputs after which none is outstanding, so every theorem on runs applies to it. |
| `RulesEnds.FiredAll` | crates/sonara-agent/src/rules.rs:2210-2286 | Firing all outstanding timers, in any order and with any focus, terminates; then every decision that waited was spoken or stored, no delta is held and no lead-in waited for, and serve_seq has reached next_seq with every slot served in order. |
| `RulesEnds.EverythingSettles` | crates/sonara-agent/src/rules.rs:2210-2286 | Whatever run comes first from the start: once all timers then outstanding have fired, every number ever asked was read or dropped by an input that cancels, and the slots served are all slots given out. |
| `RulesBuffer.ServedInOrder` | crates/sonara-agent/src/rules.rs:2459-2482 | For every interleaving of dispatches, answers (late, doubled, after a watchdog), watchdogs, cancels and closes: the slots served are 0, 1, 2, ... each once and in order, each with what it was given out for, and [serve_seq, next_seq) is the disjoint union of parked and watched. |
| `RulesBuffer.StepBook` | crates/sonara-agent/src/rules.rs:2210-2482 | Each single input keeps the book of slots, from any state that has it. |
| `RulesCancel.CancelledIsSilent` | crates/sonara-agent/src/rules.rs:2487-2496 | Cancellation is final: once a channel's generation is past, no text released under it is spoken or stored in any run, also when the channel closes and comes back. |
| `RulesCancel.CancelKills` | crates/sonara-agent/src/rules.rs:1396-1405 | A turn start that is not stale, an answer, a flush and a close put every generation minted before in the past. |
| `RulesCancel.StopKills` | crates/sonara-agent/src/rules.rs:1789-1795 | So does a stop, for every channel it goes through. |
| `RulesCancel.OldGapsAreDead` | crates/sonara-agent/src/rules.rs:2277-2283 | The timer of a gap that is over releases nothing in any later state, also of a channel that closed and came back and whose own count reached the same number. |
| `RulesJobs.InFlightIsUnanswered` | crates/sonara-agent/src/rules.rs:2359-2389 | In every run `inflight` is the number of unanswered jobs of the channel's current generation, and an unanswered job of an older one owns no held decision. |
| `RulesJobs.StaleAnswer` | crates/sonara-agent/src/rules.rs:2430-2457 | The late answer to a cancelled job changes no turn, so releases no newer decision, and a lead-in's says nothing. |
| `RulesProse.ProseConserved` | crates/sonara-agent/src/rules.rs:1212-1341 | With summaries off and not in mode `final`: in any run without a wipe, stop, flush or close of the channel, the chunks heard, then those held, are those held before, then what the assembler made (less code at `skip_code`), in order and each once, whatever read mode, queue length, verbosity, mute level and joining do; and every delta taken was fed or waits for its gap. |
| `RulesProse.NothingReadyWaits` | crates/sonara-agent/src/rules.rs:1309-1323 | While read mode, queue length and joining stay, nothing that is ready to be read is held after any input of any such run: each way a turn lets its prose go also reads what is held. |
| `RulesProse.HeldByMode` | crates/sonara-agent/src/rules.rs:1312-1317 | So from the start: in `immediate` nothing is held, in `queue` fewer chunks than `minqueue`, and nothing once the turn let its prose go. |
| `RulesProse.AllReadByTheEnd` | crates/sonara-agent/src/rules.rs:1408-1437 | So at the end of the turn everything the assembler made was heard, and every delta taken was fed once. |
| `RuleBooks.RuleBook.Handle` | crates/sonara-agent/src/rules.rs:711-2457 | Every input, on the fields in place: new state and actions are those of the step the run theorems quantify over, and the refusal of one of an earlier turn. |
| `RuleBooks.RuleBook.TurnOf` | crates/sonara-agent/src/rules.rs:738-744 | A turn made at first mention, under a fresh generation. |
| `RuleBooks.RuleBook.DropHeld` | crates/sonara-agent/src/rules.rs:821-843 | Held prose and held deltas dropped, and how much it was. |
| `RuleBooks.RuleBook.HoldKept` | crates/sonara-agent/src/rules.rs:848-855 | Prose kept for a summary goes before the held prose. |
| `RuleBooks.RuleBook.FlushUpto` | crates/sonara-agent/src/rules.rs:876-899 | The first chunks of the held prose: one text or one each. |
| `RuleBooks.RuleBook.SayHeld` | crates/sonara-agent/src/rules.rs:885-898 | The loop that joins chunks: a blank line before a paragraph, else a space, nothing before the first. |
| `RuleBooks.RuleBook.TakeLeadIn` | crates/sonara-agent/src/rules.rs:934-985 | A lead-in: a stale one is refused, one unwaited for, seen or blank reads nothing; a waiting decision goes after it. |
| `RuleBooks.RuleBook.ReleaseWait` | crates/sonara-agent/src/rules.rs:990-1000 | The decisions that waited go, or the settle window is armed. |
| `RuleBooks.RuleBook.WaitLeadIn` | crates/sonara-agent/src/rules.rs:1004-1021 | One wait at a time, timed. |
| `RuleBooks.RuleBook.Reply` | crates/sonara-agent/src/rules.rs:1026-1042 | The final reply is kept for the turn end; a stale one is refused. |
| `RuleBooks.RuleBook.TakeReply` | crates/sonara-agent/src/rules.rs:1046-1090 | In mode `final` the reply is assembled in place of the text between tools. |
| `RuleBooks.RuleBook.Stream` | crates/sonara-agent/src/rules.rs:1092-1187 | A delta: a stale one is refused, repeated and skipped ones are not read, the rest goes through the order. |
| `RuleBooks.RuleBook.ReleaseGap` | crates/sonara-agent/src/rules.rs:1191-1208 | Held deltas are let go and assembled. |
| `RuleBooks.RuleBook.Assemble` | crates/sonara-agent/src/rules.rs:1212-1341 | Deltas become chunks, kept, held or spoken. |
| `RuleBooks.RuleBook.FeedAll` | crates/sonara-agent/src/rules.rs:1235-1272 | The nested loops over deltas and chunks: texts, paragraph marks and the last paragraph end. |
| `RuleBooks.RuleBook.HoldTexts` | crates/sonara-agent/src/rules.rs:1303-1323 | What is ready is let go: all of it, or up to the paragraph end. |
| `RuleBooks.RuleBook.TurnStart` | crates/sonara-agent/src/rules.rs:1344-1391 | A new turn: text, summary work and decisions dropped; a stale one is refused. |
| `RuleBooks.RuleBook.TurnEnd` | crates/sonara-agent/src/rules.rs:1408-1437 | The end: chime, gaps, reply, held prose, settle window; a stale one is refused. |
| `RuleBooks.RuleBook.AskFor` | crates/sonara-agent/src/rules.rs:1440-1647 | A decision: suppressed, kept for later, or worded, numbered and sent on. |
| `RuleBooks.RuleBook.ToolRuns` | crates/sonara-agent/src/rules.rs:1652-1696 | A tool: the question is over; announced at `everything`. |
| `RuleBooks.RuleBook.Answered` | crates/sonara-agent/src/rules.rs:1702-1713 | What was queued before the answer is dropped. |
| `RuleBooks.RuleBook.CatchUp` | crates/sonara-agent/src/rules.rs:1721-1772 | Skipped to now: the decisions that waited come back, and whether anything was there. |
| `RuleBooks.RuleBook.StopAll` | crates/sonara-agent/src/rules.rs:1789-1795 | The loop over channels. |
| `RuleBooks.RuleBook.Flush` | crates/sonara-agent/src/rules.rs:1809-1816 | The rest of the reply is skipped, waiting decisions are spoken. |
| `RuleBooks.RuleBook.FlushReady` | crates/sonara-agent/src/rules.rs:1827-1837 | Only for an ended turn with something there. |
| `RuleBooks.RuleBook.TakeNewTurn` | crates/sonara-agent/src/rules.rs:1869-1884 | A tool or decision after the end begins a new turn once. |
| `RuleBooks.RuleBook.Close` | crates/sonara-agent/src/rules.rs:2149-2155 | The turn goes, watched slots stay. |
| `RuleBooks.RuleBook.SetMute` | crates/sonara-agent/src/rules.rs:2181-2188 | The level is capped, and mutes silence. |
| `RuleBooks.RuleBook.ArmSettle` | crates/sonara-agent/src/rules.rs:2192-2205 | The settle window under a fresh generation. |
| `RuleBooks.RuleBook.Fire` | crates/sonara-agent/src/rules.rs:2210-2286 | Each timer: matched against what it was armed for, else nothing. |
| `RuleBooks.RuleBook.Summarizing` | crates/sonara-agent/src/rules.rs:2291-2390 | A recap: raw, through the buffer, or a job. |
| `RuleBooks.RuleBook.EnqueueAll` | crates/sonara-agent/src/rules.rs:2230-2232 | The loop that speaks or holds each decision. |
| `RuleBooks.RuleBook.Enqueue` | crates/sonara-agent/src/rules.rs:2394-2427 | A decision is spoken after the held prose, or held, capped, behind the last job. |
| `RuleBooks.RuleBook.DigestDone` | crates/sonara-agent/src/rules.rs:2430-2457 | An answer: what it held, its landing, then the decisions. |
| `RuleBooks.RuleBook.Land` | crates/sonara-agent/src/rules.rs:2468-2482 | The `while let` loop that serves every ready slot. |
| `DeltaOrders.AcceptSays` | crates/sonara-agent/src/rules.rs:271-309 | What one delta lets go: a block's start comes behind all held of the last block; one late, doubled or given up comes behind all held; one ahead of a missing index waits, and opens a gap when it is the first; the expected one comes with exactly what follows it without a gap. |
| `DeltaOrders.ReleaseGivesUp` | crates/sonara-agent/src/rules.rs:316-337 | Letting go gives up exactly the missing indices below the last one held; one of them that comes after all is read at once and awaited no longer. |
| `Wordings.QuestionSays` | crates/sonara-agent/src/decision.rs:51-86 | A question says, in this order: its trimmed text, that several may be picked when they may, and of each option with a label its number, the label and the description. |
| `Wordings.OthersSay` | crates/sonara-agent/src/decision.rs:89-113 | A plan says that it is ready and its text, a permission prompt its text, a question of a set its place and its text. |
| `Wordings.DigitsAre` | crates/sonara-agent/src/decision.rs:111-113 | The digits written for a number stand for that number. |
| `Wordings.WorthwhileAre` | crates/sonara-agent/src/decision.rs:117-121 | The extras that count are those that are not blank, trimmed. |
| `Wordings.ExtrasSay` | crates/sonara-agent/src/decision.rs:116-127 | The text comes first, then each extra that is not blank, trimmed, in order. |
| `RulesSpeech.MuteDecides` | crates/sonara-agent/src/rules.rs:762-815 | For every input: aloud only at mute level 0, only kept above, no chime at level 2, nothing blank; and only a mute and the settings change the level. |
| `RulesSpeech.MutedRunsAreSilent` | crates/sonara-agent/src/rules.rs:762-815 | So in every run: while muted nothing is spoken aloud, while unmuted nothing is only kept. |
| `RulesTexts.FlushSays` | crates/sonara-agent/src/rules.rs:876-899 | The first chunks held are read, and only they: as one text when messages are read whole (the mark, then the chunks with a blank line before a paragraph and a space before any other), else each as its own text. |
| `RulesTexts.JoinedIs` | crates/sonara-agent/src/rules.rs:885-898 | The joining loop gives the chunks in order, each after its separator, none before the first that says something. |
| `RulesTexts.ToolIsAnnounced` | crates/sonara-agent/src/rules.rs:1652-1696 | A tool is announced, last, exactly at verbosity `everything` in a reply not skipped; the question is over in any case. |
| `RulesAsks.EveryAskIsNumbered` | crates/sonara-agent/src/rules.rs:1440-1600 | Every decision asked gets the next number, but two, which are not heard either: the permission prompt of the question awaiting its answer, and, stepping on, a later question of the set being shown. |
| `RulesAsks.AskedIsRead` | crates/sonara-agent/src/rules.rs:1440-1647 | With summaries off, no lead-in to come and nothing in flight it is read in the same step, last, with its full wording, after its chime and all the prose its channel held. |
| `RulesAsks.AskedIsHeld` | crates/sonara-agent/src/rules.rs:2394-2427 | Behind a summary in flight it joins those held for the last job, with its cap armed. |
| `RulesAsks.AskedIsPending` | crates/sonara-agent/src/rules.rs:1606-1636 | Otherwise it joins those pending, in order, with the settle window armed (summaries on) or its lead-in waited for and timed. |
| `RulesAsks.AskMarks` | crates/sonara-agent/src/rules.rs:1485-1525 | A question read awaits its answer and names the set the navigation goes through; a hint given once is not given again. |
| `RulesAsks.FinalReadsItAlone` | crates/sonara-agent/src/rules.rs:1567-1578 | In mode `final`, before the reply, it is read with no text before it: a permission prompt leaves the held text held, a plan and a question without lead-in drop it. |
| `RulesReads.SettleReads` | crates/sonara-agent/src/rules.rs:2213-2234 | When the settle window ends, first the recap, then what was pending: read in order with nothing in flight, else held in order behind the last job, each capped. |
| `RulesReads.SettleWaits` | crates/sonara-agent/src/rules.rs:2213-2234 | A window that is not the one armed, or that a lead-in holds up, reads nothing. |
| `RulesReads.CapReads` | crates/sonara-agent/src/rules.rs:2235-2251 | The cap of a decision still held lets all that is held go, in order; any other does nothing. |
| `RulesReads.AnswerReads` | crates/sonara-agent/src/rules.rs:2430-2457 | A job's answer reads exactly what was held behind that job, in order. |
| `RulesReads.WaitReads` | crates/sonara-agent/src/rules.rs:990-1000 | With summaries off and nothing in flight what waited for a lead-in is read in order. |
| `RulesReads.FlushReads` | crates/sonara-agent/src/rules.rs:1721-1816 | A flush reads what was pending, then what was held; no text, no decision and no summary waits after it, and the rest of the reply is skipped. |
| `RulesReads.FlushReadyReads` | crates/sonara-agent/src/rules.rs:1827-1837 | For another session: exactly when its turn ended and something was there, with what counts as something. |
| `RulesRecaps.LandIsHeard` | crates/sonara-agent/src/rules.rs:2468-2511 | Each slot served is followed by exactly what is to be heard of its release: nothing when its turn is over, the normal form of the recap, without a recap the text itself, for a lead-in nothing, without text the failure chime. A release whose slot is the next is served at once; a slot served or parked already is ignored. |
| `RulesRecaps.AnswerIsHeard` | crates/sonara-agent/src/rules.rs:2430-2511 | So of a job's answer, with the recap it brings and all those parked behind it. |
| `RulesRecaps.WatchdogIsHeard` | crates/sonara-agent/src/rules.rs:2252-2258 | So of a watchdog, with the text as it is. |
| `RulesRecaps.RecapIsRaw` | crates/sonara-agent/src/rules.rs:2291-2345 | While muted, and when short with the focus, what a recap would cover is read as it is, chunk by chunk or joined; with nothing to cover nothing happens. |
| `RulesRecaps.ShortIsServed` | crates/sonara-agent/src/rules.rs:2291-2358 | A short text without the focus goes through the reorder buffer as it is, and is heard at once when its slot is the next. |
| `RulesRecaps.JobGoesOut` | crates/sonara-agent/src/rules.rs:2359-2390 | Otherwise a job goes out with the text, counted as in flight; for a turn's end it takes the next slot and is watched. |
| `RulesTurns.StartClears` | crates/sonara-agent/src/rules.rs:1344-1391 | A turn's start leaves nothing of the one before (text, marks, reply, lead-in, summary work, decisions), drops its decisions and wipes what is queued. |
| `RulesTurns.StartRefuses` | crates/sonara-agent/src/rules.rs:662-669 | From then on messages of the turn before are refused, of those retired before it (the last sixteen), and those sent earlier; its own are not. |
| `RulesTurns.AnswerClears` | crates/sonara-agent/src/rules.rs:1702-1713 | An answer drops what waited, in order, wipes what is queued, and the question is over. |
| `RulesTurns.StopClears` | crates/sonara-agent/src/rules.rs:1789-1795 | A stop clears each channel it goes through, and no other. |
| `RulesTurns.NewTurnOnce` | crates/sonara-agent/src/rules.rs:1869-1884 | After a turn's end exactly the next tool or decision begins a new turn. |
| `RulesTurns.MuteSets` | crates/sonara-agent/src/rules.rs:2181-2188 | The level is capped at 2, and muting silences what sounds. |
| `RulesTurns.ReplyIsKept` | crates/sonara-agent/src/rules.rs:1026-1042 | The reply is kept trimmed with the report before it; a blank one is none. |
| `RulesTurns.UnreadIsSilent` | crates/sonara-agent/src/rules.rs:1092-1187 | A delta of an earlier turn, the lead-in or the reply again, and any in a skipped reply is neither read nor held. |
| `RulesTurns.OthersAreTaken` | crates/sonara-agent/src/rules.rs:1092-1187 | Any other is fed to the assembler or held for its order, once. |
| `RulesTurns.LeadInThenEcho` | crates/sonara-agent/src/rules.rs:934-985 | The hook's lead-in, then the same text streamed: it is read once. |
| `RulesTurns.EchoThenLeadIn` | crates/sonara-agent/src/rules.rs:934-985 | The same text streamed first: the lead-in is not read again, and the decision waits no longer. |
| `RulesTurns.WaitSees` | crates/sonara-agent/src/rules.rs:1106-1109 | A whole block streamed while a decision waits for its lead-in is remembered for that. |
| `RulesTurns.LateLeadIn` | crates/sonara-agent/src/rules.rs:934-960 | A late lead-in nothing waits for is not read. |
| `RulesTurns.OldLeadInTimer` | crates/sonara-agent/src/rules.rs:2259-2276 | A lead-in timer that is not the one waited for does nothing. |
| `RulesEndings.DeltaMarked` | crates/sonara-agent/src/rules.rs:1235-1272 | The texts of a delta are those the assembler makes, each marked exactly when a paragraph ended before it: within the delta, with the block before it, or with its own block's start. |
| `RulesEndings.DeltaEnds` | crates/sonara-agent/src/rules.rs:1235-1272 | The last paragraph end of a delta, up to which a whole message may be read at once. |
| `RulesEndings.SummariesKeep` | crates/sonara-agent/src/rules.rs:1287-1302 | With summaries on nothing is read: the turn keeps all the assembler made for its recap, code as its summary, and a running settle window starts anew. |
| `RulesEndings.HeldBackWaits` | crates/sonara-agent/src/rules.rs:1303-1323 | What the mode holds back stays held; of whole messages read at once those that ended are read, exactly up to the last paragraph end. |
| `RulesEndings.AskLetsGo` | crates/sonara-agent/src/rules.rs:1440-1443 | Whatever becomes of a decision, what its channel held for its order was let go before it. |
| `RulesEndings.EndSays` | crates/sonara-agent/src/rules.rs:1408-1437 | A turn's end: its chime first and no other; nothing stays held, for its order either; with summaries the settle window is armed. |
| `RulesEndings.FinalReadsTheReply` | crates/sonara-agent/src/rules.rs:1046-1090 | In mode `final` the end reads the reply, behind the report when that is long and the reply short, all of it, and nothing of the text between the tools. |
| `RulesEndings.LeadInTakesThePlace` | crates/sonara-agent/src/rules.rs:934-985 | In mode `final` a lead-in takes the place of the text held before it. |
| `RulesEndings.KeptIsRead` | crates/sonara-agent/src/rules.rs:2298-2305 | With summaries turned off while the turn settled the prose kept for the recap is read, before the text held, instead. |
| `RulesEndings.ToolComesAfterProse` | crates/sonara-agent/src/rules.rs:1652-1696 | A tool announced while prose is read as it comes follows all the prose before it; in the other modes it leaves the held text held. |
| `RulesEndings.OneWord` | crates/sonara-agent/src/rules.rs:1056 | What has no white space in it is one word. |
| `RulesEndings.WordsAdd` | crates/sonara-agent/src/rules.rs:1056 | Words are counted apart by white space. |
| `RouterPicks.PickIs` | crates/sonara-channels/src/router.rs:730-774 | The held replay, else the active channel, whoever else has priority; else the first prioritized channel that is audible, not suppressed and not gated; with none the focused one; if not, the first in opening order; nothing exactly when there is none. |
| `RouterPicks.PickLeaves` | crates/sonara-channels/src/router.rs:730-745 | Picking takes the priority and authorization from exactly the drained channels, the others keep their order; nothing else changes but a hold that is over. |
| `RouterKeys.SwitchReads` | crates/sonara-channels/src/router.rs:845-905 | The key lands on the next channel of the ring, announces it, and then reads all of it, whatever else waits: the batch from the top when nothing is unread, it is the current one or was being read again, else what is unread. |
| `RouterKeys.SwitchSilences` | crates/sonara-channels/src/router.rs:845-905 | The channel switched away from is suppressed until it has something new, the one landed on is not, any other as before. |
| `RouterKeys.ReadAtHolds` | crates/sonara-channels/src/router.rs:950-979 | A channel read by hand passes the gate and its suppression and holds the floor for all there is now; it counts as a replay, and is announced as one, only if it is one. |
| `RouterKeys.TakeFloorReads` | crates/sonara-channels/src/router.rs:909-925 | A channel that takes the floor reads what it has unread, announced first exactly when another one read last or it was about to be announced. |
| `RouterEdits.PushedUnread` | crates/sonara-channels/src/router.rs:221-236 | A text comes behind what is unread, before it, or in place of it; it ends a replay and a suppression; a caught-up channel whose batch ended starts a new batch. |
| `RouterEdits.PolicyDecides` | crates/sonara-channels/src/router.rs:604-609 | Under `latest` it replaces what is unread, under `queue` it follows. |
| `RouterEdits.AppendedUnread` | crates/sonara-channels/src/router.rs:641-657 | The agent's text follows what is unread; one only stored is read exactly when something is unread or being read; a decision is marked with whether it was stored. |
| `RouterEdits.EndedStartsAnew` | crates/sonara-channels/src/router.rs:670-674 | After the end of its batch the next text of a caught-up channel is a batch of its own. |
| `RouterEdits.GoneAre` | crates/sonara-channels/src/router.rs:260-285 | The decisions taken out: all, those read aloud, or those behind the cursor. |
| `RouterEdits.FlushedOne` | crates/sonara-channels/src/router.rs:1021-1034 | A flush leaves nothing unread, says how much it was, and ends the announcement and hold of that channel only. |
| `RouterEdits.FlushedAll` | crates/sonara-channels/src/router.rs:1035-1040 | A flush of everything leaves nothing to read or announce. |
| `RouterEdits.SetAsideSkips` | crates/sonara-channels/src/router.rs:987-1000 | An entry set aside is skipped and the others are not; taking it back restores the router. |
| `RouterEdits.RevisedText` | crates/sonara-channels/src/router.rs:1007-1016 | A revision changes the text of that entry alone. |
| `RouterEdits.MuteSilences` | crates/sonara-channels/src/router.rs:551-564 | A mute silences its channel, also one opened later, and ends its replay; it can be taken back. |
| `RouterEdits.OpenedAs` | crates/sonara-channels/src/router.rs:415-435 | A new channel is empty, last, and keeps the newest unless told to queue; an open one keeps its texts, and its policy unless given one. |
| `RouterEdits.LabelledOnce` | crates/sonara-channels/src/router.rs:440-451 | A label is given once, to an open channel without one. |
| `RouterEdits.FocusLetsRead` | crates/sonara-channels/src/router.rs:537-548 | A channel that loses the focus with something unread may still be read under the gate, and no other gains that. |
| `RouterEdits.AuthorizedMay` | crates/sonara-channels/src/router.rs:581-602 | What is authorized passes the gate. |
| `RouterEdits.SpentIsGated` | crates/sonara-channels/src/router.rs:798-834 | The authorization is spent with the last unread entry. |
| `RouterEdits.PrioritizedLast` | crates/sonara-channels/src/router.rs:714-722 | A prioritized channel is listed last, and once. |
| `RouterEdits.ClosedInTheTab` | crates/sonara-channels/src/router.rs:457-503 | After a close of the channel read last, a channel of its host tab reads unannounced, and exactly such a one. |
| `DriverTexts.FeedSays` | crates/sonara-channels/src/lib.rs:1223-1303 | What is fed is the first unread entry of its channel, with its text, or the announcement configured for its channel's label; and exactly that is what the reader is told to speak. |
| `DriverTexts.ArmedIsSaid` | crates/sonara-channels/src/lib.rs:1230-1256 | An armed announcement that is worded is what is fed, as a replay or not as it was armed. |
| `DriverTexts.WordedRight` | crates/sonara-channels/src/lib.rs:1238-1250 | The wording is the one configured; none only when announcements are off or none is configured for a channel without a label. |
| `DriverTexts.FillReplaces` | crates/sonara-channels/src/lib.rs:1239-1240 | The label replaces `{label}` at every place, and nothing else changes. |
| `DriverLands.BackLands` | crates/sonara-channels/src/lib.rs:760-807 | A step back within an entry goes to the reader; from its first chunk the batch is read from the entry before, from the first entry itself; once the entry left the batch, from the top. |
| `DriverLands.ForwardLands` | crates/sonara-channels/src/lib.rs:813-842 | A step on within an entry goes to the reader; from its last chunk the batch is read from the next entry, or from the cursor once it left; at the end nothing changes. |
| `DriverLands.NothingToStep` | crates/sonara-channels/src/lib.rs:760-842 | With no entry in flight a step back restarts, and one on does nothing. |
| `DriverLands.RestartLands` | crates/sonara-channels/src/lib.rs:669-686 | A restart while idle reads from the top the channel that reads, else read last, else is focused, else has the newest text; an agent's without text reads nothing. |
| `DriverLands.InterruptingIsNext` | crates/sonara-channels/src/lib.rs:523-590 | A host's text that interrupts is in flight or the first unread of its channel. |
| `DriverLands.SaidIsInFlight` | crates/sonara-channels/src/lib.rs:523-590 | The item reported for a text is the one it is in flight as, and there is one exactly when it is in flight at once. |
| `DriverLands.ReplacedIsReported` | crates/sonara-channels/src/lib.rs:523-565 | Exactly the unread texts a newer one replaces are reported and counted. |
| `DriverEdits.CutIs` | crates/sonara-channels/src/lib.rs:1307-1317 | What is in flight of the channel is skipped and reported, and nothing is in flight; what is of another channel is left alone. |
| `DriverEdits.MuteCuts` | crates/sonara-channels/src/lib.rs:595-603 | A mute cuts what is read of its channel, with a report, and no entry of it is read next; unmuting cuts nothing. |
| `DriverEdits.FedIsAudible` | crates/sonara-channels/src/lib.rs:1223-1303 | No entry of a muted channel is ever fed. |
| `DriverEdits.CloseReports` | crates/sonara-channels/src/lib.rs:392-407 | A close reports what was unread, then what was being read, which is cut. |
| `DriverEdits.StopReports` | crates/sonara-channels/src/lib.rs:646-661 | A stop reports every unread entry and the one being read, leaves nothing to read, and stops the reader. |
| `DriverEdits.StopOne` | crates/sonara-channels/src/lib.rs:690-700 | A stop of one channel reports and skips what it has unread and cuts what is read of it. |
| `DriverEdits.ControlGoesOn` | crates/sonara-channels/src/lib.rs:690-721 | Any other control goes to the reader exactly when the channel is being read. |
| `DriverEdits.RestartReadsOn` | crates/sonara-channels/src/lib.rs:662-668 | A restart while something is read reads that channel from the top. |
| `DriverEdits.InterruptIsOf` | crates/sonara-channels/src/lib.rs:566-583 | After an interrupt an audible channel with something unread is what is fed. |
| `DriverEdits.EndMovesOn` | crates/sonara-channels/src/lib.rs:1196-1203 | After its end an item is in flight no more; a later one may be. |
| `DriverEdits.HandOverCuts` | crates/sonara-channels/src/lib.rs:1270-1281 | A feed that interrupts skips what the reader still plays of another item, and only then. |
| `DriverEdits.MutedDoesNotInterrupt` | crates/sonara-channels/src/lib.rs:566-590 | A text for a muted channel cuts nothing. |
| `DriverEdits.FlushStops` | crates/sonara-channels/src/lib.rs:930-951 | The flush stops what is read: an entry's or an announcement's channel, or what the reader plays otherwise. |
| `DriverEdits.FlushTakesAlong` | crates/sonara-channels/src/lib.rs:952-978 | It takes along exactly the other channels named that have something unread, in opening order, and lets a paused reader play on. |
| `Sequencer.AdmittedUnless` | crates/sonara-agent/src/sequencer.rs:46-76 | An earcon is refused only as a repeat of the last live slot or with `MAX` live; else it takes the last place and starts now, or right behind the live slots and the last key sound. |

## Left out

- Audio devices, sockets, processes, the command line, settings files, logs and notes: I/O.
- The question navigation and the screen follower (bodies, texts and entries of a question set): index
  arithmetic; of a question set only its size is kept, which `ask` needs.
- The tags of pushed text, the hooks that report cuts and drops as calls: drops are collected in a list.
- The prose assembler, the text normalisation and the reader's own state machine are not part of this
  model: they enter as functions and as answers.
- The tokenizer of licence expressions (a regular expression); the election is proved on token lists.
- The other functions of packaging/notices/gen_notices.py: they walk data of the package manager.
- Durations of timers: a timer may fire at any later point of a run.
- Reader errors: an operation whose call to the reader fails is not modelled.
- The lock and its poisoning: a driver operation is one step.
- Routers.Router.Open: the vector of channels is an order of ids and a map; indices do not appear.
- DeltaOrders.DeltaOrder.Take: the sorted map of deltas held is a list in ascending index.
- RuleBooks.RuleBook.StopAll: takes the list of channels as a parameter, any list; the source goes through
  its own channels in sorted order.
- RuleBooks.RuleBook.AskFor: keeps of a question set only its size, not the questions' texts and wordings
  that the navigation and the screen follower read back.
- RuleBooks.RuleBook.TurnOf: a turn is a value in the map of turns, written back where the source changes
  it through a reference; its delta order becomes a `DeltaOrder` object for the length of a call.
- RulesProse.ProseConserved: says nothing of runs with summaries on or in mode `final`: there the source
  drops prose on purpose, and promises no order across a change of summaries within a turn.
- RulesOnce.DecisionsConserved: says how often each decision comes out over a run; the order is stated for
  each input that lets decisions go (`RulesReads`): a flush reads the pending ones before those held
  (crates/sonara-agent/src/rules.rs:1729-1730).
- DriverRuns.AlwaysAgreed: the operations that only pass a call on to the router (focus, priorities,
  authorisation, revision, setting aside) are in the runs, but have no method of their own in `Drivers`.
- Licences.ElectionIsSound: a group with nothing allowed raises even where an outer OR could avoid it, as
  the code does; `Electable` asks it of every group.
- Earcons.SoundInOrder: the order of sounding, not the real times at which devices play.
