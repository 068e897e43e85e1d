/**
 The router as a value: channels with their batches and read cursors, which channel reads, and the
 switch announcements. Every operation is a function from the state before to the state after. The
 vector of open channels is modelled as the opening order plus the channels by id.
 */
module RouterModel {
  import opened Options

  type Id = string

  datatype Policy = Latest | Queue
  datatype Entry = Entry(id: nat, text: string, title: Option<string>)

  // Which decisions leave a batch: every one, those read aloud, those read or stored.
  datatype Resolved = All | Heard | Settled

  // `entries` is the batch, `cursor` the next to read. `decisions`: the entries that are
  // decisions, each with whether it was stored rather than fed. `aside`: passed over by the cursor.
  datatype Chan = Chan(
    title: Option<string>,
    hostTab: Option<string>,
    policy: Policy,
    entries: seq<Entry>,
    cursor: nat,
    gen: nat,
    replaying: bool,
    muted: bool,
    growing: bool,
    decisions: map<nat, bool>,
    agent: bool,
    aside: set<nat>)

  // ---- One channel -----------------------------------------------------------

  function Fresh(title: Option<string>, hostTab: Option<string>, policy: Policy, muted: bool): Chan {
    Chan(title, hostTab, policy, [], 0, 0, false, muted, false, map[], false, {})
  }

  /** `entries` without the ones set aside. */
  function NotAside(entries: seq<Entry>, aside: set<nat>): seq<Entry> {
    if entries == [] then []
    else if entries[0].id in aside then NotAside(entries[1..], aside)
    else [entries[0]] + NotAside(entries[1..], aside)
  }

  function Ahead(c: Chan): seq<Entry> {
    if c.cursor <= |c.entries| then c.entries[c.cursor..] else []
  }

  function Unread(c: Chan): seq<Entry> {
    NotAside(Ahead(c), c.aside)
  }

  function Pending(c: Chan): nat {
    |Unread(c)|
  }

  predicate CaughtUp(c: Chan) {
    Pending(c) == 0
  }

  function Emptied(c: Chan): Chan {
    c.(entries := [], decisions := map[], aside := {}, cursor := 0)
  }

  /** Add an entry: a caught-up channel starts a new batch unless its last entry is being read or
      the batch grows. */
  function PushEntry(c: Chan, e: Entry, replace: bool, front: bool, reading: bool): Chan {
    var c1 := if replace || (CaughtUp(c) && !reading && !c.growing) then Emptied(c) else c;
    var at := if front && c1.cursor <= |c1.entries| then c1.cursor else |c1.entries|;
    c1.(entries := c1.entries[..at] + [e] + c1.entries[at..], gen := c1.gen + 1, replaying := false)
  }

  /** The first place from `i` on that is not set aside. */
  function SkipAside(entries: seq<Entry>, i: nat, aside: set<nat>): (k: nat)
    ensures i <= |entries| ==> i <= k <= |entries|
    decreases |entries| - i
  {
    if i < |entries| && entries[i].id in aside then SkipAside(entries, i + 1, aside) else i
  }

  function TakeEntry(c: Chan): (Chan, Option<Entry>) {
    var k := SkipAside(c.entries, c.cursor, c.aside);
    if k < |c.entries| then (c.(cursor := k + 1), Some(c.entries[k])) else (c.(cursor := k), None)
  }

  /** Mark every unread entry read; how many there were. */
  function SkipToEnd(c: Chan): (Chan, nat) {
    (c.(cursor := |c.entries|), Pending(c))
  }

  /** Decision `id`, before the cursor or not, is one `which` names. */
  predicate Goes(c: Chan, id: nat, before: bool, which: Resolved) {
    id in c.decisions &&
    match which
    case All => true
    case Heard => before && !c.decisions[id]
    case Settled => before
  }

  function Those(c: Chan, entries: seq<Entry>, before: bool, which: Resolved, gone: bool): seq<Entry> {
    if entries == [] then []
    else if Goes(c, entries[0].id, before, which) == gone then
      [entries[0]] + Those(c, entries[1..], before, which, gone)
    else Those(c, entries[1..], before, which, gone)
  }

  function EntryIds(entries: seq<Entry>): set<nat> {
    set e | e in entries :: e.id
  }

  /** Take the decisions `which` names out of the batch; the ones that were unread. */
  function DropThe(c: Chan, which: Resolved): (Chan, seq<Entry>) {
    var at := if c.cursor <= |c.entries| then c.cursor else |c.entries|;
    var read, ahead := c.entries[..at], c.entries[at..];
    var gone := EntryIds(Those(c, read, true, which, true)) + EntryIds(Those(c, ahead, false, which, true));
    (c.(entries := Those(c, read, true, which, false) + Those(c, ahead, false, which, false),
        cursor := |Those(c, read, true, which, false)| + (c.cursor - at),
        decisions := c.decisions - gone,
        aside := c.aside - gone),
     Those(c, ahead, false, which, true))
  }

  /** Step back over `entry` if it is the one just taken. */
  function StepBack(c: Chan, entry: nat): (Chan, bool) {
    if 0 < c.cursor <= |c.entries| && c.entries[c.cursor - 1].id == entry then (c.(cursor := c.cursor - 1), true)
    else (c, false)
  }

  /** Where entry `entry` is in the batch, or its length. */
  function Where(entries: seq<Entry>, entry: nat): (i: nat)
    ensures i <= |entries|
    ensures i < |entries| ==> entries[i].id == entry
    ensures forall k :: 0 <= k < i ==> entries[k].id != entry
  {
    if entries == [] || entries[0].id == entry then 0 else 1 + Where(entries[1..], entry)
  }

  // ---- All of them -----------------------------------------------------------

  datatype Switch = Switch(channel: Id, replay: bool, manual: bool)

  datatype Feed =
    | Announce(channel: Id, title: Option<string>, replay: bool, manual: bool)
    | Read(channel: Id, entry: Entry)

  datatype Router = Router(
    order: seq<Id>,
    chans: map<Id, Chan>,
    nextEntry: nat,
    active: Option<Id>,                 // reads now
    lastActive: Option<Id>,             // read last, open
    lastReader: Option<Id>,             // read last, also when closed since
    closedReaderTab: Option<string>,    // the host tab of a closed last reader
    focus: Option<Id>,
    announce: Option<Switch>,           // armed, fed before the next entry
    reading: Option<(Id, nat)>,         // the entry fed last, until it ends
    suppressed: map<Id, nat>,           // switched away from, at this content generation
    priority: seq<Id>,
    hold: Option<(Id, nat)>,            // a replay holding the floor for the entries up to a mark
    muted: set<Id>,
    focusOnly: bool,
    authorized: set<Id>)

  const EMPTY := Router([], map[], 0, None, None, None, None, None, None, None, map[], [], None, {}, false, {})

  function Update(r: Router, id: Id, c: Chan): Router {
    r.(chans := r.chans[id := c])
  }

  function Engaged(r: Router): Option<Id> {
    if r.active.Some? then r.active else r.lastActive
  }

  /** Open `id`, or update an open channel; true when it was created. */
  function Open(r: Router, id: Id, title: Option<string>, hostTab: Option<string>, policy: Option<Policy>): (Router,
      bool) {
    if id in r.chans then
      var c := r.chans[id];
      (Update(r, id, c.(title := title, hostTab := hostTab,
                        policy := if policy.Some? then policy.value else c.policy)), false)
    else
      (Update(r, id, Fresh(title, hostTab, if policy.Some? then policy.value else Latest, id in r.muted))
       .(order := r.order + [id]), true)
  }

  function LabelIfMissing(r: Router, id: Id, title: string): (Router, bool) {
    if title != "" && id in r.chans && (r.chans[id].title == None || r.chans[id].title == Some("")) then
      (Update(r, id, r.chans[id].(title := Some(title))), true)
    else (r, false)
  }

  /** Whether `id` taking the floor is a switch: another channel read last, and `id` does not
      replace it in its host tab. */
  predicate IsHandoff(r: Router, id: Id) {
    r.lastReader.Some? && r.lastReader.value != id &&
    var tab := if id in r.chans then r.chans[id].hostTab else None;
    !(tab.Some? && tab == r.closedReaderTab)
  }

  function SetReader(r: Router, id: Id): Router {
    r.(active := Some(id), lastActive := Some(id), lastReader := Some(id), closedReaderTab := None)
  }

  function Unless(o: Option<Id>, id: Id): Option<Id> {
    if o == Some(id) then None else o
  }

  function Without(ids: seq<Id>, id: Id): seq<Id> {
    if ids == [] then [] else if ids[0] == id then Without(ids[1..], id) else [ids[0]] + Without(ids[1..], id)
  }

  /** End the replay hold if it is `id`'s. */
  function EndHoldOf(r: Router, id: Id): Router {
    if r.hold.Some? && r.hold.value.0 == id then r.(hold := None) else r
  }

  function Close(r: Router, id: Id): (Router, bool) {
    if id !in r.chans then (r, false) else
      var tab := r.chans[id].hostTab;
      (EndHoldOf(r.(order := Without(r.order, id), chans := r.chans - {id},
                    closedReaderTab := if r.lastReader == Some(id) then (if tab == Some("") then None else tab)
                                       else r.closedReaderTab,
                    active := Unless(r.active, id), lastActive := Unless(r.lastActive, id),
                    focus := Unless(r.focus, id),
                    announce := if r.announce.Some? && r.announce.value.channel == id then None else r.announce,
                    reading := if r.reading.Some? && r.reading.value.0 == id then None else r.reading,
                    suppressed := r.suppressed - {id}, priority := Without(r.priority, id),
                    authorized := r.authorized - {id}), id), true)
  }

  predicate Ready(r: Router, id: Id) {
    id in r.chans && Pending(r.chans[id]) > 0
  }

  /** Something unread and not muted. */
  predicate Audible(r: Router, id: Id) {
    id in r.chans && Pending(r.chans[id]) > 0 && !r.chans[id].muted
  }

  /** `id` is audible and still has an unread entry of the batch its replay started with. */
  predicate Holds(r: Router, id: Id, mark: nat) {
    Audible(r, id) && exists e :: e in Unread(r.chans[id]) && e.id <= mark
  }

  function Focus(r: Router, id: Id): (Router, bool) {
    if id !in r.chans then (r, false) else
      var r1 := if r.focus.Some? && r.focus.value != id && Ready(r, r.focus.value)
                then r.(authorized := r.authorized + {r.focus.value}) else r;
      (r1.(focus := Some(id)), true)
  }

  function SetMuted(r: Router, id: Id, muted: bool): Router {
    var r1 := r.(muted := if muted then r.muted + {id} else r.muted - {id});
    var r2 := if id in r1.chans then Update(r1, id, r1.chans[id].(muted := muted)) else r1;
    if muted then EndHoldOf(r2, id) else r2
  }

  function Authorize(r: Router, id: Id): (Router, bool) {
    if id in r.chans then (r.(authorized := r.authorized + {id}), true) else (r, false)
  }

  /** The focus-only gate holds `id` back. */
  predicate Gated(r: Router, id: Id) {
    r.focusOnly && r.focus.Some? && r.focus.value != id && id !in r.authorized
  }

  predicate IsReading(r: Router, id: Id) {
    r.reading.Some? && r.reading.value.0 == id
  }

  function PushWith(r: Router, id: Id, text: string, title: Option<string>, replace: bool, front: bool): (Router,
      Option<nat>) {
    if id !in r.chans then (r, None) else
      var e := Entry(r.nextEntry + 1, text, title);
      (Update(r, id, PushEntry(r.chans[id], e, replace, front, IsReading(r, id))).(nextEntry := r.nextEntry + 1),
       Some(r.nextEntry + 1))
  }

  function Push(r: Router, id: Id, text: string, title: Option<string>): (Router, Option<nat>) {
    if id !in r.chans then (r, None) else PushWith(r, id, text, title, r.chans[id].policy.Latest?, false)
  }

  /** The agent's text: its batch grows; `heard` stores it read unless the channel has something
      unread or is being read. */
  function Append(r: Router, id: Id, text: string, decision: bool, heard: bool): (Router, Option<nat>) {
    if id !in r.chans then (r, None) else
      var unread := Pending(r.chans[id]) > 0 || IsReading(r, id);
      var (r1, _) := PushWith(r, id, text, None, false, false);
      var entry := r.nextEntry + 1;
      var c := r1.chans[id];
      var c1 := c.(growing := true, agent := true,
                   decisions := if decision then c.decisions[entry := heard] else c.decisions);
      (Update(r1, id, if heard && !unread then c1.(cursor := |c1.entries|) else c1), Some(entry))
  }

  function DropDecisions(r: Router, id: Id, which: Resolved): (Router, seq<Entry>) {
    if id !in r.chans then (r, []) else
      var (c, unread) := DropThe(r.chans[id], which);
      (Update(r, id, c), unread)
  }

  function EndBatch(r: Router, id: Id): Router {
    if id in r.chans then Update(r, id, r.chans[id].(growing := false)) else r
  }

  /** Switched away from, and unchanged since. */
  predicate Suppressed(r: Router, id: Id) {
    id in r.suppressed && id in r.chans && r.chans[id].gen == r.suppressed[id]
  }

  /** Asking lifts a suppression that no longer holds. */
  function AskSuppressed(r: Router, id: Id): Router {
    if id in r.suppressed && !Suppressed(r, id) then r.(suppressed := r.suppressed - {id}) else r
  }

  predicate Pickable(r: Router, id: Id) {
    Audible(r, id) && !Suppressed(r, id) && !Gated(r, id)
  }

  function AskPickable(r: Router, id: Id): Router {
    if Audible(r, id) then AskSuppressed(r, id) else r
  }

  function FirstPickable(r: Router, ids: seq<Id>): (Router, Option<Id>)
    decreases |ids|
  {
    if ids == [] then (r, None)
    else if Pickable(r, ids[0]) then (AskPickable(r, ids[0]), Some(ids[0]))
    else FirstPickable(AskPickable(r, ids[0]), ids[1..])
  }

  function Prioritize(r: Router, id: Id): (Router, bool) {
    if id !in r.chans then (r, false)
    else (if id in r.priority then r else r.(priority := r.priority + [id]), true)
  }

  function ReadyOnes(r: Router, ids: seq<Id>): seq<Id> {
    if ids == [] then []
    else if Ready(r, ids[0]) then [ids[0]] + ReadyOnes(r, ids[1..])
    else ReadyOnes(r, ids[1..])
  }

  /** Drained channels lose their priority and their authorization. */
  function Prune(r: Router): Router {
    r.(priority := ReadyOnes(r, r.priority), authorized := set a | a in r.authorized && Ready(r, a))
  }

  predicate Held(r: Router) {
    r.hold.Some? && Holds(r, r.hold.value.0, r.hold.value.1)
  }

  /** The channel to read next: a held replay, the one reading, a prioritized one, the focused one,
      the first in opening order. */
  function Pick(r: Router): (Router, Option<Id>) {
    var r1 := Prune(r);
    if Held(r1) then (r1, Some(r1.hold.value.0)) else
      var r2 := r1.(hold := None);
      if r2.active.Some? && Audible(r2, r2.active.value) then (r2, r2.active) else PickWaiting(r2)
  }

  function PickWaiting(r: Router): (Router, Option<Id>) {
    var (r1, first) := FirstPickable(r, r.priority);
    if first.Some? then (r1, first)
    else if r1.focus.Some? && Audible(r1, r1.focus.value) && !Suppressed(r1, r1.focus.value) then
      (AskSuppressed(r1, r1.focus.value), r1.focus)
    else
      var r2 := if r1.focus.Some? then AskPickable(r1, r1.focus.value) else r1;
      FirstPickable(r2, r2.order)
  }

  function Arm(r: Router, id: Id, replay: bool, manual: bool): Router {
    r.(announce := Some(Switch(id, replay, manual)))
  }

  /** The announcement of the armed switch. */
  function FeedAnnounce(r: Router): (Router, Option<Feed>)
    requires r.announce.Some? && r.announce.value.channel in r.chans
  {
    var sw := r.announce.value;
    var title := r.chans[sw.channel].title;
    (r.(announce := None),
     Some(Announce(sw.channel, if title == Some("") then None else title, sw.replay, sw.manual)))
  }

  /** The next thing to read: an armed announcement, else the next entry of the picked channel, a
      hand-off announced before it. */
  function NextFeed(r: Router): (Router, Option<Feed>) {
    var r0 := r.(reading := None);
    if r0.announce.Some? && r0.announce.value.channel in r0.chans then FeedAnnounce(r0)
    else
      var (r1, target) := Pick(r0.(announce := None));
      if target == None then (r1.(active := None), None)
      else FeedFrom(r1, target.value)
  }

  function FeedFrom(r: Router, id: Id): (Router, Option<Feed>) {
    if r.active != Some(id) && IsHandoff(r, id) && id in r.chans then
      FeedAnnounce(Arm(SetReader(r, id), id, false, false))
    else FeedEntry(if r.active != Some(id) then SetReader(r, id) else r, id)
  }

  function FeedEntry(r: Router, id: Id): (Router, Option<Feed>) {
    if id !in r.chans then (r, None) else
      var (c, e) := TakeEntry(r.chans[id]);
      var r1 := Update(r, id, c);
      if e == None then (r1, None) else
        (r1.(authorized := if Pending(c) == 0 then r1.authorized - {id} else r1.authorized,
             reading := Some((id, e.value.id))), Some(Read(id, e.value)))
  }

  function Done(r: Router): Router {
    r.(reading := None)
  }

  function ClearAnnounce(r: Router): Router {
    r.(announce := None)
  }

  /** Those of `ids` that are open and not muted (or, `batch`, have a batch). */
  function Unmuted(r: Router, ids: seq<Id>): (s: seq<Id>)
    ensures forall id :: id in s <==> id in ids && id in r.chans && !r.chans[id].muted
  {
    if ids == [] then []
    else if ids[0] in r.chans && !r.chans[ids[0]].muted then [ids[0]] + Unmuted(r, ids[1..])
    else Unmuted(r, ids[1..])
  }

  function NonEmpty(r: Router, ids: seq<Id>): (s: seq<Id>)
    ensures forall id :: id in s <==> id in ids && id in r.chans && r.chans[id].entries != []
  {
    if ids == [] then []
    else if ids[0] in r.chans && r.chans[ids[0]].entries != [] then [ids[0]] + NonEmpty(r, ids[1..])
    else NonEmpty(r, ids[1..])
  }

  /** The channels `NextChannel` goes around: the unmuted ones (all if every one is muted), of them
      those with a batch (all if every one is empty). */
  function Ring(r: Router): (ring: seq<Id>)
    ensures r.order != [] ==> ring != []
    ensures forall id :: id in ring ==> id in r.order
  {
    var audible := Unmuted(r, r.order);
    var base := if audible == [] then r.order else audible;
    var full := NonEmpty(r, base);
    if full == [] then base else full
  }

  function Place(ids: seq<Id>, id: Id): (i: nat)
    ensures i <= |ids| && (i < |ids| <==> id in ids)
    ensures i < |ids| ==> ids[i] == id
  {
    if ids == [] || ids[0] == id then 0 else 1 + Place(ids[1..], id)
  }

  /** The first member of `ring` at or after step `j` around `all` from place `i`. */
  function Around(all: seq<Id>, ring: seq<Id>, i: nat, j: nat): (id: Id)
    requires ring != [] && i < |all|
    ensures id in ring
    decreases |all| + 1 - j
  {
    if j > |all| then ring[0]
    else if all[(i + j) % |all|] in ring then all[(i + j) % |all|]
    else Around(all, ring, i, j + 1)
  }

  function NextTarget(r: Router): Id
    requires r.order != []
  {
    var ring := Ring(r);
    var cur := Engaged(r);
    if cur.Some? && cur.value in ring then ring[(Place(ring, cur.value) + 1) % |ring|]
    else if cur.Some? && cur.value in r.order then Around(r.order, ring, Place(r.order, cur.value), 1)
    else ring[0]
  }

  /** Move the reading channel one step around the ring and arm its announcement. */
  function NextChannel(r: Router): (Router, Option<(Id, bool)>) {
    if r.order == [] then (r, None) else
      var cur := Engaged(r);
      var target := NextTarget(r);
      var r1 := if r.active.Some? && r.active.value != target && r.active.value in r.chans
                then r.(suppressed := r.suppressed[r.active.value := r.chans[r.active.value].gen]) else r;
      var r2 := r1.(suppressed := r1.suppressed - {target});
      if target !in r2.chans then (r2, None) else
        var c := r2.chans[target];
        var replay := CaughtUp(c) || cur == Some(target) || c.replaying;
        var r3 := if replay then Update(r2, target, c.(cursor := 0, replaying := true)) else r2;
        var r4 := Arm(SetReader(r3, target), target, replay, true);
        (r4.(hold := if replay then Some((target, r4.nextEntry)) else None), Some((target, replay)))
  }

  /** `id` reads now, announced when another channel read last. */
  function TakeFloor(r: Router, id: Id): (Router, bool) {
    if id !in r.chans then (r, false) else
      var handoff := IsHandoff(r, id);
      var r1 := SetReader(r, id).(suppressed := r.suppressed - {id});
      var r2 := if r1.hold.Some? && r1.hold.value.0 != id then r1.(hold := None) else r1;
      (if handoff then Arm(r2, id, false, false)
       else if r2.announce.Some? && r2.announce.value.channel != id then r2.(announce := None)
       else r2, true)
  }

  /** Read `id`'s batch from `entry` on (or the top) as something the user started: it holds the
      floor. `replay`: it counts as a replay in progress. */
  function ReadAt(r: Router, id: Id, entry: Option<nat>, replay: bool): (Router, bool) {
    if id !in r.chans || r.chans[id].entries == [] then (r, false) else
      var c := r.chans[id];
      var at := if entry.Some? then Where(c.entries, entry.value) else 0;
      if at == |c.entries| then (r, false) else
        var r1 := Update(r, id, c.(cursor := at, replaying := replay || c.replaying));
        var handoff := IsHandoff(r1, id);
        var r2 := SetReader(r1, id).(suppressed := r1.suppressed - {id}, authorized := r1.authorized + {id},
                                     hold := Some((id, r1.nextEntry)));
        (if handoff then Arm(r2, id, replay, true) else r2, true)
  }

  function SetAside(r: Router, id: Id, entry: nat, aside: bool): (Router, bool) {
    if id !in r.chans || Where(r.chans[id].entries, entry) == |r.chans[id].entries| then (r, false) else
      var c := r.chans[id];
      (Update(r, id, c.(aside := if aside then c.aside + {entry} else c.aside - {entry})), true)
  }

  /** Replace the text of an entry in place. */
  function Revise(r: Router, id: Id, entry: nat, text: string): (Router, bool) {
    if id !in r.chans || Where(r.chans[id].entries, entry) == |r.chans[id].entries| then (r, false) else
      var c := r.chans[id];
      var k := Where(c.entries, entry);
      (Update(r, id, c.(entries := c.entries[k := c.entries[k].(text := text)])), true)
  }

  /** `id`'s armed announcement and its hold end. */
  function Disarm(r: Router, id: Id): Router {
    EndHoldOf(if r.announce.Some? && r.announce.value.channel == id then r.(announce := None) else r, id)
  }

  /** Skip one channel to its end; the agent's next text starts a new batch. */
  function FlushOne(r: Router, id: Id): (Router, nat) {
    var r2 := Disarm(r, id);
    if id !in r2.chans then (r2, 0) else
      var (c, n) := SkipToEnd(r2.chans[id].(growing := false));
      (Update(r2, id, c), n)
  }

  function FlushAll(r: Router): (Router, nat) {
    (r.(announce := None, hold := None, chans := map id | id in r.chans :: SkipToEnd(r.chans[id]).0), TotalPending(r))
  }

  function Rewind(r: Router, id: Id, entry: nat): (Router, bool) {
    if id !in r.chans then (r, false) else
      var (c, ok) := StepBack(r.chans[id], entry);
      (Update(r, id, c), ok)
  }

  function Sum(r: Router, ids: seq<Id>): nat {
    if ids == [] then 0
    else (if ids[0] in r.chans then Pending(r.chans[ids[0]]) else 0) + Sum(r, ids[1..])
  }

  /** Unread entries over all channels. */
  function TotalPending(r: Router): nat {
    Sum(r, r.order)
  }

  function HasWork(r: Router): (Router, bool) {
    if r.announce.Some? then (r, true) else
      var (r1, picked) := Pick(r);
      (r1, picked.Some?)
  }
}
