/** Where the keys land: the entry or the channel that is read after a step back or on, and after a restart. */
module DriverLands {
  import opened Options
  import opened RouterModel
  import opened RouterInvariants
  import opened RouterFeeding
  import opened RouterFloor
  import opened DriverModel
  import opened DriverAgreement
  import opened DriverRuns

  /** The batch of `ch` is read from place `k` on: its first entry there that is not set aside is in flight, or is
      the next unread one. */
  ghost predicate ReadsOn(d: Driver, d': Driver, ch: Id, k: nat) {
    && ch in d.router.chans && k <= |d.router.chans[ch].entries|
    && var c := d.router.chans[ch];
       var due := NotAside(c.entries[k..], c.aside);
       due != [] ==> StillFirst(d', ch, due[0].id)
  }

  // ---- Reading from a place --------------------------------------------------

  /** The batch is read from entry `from` on. */
  lemma {:induction false} ReadAtFirst(r: Router, ch: Id, from: Option<nat>, replay: bool)
    requires Inv(r) && ch in r.chans
    ensures var (r', ok) := ReadAt(r, ch, from, replay); var c := r.chans[ch];
            var k := if from.Some? then Where(c.entries, from.value) else 0;
            && k <= |c.entries|
            && ok == (k < |c.entries|)
            && (!ok ==> r' == r)
            && (ok ==>
                  && ch in r'.chans && r'.chans[ch].entries == c.entries && r'.chans[ch].aside == c.aside
                  && Unread(r'.chans[ch]) == NotAside(c.entries[k..], c.aside)
                  && r'.active == Some(ch) && r'.chans[ch].muted == c.muted)
  {
    var c := r.chans[ch];
    var k := if from.Some? then Where(c.entries, from.value) else 0;
    ReadAtIs(r, ch, from, replay);
    hide Inv, NotAside, Where, Unread, ReadAt;
    if k < |c.entries| {
      UnreadFrom(c.(cursor := k, replaying := replay || c.replaying));
    }
  }

  lemma {:induction false} ReadAtIs(r: Router, ch: Id, from: Option<nat>, replay: bool)
    requires ch in r.chans
    ensures var (r', ok) := ReadAt(r, ch, from, replay); var c := r.chans[ch];
            var k := if from.Some? then Where(c.entries, from.value) else 0;
            && ok == (k < |c.entries|)
            && (!ok ==> r' == r)
            && (ok ==>
                  && r'.chans == r.chans[ch := c.(cursor := k, replaying := replay || c.replaying)]
                  && r'.active == Some(ch))
  {
    hide Where, IsHandoff;
  }

  lemma {:induction false} ReadFromReads(d: Driver, ch: Id, from: Option<nat>, replay: bool)
    requires Inv(d.router) && ch in d.router.chans
    requires d.inFlight.Some? ==> d.inFlight.value.channel == ch
    ensures var (d', ok) := ReadFrom(d, ch, from, replay);
            var k := if from.Some? then Where(d.router.chans[ch].entries, from.value) else 0;
            ok == (k < |d.router.chans[ch].entries|) && (!ok ==> d' == d) && (ok ==> ReadsOn(d, d', ch, k))
  {
    hide Inv, ReadAt, FeedNext, NotAside, Unread, Where, StillFirst;
    ReadAtFirst(d.router, ch, from, replay);
    ReadAtKeeps(d.router, ch, from, replay);
    var (r, ok) := ReadAt(d.router, ch, from, replay);
    var c := d.router.chans[ch];
    var k := if from.Some? then Where(c.entries, from.value) else 0;
    if ok && NotAside(c.entries[k..], c.aside) != [] {
      var e := NotAside(c.entries[k..], c.aside)[0].id;
      var d1 := TakenBack(d.(router := r), ch, false);
      FeedTakesFirst(d1, true, ch, e);
      ToldStays(FeedNext(d1, true).0, ch, e);
    }
  }

  lemma {:induction false} WhereIs(r: Router, ch: Id, k: nat)
    requires Inv(r) && ch in r.chans && k < |r.chans[ch].entries|
    ensures Where(r.chans[ch].entries, r.chans[ch].entries[k].id) == k
  {
    hide OrderOk, NamesOk, FloorOk;
    assert ChanOk(r.chans[ch], r.nextEntry);
    WhereUnique(r.chans[ch].entries, k);
  }

  lemma {:induction false} WhereUnique(entries: seq<Entry>, k: nat)
    requires Unique(entries) && k < |entries|
    ensures Where(entries, entries[k].id) == k
  {
    var i := Where(entries, entries[k].id);
    assert i <= k;
  }

  // ---- Back and on -----------------------------------------------------------

  /** The chunk of the item in flight that plays. */
  predicate Plays(d: Driver, item: nat) {
    Answer(d).playing.Some? && Answer(d).playing.value.item == item
  }

  /** A step back within an entry is left to the reader; from its first chunk the batch is read from the entry
      before it, from the first one itself; once the entry left its batch, from the top. */
  lemma {:induction false} BackLands(d: Driver, reason: string, ch: Id, e: nat)
    requires Inv(d.router) && ch in d.router.chans
    requires d.inFlight.Some? && d.inFlight.value.channel == ch && d.inFlight.value.entry == Some(e)
    ensures var (d', back) := StepBackward(d, reason);
            var batch, item := d.router.chans[ch].entries, d.inFlight.value.item;
            var within := Plays(d, item) && Answer(d).playing.value.chunk > 0;
            && (within ==> d' == Told(Polled(d), Previous) && back == BackChunk(ch))
            && (!within && !Has(batch, e) ==>
                  back == BackFirst(ch)
                  && if batch == [] then d' == Told(Polled(d), Restart) else ReadsOn(d, d', ch, 0))
            && forall k :: 0 <= k < |batch| && batch[k].id == e && !within ==>
                 if k > 0 then back == BackEntry(ch) && ReadsOn(d, d', ch, k - 1)
                 else back == BackFirst(ch) && ReadsOn(d, d', ch, 0)
  {
    hide Inv, ReadFrom, Where, ReadsOn;
    var d1, batch := Polled(d), d.router.chans[ch].entries;
    var at := Where(batch, e);
    HasWhere(batch, e);
    var from := if at == |batch| then None else Some(if at > 0 then batch[at - 1].id else e);
    ReadFromReads(d1, ch, from, at == |batch|);
    SameStart(d, d1, ReadFrom(d1, ch, from, at == |batch|).0, ch);
    forall k | 0 <= k < |batch| && batch[k].id == e ensures at == k {
      WhereIs(d.router, ch, k);
    }
    if 0 < at < |batch| {
      WhereIs(d.router, ch, at - 1);
    }
  }

  lemma {:induction false} HasWhere(entries: seq<Entry>, e: nat)
    ensures Has(entries, e) <==> Where(entries, e) < |entries|
  {
  }

  lemma {:induction false} SameStart(d: Driver, d1: Driver, d': Driver, ch: Id)
    requires d1.router == d.router
    ensures forall k: nat :: ReadsOn(d1, d', ch, k) ==> ReadsOn(d, d', ch, k)
  {
    hide StillFirst, NotAside;
  }

  /** A step on within an entry is left to the reader; from its last chunk the batch is read from the entry after
      it, from where the cursor is once the entry left its batch; at the end nothing changes. */
  lemma {:induction false} ForwardLands(d: Driver, ch: Id, e: nat)
    requires Inv(d.router) && ch in d.router.chans
    requires d.inFlight.Some? && d.inFlight.value.channel == ch && d.inFlight.value.entry == Some(e)
    ensures var (d', on) := StepForward(d);
            var batch, cursor, item := d.router.chans[ch].entries, d.router.chans[ch].cursor, d.inFlight.value.item;
            var within := Plays(d, item) && Answer(d).playing.value.chunk + 1 < Answer(d).playing.value.chunks;
            && (within ==> d' == Told(Polled(d), Control.Next) && on == ForwardChunk(ch))
            && (!within && !Has(batch, e) ==>
                  if cursor < |batch| then on == ForwardEntry(ch) && ReadsOn(d, d', ch, cursor)
                  else on == ForwardEnd(ch) && d' == Polled(d))
            && forall k :: 0 <= k < |batch| && batch[k].id == e && !within ==>
                 if k + 1 < |batch| then on == ForwardEntry(ch) && ReadsOn(d, d', ch, k + 1)
                 else on == ForwardEnd(ch) && d' == Polled(d)
  {
    hide Inv, ReadFrom, Where, ReadsOn;
    var d1, batch := Polled(d), d.router.chans[ch].entries;
    var k := Where(batch, e);
    HasWhere(batch, e);
    forall j | 0 <= j < |batch| && batch[j].id == e ensures k == j {
      WhereIs(d.router, ch, j);
    }
    var at := if k < |batch| then k + 1 else d.router.chans[ch].cursor;
    if at < |batch| {
      WhereIs(d.router, ch, at);
      ReadFromReads(d1, ch, Some(batch[at].id), false);
      SameStart(d, d1, ReadFrom(d1, ch, Some(batch[at].id), false).0, ch);
    }
  }

  /** With no entry in flight there is nothing to step on to, and a step back restarts. */
  lemma {:induction false} NothingToStep(d: Driver, reason: string)
    requires Inv(d.router) && !ReadsEntry(d.inFlight)
    ensures StepForward(d) == (d, ForwardNothing)
    ensures StepBackward(d, reason) == (ControlAll(d, Restart, reason), BackReplay)
  {
    hide Inv, ControlAll;
  }

  // ---- Restarting ------------------------------------------------------------

  /** Some channel has text. */
  predicate Filled(r: Router, id: Id) {
    id in r.chans && r.chans[id].entries != []
  }

  /** The number of the last entry of `id`'s batch. */
  function LastOf(r: Router, id: Id): nat
    requires Filled(r, id)
  {
    r.chans[id].entries[|r.chans[id].entries| - 1].id
  }

  lemma {:induction false} NewestIs(r: Router, ids: seq<Id>)
    ensures var best := NewestOf(r, ids);
            && (best == None ==> forall id :: id in ids ==> !Filled(r, id))
            && (best.Some? ==>
                  && best.value in ids && Filled(r, best.value)
                  && forall id :: id in ids && Filled(r, id) ==> LastOf(r, id) <= LastOf(r, best.value))
  {
    if ids != [] {
      NewestIs(r, ids[1..]);
    }
  }

  /** The channel a restart is for: the one reading, else the one that read last, else the focused one, else the
      one with the newest text. */
  ghost predicate Restarts(r: Router, id: Id) {
    if r.active.Some? then r.active == Some(id)
    else if r.lastActive.Some? then r.lastActive == Some(id)
    else if r.focus.Some? then r.focus == Some(id)
    else
      && id in r.order && Filled(r, id)
      && forall x :: x in r.order && Filled(r, x) ==> LastOf(r, x) <= LastOf(r, id)
  }

  /** With nothing in flight a restart reads its channel's batch from the top, at once when the reader is idle. A
      channel without text is left to the reader, but for an agent's, which reads nothing; so is it without any
      channel to restart. */
  lemma {:induction false} RestartLands(d: Driver)
    requires Inv(d.router) && d.inFlight == None
    ensures var d' := RestartIdle(d);
            && ((forall id :: !Restarts(d.router, id)) ==> d' == Told(d, Restart))
            && ((exists id :: Restarts(d.router, id)) ==>
                  exists id :: Restarts(d.router, id) &&
                    if Filled(d.router, id) then ReadsOn(d, d', id, 0)
                    else if id in d.router.chans && d.router.chans[id].agent then d' == d
                    else d' == Told(d, Restart))
  {
    hide Inv, ReadAt, Pump, NewestOf, NotAside, Unread, StillFirst, Filled, LastOf;
    NewestIs(d.router, d.router.order);
    var engaged := if Engaged(d.router).Some? then Engaged(d.router)
                   else if d.router.focus.Some? then d.router.focus
                   else NewestOf(d.router, d.router.order);
    if engaged.Some? {
      var id := engaged.value;
      assert Restarts(d.router, id);
      RestartReads(d, id);
    }
  }

  lemma {:induction false} RestartReads(d: Driver, id: Id)
    requires Inv(d.router) && d.inFlight == None
    ensures var (r, ok) := ReadAt(d.router, id, None, true);
            && ok == Filled(d.router, id) && Inv(r)
            && (ok ==> ReadsOn(d, Pump(d.(router := r)), id, 0))
  {
    hide Inv, FeedNext, NotAside, Unread, StillFirst;
    ReadAtKeeps(d.router, id, None, true);
    if Filled(d.router, id) {
      ReadAtFirst(d.router, id, None, true);
      hide ReadAt;
      var r := ReadAt(d.router, id, None, true).0;
      var c := d.router.chans[id];
      if NotAside(c.entries[0..], c.aside) != [] {
        var e := NotAside(c.entries[0..], c.aside)[0].id;
        PumpTakesFirst(d.(router := r), id, e);
      }
    }
  }

  lemma {:induction false} PumpTakesFirst(d: Driver, c: Id, e: nat)
    requires Inv(d.router) && d.inFlight == None && FirstUnread(d.router, c, e)
    ensures StillFirst(Pump(d), c, e)
  {
    hide Inv, FeedNext, FirstUnread;
    FeedTakesFirst(Polled(d), false, c, e);
  }

  // ---- A text that interrupts ------------------------------------------------

  lemma {:induction false} NewAhead(c: Chan, e: Entry, replace: bool, reading: bool)
    requires c.cursor <= |c.entries| && e.id !in c.aside
    ensures var c' := PushEntry(c, e, replace, true, reading); Unread(c') != [] && Unread(c')[0] == e
  {
    hide CaughtUp;
    var c1 := if replace || (CaughtUp(c) && !reading && !c.growing) then Emptied(c) else c;
    var c' := PushEntry(c, e, replace, true, reading);
    assert c'.entries[c'.cursor..] == [e] + c1.entries[c1.cursor..];
  }

  lemma {:induction false} WrittenFirst(r: Router, ch: Id, text: string, title: Option<string>, replace: bool)
    requires Inv(r) && ch in r.chans
    ensures var (r', e) := Written(r, ch, text, title, replace, true, None);
            && e == r.nextEntry + 1 && FirstUnread(r', ch, e) && r'.muted == r.muted
            && Unread(r'.chans[ch])[0].text == text
  {
    ChanIn(r, ch);
    NotYetAside(r, ch);
    hide Inv, PushEntry, Unread;
    NewAhead(r.chans[ch], Entry(r.nextEntry + 1, text, title), replace, IsReading(r, ch));
  }

  lemma {:induction false} NotYetAside(r: Router, ch: Id)
    requires Inv(r) && ch in r.chans
    ensures r.nextEntry + 1 !in r.chans[ch].aside
  {
    hide OrderOk, NamesOk, FloorOk;
    assert ChanOk(r.chans[ch], r.nextEntry);
  }

  lemma {:induction false} InterruptReadsFirst(d: Driver, ch: Id, e: nat)
    requires Inv(d.router) && FirstUnread(d.router, ch, e)
    ensures StillFirst(Interrupted(d, ch).0, ch, e)
  {
    hide Inv, FeedNext, FirstUnread, TakeFloor, Rewind;
    CutKeeps(d, ch, false);
    var d1 := TakenBack(d, ch, false);
    OthersBack(d, ch, e);
    TakeFloorKeeps(d1.router, ch);
    FloorSame(d1.router, ch, ch);
    FirstStays(d1.router, TakeFloor(d1.router, ch).0, ch, e);
    FeedTakesFirst(d1.(router := TakeFloor(d1.router, ch).0), true, ch, e);
    ToldStays(FeedNext(d1.(router := TakeFloor(d1.router, ch).0), true).0, ch, e);
  }

  lemma {:induction false} OthersBack(d: Driver, ch: Id, e: nat)
    requires FirstUnread(d.router, ch, e)
    ensures FirstUnread(TakenBack(d, ch, false).router, ch, e)
  {
    hide Unread, StepBack;
  }

  /** A host's text that interrupts comes before all that is unread in its channel: it is in flight or next there,
      in a channel that is not muted. */
  lemma {:induction false} InterruptingIsNext(d: Driver, ch: Id, text: string, mode: Option<Mode>,
      title: Option<string>)
    requires Inv(d.router) && ch != "" && ch !in d.router.muted
    ensures var (d', said) := DriverModel.Push(d, ch, text, mode, true, title, None);
            said.Some? && said.value.entry == d.router.nextEntry + 1 && StillFirst(d', ch, said.value.entry)
  {
    hide Inv, Interrupted, Written, Report, UnreadOf, Pending, StillFirst, FirstUnread, Open;
    OpenKeeps(d.router, ch, None, None, None);
    OpenedHas(d.router, ch);
    var r := if ch in d.router.chans then d.router else Open(d.router, ch, None, None, None).0;
    var replace := if mode.Some? then mode.value.ModeReplace? else r.chans[ch].policy.Latest?;
    var d0 := d.(router := r);
    var d1 := if replace then Report(d0, ch, UnreadOf(d0, ch), Why(mode), None) else d0;
    WrittenKeeps(r, ch, text, title, replace, true, None);
    WrittenFirst(r, ch, text, title, replace);
    var r1 := Written(r, ch, text, title, replace, true, None).0;
    InterruptReadsFirst(d1.(router := r1), ch, r.nextEntry + 1);
  }

  lemma {:induction false} OpenedHas(r: Router, ch: Id)
    ensures var r1 := Open(r, ch, None, None, None).0;
            ch in r1.chans && r1.nextEntry == r.nextEntry && r1.muted == r.muted
  {
  }

  /** Every text replaced by a newer one is reported, and counted. */
  lemma {:induction false} ReplacedIsReported(d: Driver, ch: Id, text: string, mode: Option<Mode>, interrupt: bool,
      title: Option<string>, agent: Option<Agent>)
    requires Inv(d.router) && ch in d.router.chans && ch != ""
    ensures var (d', said) := DriverModel.Push(d, ch, text, mode, interrupt, title, agent);
            var c := d.router.chans[ch];
            var replaced := if mode == None then c.policy == Latest else mode == Some(ModeReplace);
            && said.Some? && said.value.dropped == (if replaced then |Unread(c)| else 0)
            && (!replaced ==> d'.dropped == d.dropped)
            && (replaced ==>
                  && |d'.dropped| == |d.dropped| + |Unread(c)| && d.dropped <= d'.dropped
                  && forall k :: 0 <= k < |Unread(c)| ==>
                       var x := d'.dropped[|d.dropped| + k];
                       x.channel == ch && x.entry == Unread(c)[k].id && x.text == Unread(c)[k].text && x.item == None)
  {
    hide Inv, FeedNext, Written, Unread, Rewind, TakeFloor;
    var c := d.router.chans[ch];
    var replace := if mode.Some? then mode.value.ModeReplace? else c.policy.Latest?;
    WrittenKeeps(d.router, ch, text, title, replace, interrupt, agent);
    var d1 := if replace then Report(d, ch, UnreadOf(d, ch), Why(mode), None) else d;
    var d2 := d1.(router := Written(d.router, ch, text, title, replace, interrupt, agent).0);
    ReportsAre(ch, Unread(c), Why(mode));
    InterruptedDrops(d2, ch);
    PumpDrops(d2);
  }

  lemma {:induction false} ReportsAre(ch: Id, entries: seq<Entry>, reason: string)
    ensures var all := Reports(ch, entries, reason, None);
            |all| == |entries| && forall k :: 0 <= k < |entries| ==>
              all[k] == Dropped(ch, entries[k].id, entries[k].text, reason, None)
  {
    if entries != [] {
      ReportsAre(ch, entries[1..], reason);
    }
  }

  lemma {:induction false} FeedDrops(d: Driver, interrupt: bool)
    requires Inv(d.router)
    ensures FeedNext(d, interrupt).0.dropped == d.dropped
    decreases Measure(d.router)
  {
    hide Inv, NextFeed, HandOver, Measure, Wording;
    NextFeedKeeps(d.router);
    FeedMeasure(d.router);
    MeasurePositive(d.router);
    var (r, fed) := NextFeed(d.router);
    var d1 := d.(router := r);
    match fed
    case None =>
    case Some(Read(ch, x)) => HandOverIs(d1, ch, Some(x.id), x.text, interrupt);
    case Some(Announce(ch, title, replay, _)) =>
      var text := Wording(d.config, title, replay);
      if text == None {
        FeedDrops(d1, interrupt);
      } else {
        HandOverIs(d1, ch, None, text.value, interrupt);
      }
  }

  lemma {:induction false} InterruptedDrops(d: Driver, ch: Id)
    requires Inv(d.router)
    ensures Interrupted(d, ch).0.dropped == d.dropped
  {
    hide Inv, FeedNext, TakenBack, TakeFloor;
    CutKeeps(d, ch, false);
    TakenBackIs(d, ch, false);
    var d1 := TakenBack(d, ch, false);
    TakeFloorKeeps(d1.router, ch);
    FeedDrops(d1.(router := TakeFloor(d1.router, ch).0), true);
  }

  lemma {:induction false} PumpDrops(d: Driver)
    requires Inv(d.router)
    ensures PumpFed(d).0.dropped == d.dropped
  {
    hide Inv, FeedNext;
    if d.inFlight == None {
      FeedDrops(Polled(d), false);
    }
  }

  lemma {:induction false} InterruptedFlight(d: Driver, ch: Id)
    requires Inv(d.router)
    ensures Interrupted(d, ch).1 == Interrupted(d, ch).0.inFlight
  {
    hide Inv, FeedNext, TakenBack, TakeFloor;
    CutKeeps(d, ch, false);
    TakenBackIs(d, ch, false);
    var d1 := TakenBack(d, ch, false);
    TakeFloorKeeps(d1.router, ch);
    FeedTells(d1.(router := TakeFloor(d1.router, ch).0), true);
  }

  /** What is in flight before a text comes is not that text. */
  lemma {:induction false} NotYet(d: Driver)
    requires Agreed(d) && ReadsEntry(d.inFlight)
    ensures d.inFlight.value.entry.value <= d.router.nextEntry
  {
    hide Inv, JustTaken;
  }

  /** The item reported for a text is the one it is in flight as; there is one exactly when it is in flight at once. */
  lemma {:induction false} SaidIsInFlight(d: Driver, ch: Id, text: string, mode: Option<Mode>, interrupt: bool,
      title: Option<string>, agent: Option<Agent>)
    requires Agreed(d) && ch != ""
    ensures Inv(d.router)
    ensures var (d', said) := DriverModel.Push(d, ch, text, mode, interrupt, title, agent);
            && said.Some? && said.value.entry == d.router.nextEntry + 1
            && (said.value.item.Some? <==> d'.inFlight.Some? && d'.inFlight.value.entry == Some(said.value.entry))
            && (said.value.item.Some? ==> d'.inFlight.value.item == said.value.item.value)
  {
    hide Inv, Interrupted, PumpFed, Written, Report, UnreadOf, Pending, Open, Agreed;
    AgreedInv(d);
    OpenKeeps(d.router, ch, None, None, None);
    OpenedHas(d.router, ch);
    var r := if ch in d.router.chans then d.router else Open(d.router, ch, None, None, None).0;
    var replace := if mode.Some? then mode.value.ModeReplace? else r.chans[ch].policy.Latest?;
    var d0 := d.(router := r);
    var d1 := if replace then Report(d0, ch, UnreadOf(d0, ch), Why(mode), None) else d0;
    ReportIs(d0, ch, UnreadOf(d0, ch), Why(mode), None);
    WrittenKeeps(r, ch, text, title, replace, interrupt, agent);
    WrittenNumber(r, ch, text, title, replace, interrupt, agent);
    var d2 := d1.(router := Written(r, ch, text, title, replace, interrupt, agent).0);
    InterruptedFlight(d2, ch);
    PumpWaits(d2);
    if ReadsEntry(d.inFlight) {
      NotYet(d);
    }
  }

  lemma {:induction false} WrittenNumber(r: Router, ch: Id, text: string, title: Option<string>, replace: bool,
      interrupt: bool, agent: Option<Agent>)
    requires ch in r.chans
    ensures Written(r, ch, text, title, replace, interrupt, agent).1 == r.nextEntry + 1
  {
    hide PushEntry, Pending;
  }
}
