/** What stopping, muting, closing and flushing do to what is read: what is cut, what is reported, what goes on. */
module DriverEdits {
  import opened Options
  import opened RouterModel
  import opened RouterInvariants
  import opened RouterFeeding
  import opened RouterFloor
  import opened RouterKeys
  import opened RouterEdits
  import opened DriverModel
  import opened DriverAgreement
  import opened DriverRuns
  import opened DriverLands

  /** A report for each of `entries`, in order. */
  ghost predicate Reported(out: seq<Dropped>, ch: Id, entries: seq<Entry>, reason: string) {
    |out| == |entries| && forall k :: 0 <= k < |out| ==>
      out[k] == Dropped(ch, entries[k].id, entries[k].text, reason, None)
  }

  lemma {:induction false} ReportsIt(ch: Id, entries: seq<Entry>, reason: string)
    ensures Reported(Reports(ch, entries, reason, None), ch, entries, reason)
  {
    ReportsAre(ch, entries, reason);
  }

  /** The report of the entry in flight, which is `ch`'s. */
  function CutReport(f: Option<Flight>, ch: Id, reason: string): seq<Dropped> {
    if f.Some? && f.value.channel == ch && f.value.entry.Some?
    then [Dropped(ch, f.value.entry.value, f.value.text, reason, Some(f.value.item))] else []
  }

  predicate Reads(d: Driver, ch: Id) {
    d.inFlight.Some? && d.inFlight.value.channel == ch
  }

  // ---- Cutting ---------------------------------------------------------------

  /** What is in flight of `ch` is cut: the reader skips it, it is reported when it is an entry, and nothing is in
      flight; what is in flight of another channel is left alone. */
  lemma {:induction false} CutIs(d: Driver, ch: Id, reason: Option<string>)
    ensures var d' := CutIf(d, ch, reason);
            && d'.dropped == d.dropped + (if reason.Some? then CutReport(d.inFlight, ch, reason.value) else [])
            && (Reads(d, ch) ==>
                  && d'.inFlight == None && d'.reader.sent == d.reader.sent + [Send(Skip)]
                  && d'.router == d.router.(reading := None))
            && (!Reads(d, ch) ==> d' == d)
  {
    assert d.dropped + [] == d.dropped;
    if d.inFlight.Some? && d.inFlight.value.entry.Some? {
      var f := d.inFlight.value;
      OneReport(ch, Entry(f.entry.value, f.text, None), if reason.Some? then reason.value else "", Some(f.item));
    }
  }

  lemma {:induction false} OneReport(ch: Id, e: Entry, reason: string, item: Option<nat>)
    ensures Reports(ch, [e], reason, item) == [Dropped(ch, e.id, e.text, reason, item)]
  {
    assert [e][1..] == [] && Reports(ch, [], reason, item) == [];
  }

  /** What the pump and a feed do to reports, to the flight, and to who is muted. */
  lemma {:induction false} PumpIs(d: Driver)
    requires Inv(d.router)
    ensures var d' := Pump(d);
            && d'.dropped == d.dropped && d.reader.sent <= d'.reader.sent
            && (d.inFlight.Some? ==> d' == d)
            && (forall id :: id in d'.router.chans <==> id in d.router.chans)
            && d'.router.muted == d.router.muted
  {
    PumpDrops(d);
    PumpWaits(d);
    hide Inv, FeedNext;
    if d.inFlight == None {
      FeedChans(Polled(d), false);
    }
  }

  lemma {:induction false} FeedChans(d: Driver, interrupt: bool)
    requires Inv(d.router)
    ensures var d' := FeedNext(d, interrupt).0;
            d'.router.muted == d.router.muted && forall id :: id in d'.router.chans <==> id in d.router.chans
    decreases Measure(d.router)
  {
    hide Inv, NextFeed, HandOver, Measure, Wording;
    NextFeedKeeps(d.router);
    FeedMeasure(d.router);
    MeasurePositive(d.router);
    FeedNumbers(d.router);
    SameOpen(d.router);
    var (r, fed) := NextFeed(d.router);
    var d1 := d.(router := r);
    match fed
    case None =>
    case Some(Read(ch, x)) => HandOverIs(d1, ch, Some(x.id), x.text, interrupt);
    case Some(Announce(ch, title, replay, _)) =>
      var text := Wording(d.config, title, replay);
      if text == None {
        FeedChans(d1, interrupt);
      } else {
        HandOverIs(d1, ch, None, text.value, interrupt);
      }
  }

  lemma {:induction false} SameOpen(r: Router)
    requires Inv(r)
    ensures forall id :: id in NextFeed(r).0.chans <==> id in r.chans
  {
    FeedCounts(r);
    hide NextFeed, Inv, Unread;
  }

  // ---- Mute and close --------------------------------------------------------

  /** What is fed is never of a muted channel, unless it is the announcement that was armed for it. */
  lemma {:induction false} FedIsAudible(d: Driver, interrupt: bool)
    requires Inv(d.router)
    ensures var fed := FeedNext(d, interrupt).1;
            fed.Some? && fed.value.channel in d.router.muted ==>
              d.router.announce.Some? && fed.value.channel == d.router.announce.value.channel
              && fed.value.entry == None
    decreases Measure(d.router)
  {
    hide Inv, NextFeed, HandOver, Measure, Wording;
    NextFeedKeeps(d.router);
    FeedMeasure(d.router);
    MeasurePositive(d.router);
    FeedNumbers(d.router);
    FedMuted(d.router);
    var (r, fed) := NextFeed(d.router);
    var d1 := d.(router := r);
    match fed
    case None =>
    case Some(Read(ch, x)) => HandOverIs(d1, ch, Some(x.id), x.text, interrupt);
    case Some(Announce(ch, title, replay, _)) =>
      var text := Wording(d.config, title, replay);
      if text == None {
        FedIsAudible(d1, interrupt);
      } else {
        HandOverIs(d1, ch, None, text.value, interrupt);
      }
  }

  lemma {:induction false} FedMuted(r: Router)
    requires Inv(r)
    ensures var (r', fed) := NextFeed(r);
            && (fed.Some? && r.announce == None ==> fed.value.channel !in r.muted)
            && (fed.Some? && r.announce.Some? ==> fed.value.Announce? && fed.value.channel == r.announce.value.channel)
            && (fed.Some? ==> r'.announce == None)
  {
    FeedCounts(r);
    if r.announce.Some? {
      AnnouncedFirst(r);
      AnnouncedOpen(r);
    } else if NextFeed(r).1.Some? {
      AnnouncedAudible(r);
    }
    hide NextFeed, Unread, OrderOk, NamesOk, FloorOk;
  }

  /** Muting a channel cuts what is read of it, with a report, and what is in flight then is of another one (or its
      announcement, armed before); unmuting cuts nothing. */
  lemma {:induction false} MuteCuts(d: Driver, ch: Id, on: bool)
    requires Inv(d.router) && ch != ""
    ensures var (d', ok) := MuteChannel(d, ch, on);
            && ok && (ch in d'.router.muted <==> on)
            && d'.dropped == d.dropped + (if on then CutReport(d.inFlight, ch, "muted") else [])
            && (on && Reads(d, ch) ==>
                  && |d'.reader.sent| > |d.reader.sent| && d'.reader.sent[|d.reader.sent|] == Send(Skip)
                  && (Reads(d', ch) ==> d'.inFlight.value.entry == None && d.router.announce.Some?))
            && (d.inFlight.Some? && !(on && Reads(d, ch)) ==> d'.inFlight == d.inFlight && d'.reader == d.reader)
  {
    hide Inv, FeedNext, CutIf, Pump;
    MuteKeeps(d.router, ch, on);
    var d1 := d.(router := SetMuted(d.router, ch, on));
    EndsKeep(d1.router, ch);
    var d2 := if on then CutIf(d1, ch, Some("muted")) else d1;
    CutIs(d1, ch, Some("muted"));
    PumpIs(d2);
    assert d.dropped + [] == d.dropped;
    if on && Reads(d, ch) {
      PumpAudible(d2);
    }
  }

  lemma {:induction false} PumpAudible(d: Driver)
    requires Inv(d.router) && d.inFlight == None
    ensures var f := Pump(d).inFlight;
            f.Some? && f.value.channel in d.router.muted ==> f.value.entry == None && d.router.announce.Some?
  {
    hide Inv, FeedNext;
    FeedTells(Polled(d), false);
    FedIsAudible(Polled(d), false);
  }

  /** Closing a channel reports what it had unread, then what was read of it, which is cut; it is open no more. */
  lemma {:induction false} CloseReports(d: Driver, ch: Id)
    requires Inv(d.router) && ch in d.router.chans
    ensures var (d', ok) := CloseChannel(d, ch); var n := |d.dropped|; var unread := Unread(d.router.chans[ch]);
            && ok && ch !in d'.router.chans
            && |d'.dropped| >= n + |unread| && d.dropped == d'.dropped[..n]
            && Reported(d'.dropped[n..n + |unread|], ch, unread, "closed")
            && d'.dropped[n + |unread|..] == CutReport(d.inFlight, ch, "closed")
            && (Reads(d, ch) ==>
                  |d'.reader.sent| > |d.reader.sent| && d'.reader.sent[|d.reader.sent|] == Send(Skip))
            && (d.inFlight.Some? && !Reads(d, ch) ==> d'.inFlight == d.inFlight && d'.reader == d.reader)
  {
    hide Inv, FeedNext, CutIf, Pump, Unread, Reported, Close, ReportCut;
    CloseKeeps(d.router, ch);
    ClosedOut(d.router, ch);
    var unread := Unread(d.router.chans[ch]);
    ReportsIt(ch, unread, "closed");
    var all := Reports(ch, unread, "closed", None);
    SameLength(all, ch, unread, "closed");
    var d1 := Report(d.(router := Close(d.router, ch).0), ch, UnreadOf(d, ch), "closed", None);
    CutReported(d1, ch, "closed");
    var cut := CutReport(d.inFlight, ch, "closed");
    var d2 := CutIf(ReportCut(d1, ch, "closed"), ch, None);
    CutIs(ReportCut(d1, ch, "closed"), ch, None);
    EndsKeep(d1.router, ch);
    PumpIs(d2);
    var out := d.dropped + all + cut;
    assert out + [] == out;
    assert out[..|d.dropped|] == d.dropped && out[|d.dropped|..|d.dropped| + |all|] == all
        && out[|d.dropped| + |all|..] == cut;
  }

  lemma {:induction false} ClosedOut(r: Router, ch: Id)
    requires ch in r.chans
    ensures ch !in Close(r, ch).0.chans
  {
  }

  lemma {:induction false} SameLength(out: seq<Dropped>, ch: Id, entries: seq<Entry>, reason: string)
    requires Reported(out, ch, entries, reason)
    ensures |out| == |entries|
  {
  }

  lemma {:induction false} CutReported(d: Driver, ch: Id, reason: string)
    ensures ReportCut(d, ch, reason) == d.(dropped := d.dropped + CutReport(d.inFlight, ch, reason))
  {
    assert d.dropped + [] == d.dropped;
    if d.inFlight.Some? && d.inFlight.value.entry.Some? {
      var f := d.inFlight.value;
      OneReport(ch, Entry(f.entry.value, f.text, None), reason, Some(f.item));
    }
  }

  // ---- Stop ------------------------------------------------------------------

  /** Every unread entry of `ids` has a report. */
  ghost predicate AllReported(d: Driver, out: seq<Dropped>, ids: seq<Id>, reason: string) {
    forall id, e :: id in ids && id in d.router.chans && e in Unread(d.router.chans[id]) ==>
      Dropped(id, e.id, e.text, reason, None) in out
  }

  lemma {:induction false} ReportsEach(ch: Id, entries: seq<Entry>, reason: string)
    ensures forall e :: e in entries ==> Dropped(ch, e.id, e.text, reason, None) in Reports(ch, entries, reason, None)
  {
    if entries != [] {
      ReportsEach(ch, entries[1..], reason);
    }
  }

  lemma {:induction false} ReportAllReports(d: Driver, ids: seq<Id>, reason: string)
    ensures var d' := ReportAll(d, ids, reason);
            && d' == d.(dropped := d'.dropped) && d.dropped <= d'.dropped
            && AllReported(d, d'.dropped[|d.dropped|..], ids, reason)
    decreases |ids|
  {
    hide Unread, Reports;
    if ids != [] {
      var d1 := Report(d, ids[0], UnreadOf(d, ids[0]), reason, None);
      ReportsEach(ids[0], UnreadOf(d, ids[0]), reason);
      ReportAllReports(d1, ids[1..], reason);
      var d' := ReportAll(d, ids, reason);
      var first := Reports(ids[0], UnreadOf(d, ids[0]), reason, None);
      assert d'.dropped[|d.dropped|..] == first + d'.dropped[|d1.dropped|..];
    }
  }

  /** A stop reports every unread entry and the one being read, leaves nothing to read, and stops the reader. */
  lemma {:induction false} StopReports(d: Driver, reason: string)
    requires Inv(d.router)
    ensures var d' := StopAll(d, reason);
            && d.dropped <= d'.dropped
            && AllReported(d, d'.dropped[|d.dropped|..], d.router.order, reason)
            && (d.inFlight.Some? ==>
                  var cut := CutReport(d.inFlight, d.inFlight.value.channel, reason);
                  |d'.dropped| >= |cut| && d'.dropped[|d'.dropped| - |cut|..] == cut)
            && d'.inFlight == None && d'.reader.sent == d.reader.sent + [Send(Stop)]
            && d'.router.announce == None
            && forall id :: id in d.router.chans ==> id in d'.router.chans && Unread(d'.router.chans[id]) == []
  {
    hide Inv, Unread, AllReported, FlushAll, ReportCut, ReportAll;
    ReportAllReports(d, d.router.order, reason);
    var d1 := ReportAll(d, d.router.order, reason);
    FlushedAll(d.router);
    if d1.inFlight.Some? {
      CutReported(d1, d1.inFlight.value.channel, reason);
      var cut := CutReport(d.inFlight, d.inFlight.value.channel, reason);
      assert (d1.dropped + cut)[|d.dropped|..] == d1.dropped[|d.dropped|..] + cut;
      MoreReported(d, d1.dropped[|d.dropped|..], cut, d.router.order, reason);
    }
  }

  lemma {:induction false} MoreReported(d: Driver, out: seq<Dropped>, more: seq<Dropped>, ids: seq<Id>, reason: string)
    requires AllReported(d, out, ids, reason)
    ensures AllReported(d, out + more, ids, reason)
  {
    hide Unread;
  }

  /** A stop of one channel: what it has unread is reported and skipped, what is read of it is cut. */
  lemma {:induction false} StopOne(d: Driver, ch: Id, reason: string)
    requires Inv(d.router) && ch in d.router.chans
    ensures var (d', ok) := ControlOne(d, Stop, ch, reason); var n := |d.dropped|;
            var unread := Unread(d.router.chans[ch]);
            && ok && |d'.dropped| >= n + |unread| && d.dropped == d'.dropped[..n]
            && Reported(d'.dropped[n..n + |unread|], ch, unread, reason)
            && d'.dropped[n + |unread|..] == CutReport(d.inFlight, ch, reason)
            && (d.inFlight.Some? && !Reads(d, ch) ==>
                  d'.inFlight == d.inFlight && ch in d'.router.chans && Unread(d'.router.chans[ch]) == [])
            && (Reads(d, ch) ==>
                  |d'.reader.sent| > |d.reader.sent| && d'.reader.sent[|d.reader.sent|] == Send(Skip))
  {
    hide Inv, FeedNext, CutIf, Pump, Unread, Reported, FlushOne;
    FlushOneKeeps(d.router, ch);
    FlushedOne(d.router, ch);
    var unread := Unread(d.router.chans[ch]);
    ReportsIt(ch, unread, reason);
    var all := Reports(ch, unread, reason, None);
    SameLength(all, ch, unread, reason);
    var d1 := Flushing(d, ch, reason);
    EndsKeep(d1.router, ch);
    CutIs(d1, ch, Some(reason));
    PumpIs(CutIf(d1, ch, Some(reason)));
    var cut := CutReport(d.inFlight, ch, reason);
    var out := d.dropped + all + cut;
    assert out[..|d.dropped|] == d.dropped && out[|d.dropped|..|d.dropped| + |all|] == all
        && out[|d.dropped| + |all|..] == cut;
  }

  /** Any other control of the channel that is read goes to the reader; one of another channel does nothing, but for
      a restart, which reads it from the top. */
  lemma {:induction false} ControlGoesOn(d: Driver, c: Control, ch: Id, reason: string)
    requires Inv(d.router) && ch in d.router.chans && c != Stop
    ensures var d' := ControlOne(d, c, ch, reason).0;
            && (Reads(d, ch) ==> d'.reader.sent == d.reader.sent + [Send(c)] && d'.router == d.router
                                 && d'.inFlight == d.inFlight)
            && (!Reads(d, ch) && c != Restart ==> d' == d)
  {
    hide Inv, CutAndFeed, ReadAt;
  }

  /** A restart while something is read reads that channel's batch from the top. */
  lemma {:induction false} RestartReadsOn(d: Driver, reason: string)
    requires Inv(d.router) && d.inFlight.Some? && d.inFlight.value.channel in d.router.chans
    ensures var d' := ControlAll(d, Restart, reason); var ch := d.inFlight.value.channel;
            if d.router.chans[ch].entries == [] then d' == d else ReadsOn(d, d', ch, 0)
  {
    hide Inv, ReadsOn, ReadFrom;
    ReadFromReads(d, d.inFlight.value.channel, None, true);
  }

  // ---- Interrupts and ends ---------------------------------------------------

  /** An interrupt for a channel that may be heard and has something unread is followed by that channel: its
      announcement, or its first unread entry. */
  lemma {:induction false} InterruptIsOf(d: Driver, ch: Id)
    requires Inv(d.router) && ch in d.router.chans && !d.router.chans[ch].muted && Unread(d.router.chans[ch]) != []
    ensures var fed := Interrupted(d, ch).1; fed.Some? && fed.value.channel == ch
  {
    hide Inv, FeedNext, TakeFloor, Rewind, Unread;
    CutKeeps(d, ch, false);
    TakenBackIs(d, ch, false);
    TakenBackSame(d, ch);
    var d1 := TakenBack(d, ch, false);
    TakeFloorKeeps(d1.router, ch);
    TakeFloorReads(d1.router, ch);
    hide TakenBack;
    var d2 := d1.(router := TakeFloor(d1.router, ch).0);
    PendingIs(d2.router.chans[ch]);
    FloorIsFed(d2, ch);
  }

  lemma {:induction false} TakenBackSame(d: Driver, ch: Id)
    requires ch in d.router.chans
    ensures ch in TakenBack(d, ch, false).router.chans
    ensures TakenBack(d, ch, false).router.chans[ch] == d.router.chans[ch]
  {
    hide StepBack;
  }

  lemma {:induction false} FloorIsFed(d: Driver, ch: Id)
    requires HasFloor(d.router, ch) && Pending(d.router.chans[ch]) > 0
    ensures var fed := FeedNext(d, true).1; fed.Some? && fed.value.channel == ch
    decreases Measure(d.router)
  {
    hide Inv, NextFeed, HandOver, Measure, Wording, Unread;
    FloorFeeds(d.router, ch);
    FeedMeasure(d.router);
    MeasurePositive(d.router);
    var (r, fed) := NextFeed(d.router);
    var d1 := d.(router := r);
    match fed.value
    case Read(_, x) => HandOverIs(d1, ch, Some(x.id), x.text, true);
    case Announce(_, title, replay, _) =>
      var text := Wording(d.config, title, replay);
      if text == None {
        SamePending(d.router, r, ch);
        FloorIsFed(d1, ch);
      } else {
        HandOverIs(d1, ch, None, text.value, true);
      }
  }

  lemma {:induction false} SamePending(r: Router, r': Router, ch: Id)
    requires SameAt(r, r', ch) && ch in r.chans
    ensures ch in r'.chans && Pending(r'.chans[ch]) == Pending(r.chans[ch])
  {
  }

  /** The end of the item in flight lets the next be read: it is in flight no more. */
  lemma {:induction false} EndMovesOn(d: Driver)
    requires Agreed(d) && d.inFlight.Some?
    ensures Inv(d.router)
    ensures var d' := ItemEnded(d, d.inFlight.value.item);
            d'.inFlight == None || d'.inFlight.value.item > d.inFlight.value.item
  {
    hide Inv, FeedNext, Matches;
    EndsKeep(d.router, "");
    var d1 := Landed(d);
    FeedTells(Polled(d1), false);
  }

  /** A feed that interrupts skips what the reader still plays of another item. */
  lemma {:induction false} HandOverCuts(d: Driver, ch: Id, entry: Option<nat>, text: string)
    ensures var d' := HandOver(d, ch, entry, text, true); var n := |d.reader.sent|;
            && d'.reader.sent[..n + 1] == d.reader.sent + [DriverModel.Speak(d.reader.items + 1, text, true)]
            && (Answer(d).playing.Some? && Answer(d).playing.value.item != d.reader.items + 1 ==>
                  d'.reader.sent[n + 1..] == [Send(Skip)])
            && (Answer(d).playing == None || Answer(d).playing.value.item == d.reader.items + 1 ==>
                  d'.reader.sent[n + 1..] == [])
  {
    assert Answer(Spoke(d, text, true)) == Answer(d);
  }

  // ---- Texts -----------------------------------------------------------------

  /** A text for a muted channel cuts nothing, interrupting or not. */
  lemma {:induction false} MutedDoesNotInterrupt(d: Driver, ch: Id, text: string, mode: Option<Mode>, interrupt: bool,
      title: Option<string>, agent: Option<Agent>)
    requires Inv(d.router) && ch in d.router.muted && d.inFlight.Some?
    ensures var d' := DriverModel.Push(d, ch, text, mode, interrupt, title, agent).0;
            d'.inFlight == d.inFlight && d'.reader == d.reader
  {
    hide Inv, Interrupted, Written, Reports, UnreadOf, Pending;
    if ch != "" {
      OpenKeeps(d.router, ch, None, None, None);
      OpenedHas(d.router, ch);
      var r := if ch in d.router.chans then d.router else Open(d.router, ch, None, None, None).0;
      hide Open;
      var replace := if mode.Some? then mode.value.ModeReplace? else r.chans[ch].policy.Latest?;
      WrittenMutes(r, ch, text, title, replace, interrupt, agent);
    }
  }

  lemma {:induction false} WrittenMutes(r: Router, ch: Id, text: string, title: Option<string>, replace: bool,
      interrupt: bool, agent: Option<Agent>)
    requires ch in r.chans
    ensures Written(r, ch, text, title, replace, interrupt, agent).0.muted == r.muted
    ensures agent == None ==> ch in Written(r, ch, text, title, replace, interrupt, agent).0.authorized
  {
    hide PushEntry, Pending;
  }

  // ---- The flush hotkey ------------------------------------------------------

  /** The channels of `ids`, but `but`, that `also` names and that have something unread, in order. */
  function Taken(d: Driver, ids: seq<Id>, also: set<Id>, but: Option<Id>): seq<Id> {
    if ids == [] then []
    else if ids[0] in also && UnreadOf(d, ids[0]) != [] && but != Some(ids[0])
    then [ids[0]] + Taken(d, ids[1..], also, but)
    else Taken(d, ids[1..], also, but)
  }

  lemma {:induction false} TakenSame(d: Driver, d': Driver, ids: seq<Id>, also: set<Id>, but: Option<Id>)
    requires forall id :: id in ids ==> UnreadOf(d', id) == UnreadOf(d, id)
    ensures Taken(d', ids, also, but) == Taken(d, ids, also, but)
  {
    hide UnreadOf;
    if ids != [] {
      TakenSame(d, d', ids[1..], also, but);
    }
  }

  lemma {:induction false} OthersFlushed(d: Driver, ids: seq<Id>, also: set<Id>, but: Option<Id>, reason: string)
    requires Inv(d.router) && Apart(ids)
    ensures FlushOthers(d, ids, also, but, reason).1 == Taken(d, ids, also, but)
    decreases |ids|
  {
    hide Inv, FlushOne, Reports, UnreadOf, Apart;
    if ids != [] {
      ApartTail(ids);
      if Some(ids[0]) == but || ids[0] !in also || UnreadOf(d, ids[0]) == [] {
        OthersFlushed(d, ids[1..], also, but, reason);
      } else {
        FlushOneKeeps(d.router, ids[0]);
        var d1 := Flushing(d, ids[0], reason);
        OthersFlushed(d1, ids[1..], also, but, reason);
        FlushLeaves(d, ids[0], reason);
        TakenSame(d, d1, ids[1..], also, but);
      }
    }
  }

  lemma {:induction false} ApartTail(ids: seq<Id>)
    requires Apart(ids) && ids != []
    ensures Apart(ids[1..]) && ids[0] !in ids[1..]
  {
  }

  lemma {:induction false} FlushLeaves(d: Driver, ch: Id, reason: string)
    ensures forall id :: id != ch ==> UnreadOf(Flushing(d, ch, reason), id) == UnreadOf(d, id)
  {
    hide Unread, Reports;
  }

  /** The flush hotkey stops what is read: an entry's channel is flushed and the entry cut, an announcement's too, and
      what is read otherwise is skipped. */
  lemma {:induction false} FlushStops(d: Driver, reason: string)
    requires Inv(d.router)
    ensures var (d', flushed) := FlushReading(d, reason);
            && d'.inFlight == None
            && (d.inFlight.Some? ==>
                  var ch := d.inFlight.value.channel;
                  && flushed == (if d.inFlight.value.entry.Some? then FlushedChannel(ch) else FlushedAnnouncement(ch))
                  && d'.reader.sent == d.reader.sent + [Send(Skip)]
                  && (ch in d.router.chans ==> UnreadOf(d', ch) == []))
            && (d.inFlight == None ==>
                  && flushed == (if Answer(d).playing.Some? then FlushedDirect else FlushedNothing)
                  && d'.reader.sent == d.reader.sent + (if Answer(d).playing.Some? then [Send(Skip)] else [])
                  && d'.router == d.router)
  {
    hide Inv, Unread, FlushOne, Reports;
    assert d.reader.sent + [] == d.reader.sent;
    if d.inFlight.Some? && d.inFlight.value.channel in d.router.chans {
      FlushedOne(d.router, d.inFlight.value.channel);
    }
  }

  /** It then takes the other channels along, in opening order; and when it stopped something it lets a paused reader
      play on. */
  lemma {:induction false} FlushTakesAlong(d: Driver, reason: string, also: set<Id>)
    requires Inv(d.router)
    ensures var (d1, stopped) := FlushReading(d, reason);
            var (d', flushed, others) := FlushWith(d, reason, also);
            && flushed == stopped && others == Taken(d1, d1.router.order, also, FlushedId(stopped))
            && (stopped != FlushedNothing && LastPaused(d, reason, also) ==> Send(Play) in d'.reader.sent)
  {
    hide Inv, FlushReading, FlushOthers, Pump;
    FlushReadingKeeps(d, reason);
    var (d1, stopped) := FlushReading(d, reason);
    OrderApart(d1.router);
    OthersFlushed(d1, d1.router.order, also, FlushedId(stopped), reason);
    OthersKeep(d1, d1.router.order, also, FlushedId(stopped), reason);
    var d2 := FlushOthers(d1, d1.router.order, also, FlushedId(stopped), reason).0;
    if stopped != FlushedNothing && LastPaused(d, reason, also) {
      var d3 := Told(Polled(d2), Play);
      assert d3.reader.sent[|d2.reader.sent|] == Send(Play);
      PumpIs(d3);
      Stays(d3.reader.sent, Pump(d3).reader.sent, Send(Play));
    }
  }

  lemma {:induction false} Stays(a: seq<Command>, b: seq<Command>, c: Command)
    requires a <= b && c in a
    ensures c in b
  {
  }

  lemma {:induction false} OrderApart(r: Router)
    requires Inv(r)
    ensures Apart(r.order)
  {
    hide ChansOk, NamesOk, FloorOk;
  }

  /** The reader says it is paused once everything is stopped. */
  predicate LastPaused(d: Driver, reason: string, also: set<Id>)
    requires Inv(d.router)
  {
    FlushReadingKeeps(d, reason);
    var (d1, stopped) := FlushReading(d, reason);
    Answer(FlushOthers(d1, d1.router.order, also, FlushedId(stopped), reason).0).paused
  }
}
