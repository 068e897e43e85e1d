/** The driver as an object over the router object: what it has in flight, and the reader it tells. */
module Drivers {
  import opened Options
  import opened RouterModel
  import opened RouterInvariants
  import opened RouterFeeding
  import opened DriverModel
  import opened DriverAgreement
  import Routers

  class Driver {
    const router: Routers.Router
    var inFlight: Option<Flight>
    var config: Config
    var dropped: seq<Dropped>
    var reader: Reader

    ghost predicate Valid()
      reads this, router, router.channels.Values
    {
      router.Valid() && Inv(router.View())
    }

    ghost function View(): DriverModel.Driver
      reads this, router, router.channels.Values
    {
      DriverModel.Driver(router.View(), inFlight, config, dropped, reader)
    }

    constructor (config: Config, reader: Reader)
      ensures Valid() && fresh(router) && router.channels == map[]
      ensures View() == DriverModel.Driver(EMPTY, None, config, [], reader)
    {
      router := new Routers.Router();
      this.config, this.reader := config, reader;
      inFlight, dropped := None, [];
      new;
      EmptyOk();
    }

    /** Hand `text` to the reader; with `interrupt`, what it did not cut is cut. */
    method Give(ch: Id, entry: Option<nat>, text: string, interrupt: bool)
      modifies this`inFlight, this`reader
      ensures View() == HandOver(old(View()), ch, entry, text, interrupt)
    {
      hide Routers.Router.View;
      var item := reader.items + 1;
      var told := reader.(items := item, sent := reader.sent + [Speak(item, text, interrupt)]);
      if interrupt {
        var s := told.answers(told.asked);
        told := told.(asked := told.asked + 1);
        if s.playing.Some? && s.playing.value.item != item {
          told := told.(sent := told.sent + [Send(Skip)]);
        }
      }
      reader := told;
      inFlight := Some(Flight(item, ch, entry, text));
    }

    /** Take the router's next feed to the reader; `again`: it was an announcement not worded. */
    method FeedOnce(interrupt: bool) returns (again: bool, fed: Option<Flight>)
      requires Valid()
      modifies this, router, router.channels.Values
      ensures router.channels == old(router.channels) && Valid()
      ensures again ==> FeedNext(View(), interrupt) == FeedNext(old(View()), interrupt)
                        && 0 <= Measure(router.View()) < Measure(old(router.View()))
      ensures !again ==> (View(), fed) == FeedNext(old(View()), interrupt)
    {
      hide Inv, NextFeed, Measure, Wording, HandOver, Routers.Router.View;
      ghost var d := View();
      NextFeedKeeps(d.router);
      FeedMeasure(d.router);
      MeasurePositive(NextFeed(d.router).0);
      var next := router.NextFeed();
      assert View() == d.(router := NextFeed(d.router).0);
      again, fed := false, None;
      if next.Some? {
        match next.value
        case Read(ch, e) =>
          Give(ch, Some(e.id), e.text, interrupt);
          fed := inFlight;
        case Announce(ch, title, replay, _) =>
          var text := Wording(config, title, replay);
          if text.Some? {
            Give(ch, None, text.value, interrupt);
            fed := inFlight;
          } else {
            again := true;
          }
      }
    }

    /** Feed the router's next item, passing over announcements that are not worded. */
    method Feed(interrupt: bool) returns (fed: Option<Flight>)
      requires Valid()
      modifies this, router, router.channels.Values
      ensures router.channels == old(router.channels) && Valid() && (View(), fed) == FeedNext(old(View()), interrupt)
    {
      hide Inv, Measure, FeedNext, Routers.Router.View;
      var again := true;
      fed := None;
      MeasurePositive(router.View());
      while again
        invariant router.channels == old(router.channels) && Valid() && (again ==> 0 <= Measure(router.View()))
        invariant again ==> FeedNext(View(), interrupt) == FeedNext(old(View()), interrupt)
        invariant !again ==> (View(), fed) == FeedNext(old(View()), interrupt)
        decreases again, Measure(router.View())
      {
        again, fed := FeedOnce(interrupt);
      }
    }

    /** Feed the next item if nothing is in flight and the reader is idle. */
    method Pump() returns (fed: Option<Flight>)
      requires Valid()
      modifies this, router, router.channels.Values
      ensures router.channels == old(router.channels) && Valid() && (View(), fed) == PumpFed(old(View()))
    {
      hide Routers.Router.View, Inv, FeedNext;
      fed := None;
      if inFlight == None {
        var s := reader.answers(reader.asked);
        reader := reader.(asked := reader.asked + 1);
        if s.playing == None && s.queued == 0 {
          fed := Feed(false);
        }
      }
    }

    // ---- Telling and reporting -----------------------------------------------

    method Tell(c: Control)
      modifies this`reader
      ensures View() == Told(old(View()), c)
    {
      hide Routers.Router.View;
      reader := reader.(sent := reader.sent + [Send(c)]);
    }

    method Poll() returns (s: Status)
      modifies this`reader
      ensures View() == Polled(old(View())) && s == Answer(old(View()))
    {
      hide Routers.Router.View;
      s := reader.answers(reader.asked);
      reader := reader.(asked := reader.asked + 1);
    }

    /** What `ch` has unread. */
    method UnreadIn(ch: Id) returns (entries: seq<Entry>)
      ensures entries == UnreadOf(View(), ch)
    {
      router.AtView(ch);
      hide Unread;
      entries := if ch in router.channels then Unread(router.channels[ch].View()) else [];
    }

    method ReportDrops(ch: Id, entries: seq<Entry>, reason: string, item: Option<nat>)
      modifies this`dropped
      ensures View() == Report(old(View()), ch, entries, reason, item)
    {
      hide Routers.Router.View;
      dropped := dropped + Reports(ch, entries, reason, item);
    }

    method ReportFlight(ch: Id, reason: string)
      modifies this`dropped
      ensures View() == ReportCut(old(View()), ch, reason)
    {
      hide Routers.Router.View, Reports;
      if inFlight.Some? && inFlight.value.entry.Some? && inFlight.value.channel == ch {
        var f := inFlight.value;
        ReportDrops(ch, [Entry(f.entry.value, f.text, None)], reason, Some(f.item));
      }
    }

    // ---- Cutting -------------------------------------------------------------

    /** Nothing is in flight and nothing is being read. */
    method Land()
      requires Valid()
      modifies this`inFlight, router`reading
      ensures Valid() && View() == Landed(old(View()))
    {
      hide Routers.Router.View, Inv;
      EndsKeep(router.View(), "");
      inFlight := None;
      router.Done();
    }

    /** Cut the item in flight if it is `ch`'s. */
    method CutIfOf(ch: Id, reason: Option<string>)
      requires Valid()
      modifies this`inFlight, this`reader, this`dropped, router`reading
      ensures Valid() && View() == CutIf(old(View()), ch, reason)
    {
      hide Routers.Router.View, Inv, ReportCut, Landed;
      if reason.Some? {
        ReportFlight(ch, reason.value);
      }
      if inFlight.Some? && inFlight.value.channel == ch {
        Land();
        Tell(Skip);
      }
    }

    /** Take the item in flight away; an entry of another channel is stepped back over. */
    method TakeBack(ch: Id, own: bool)
      requires Valid()
      modifies this`inFlight, router.channels.Values
      ensures Valid() && View() == TakenBack(old(View()), ch, own)
    {
      hide Routers.Router.View, Inv, Rewind;
      CutKeeps(View(), ch, own);
      var cut := inFlight;
      inFlight := None;
      if cut.Some? && cut.value.entry.Some? && (own || cut.value.channel != ch) {
        var _ := router.Rewind(cut.value.channel, cut.value.entry.value);
      }
    }

    /** Cut the item in flight for `ch`, whose cursor was just set, and feed it. */
    method CutFeed(ch: Id, own: bool)
      requires Valid()
      modifies this, router, router.channels.Values
      ensures router.channels == old(router.channels) && Valid() && View() == CutAndFeed(old(View()), ch, own)
    {
      hide Routers.Router.View, Inv, FeedNext, TakenBack;
      TakeBack(ch, own);
      var fed := Feed(true);
      if fed == None {
        var s := Poll();
        if s.playing.Some? {
          Tell(Skip);
        }
      }
    }

    // ---- Operations ----------------------------------------------------------

    /** Read `ch` now from its batch entry (or the top), as a replay or a step. */
    method ReadNow(ch: Id, entry: Option<nat>, replay: bool) returns (ok: bool)
      requires Valid()
      modifies this, router, router.channels.Values
      ensures router.channels == old(router.channels) && Valid()
          && (View(), ok) == ReadFrom(old(View()), ch, entry, replay)
    {
      hide Routers.Router.View, Inv, CutAndFeed, ReadAt;
      ReadAtKeeps(router.View(), ch, entry, replay);
      ghost var d := View();
      ok := router.ReadAt(ch, entry, replay);
      if ok {
        CutFeed(ch, false);
      } else {
        ReadAtNothing(d.router, ch, entry, replay);
      }
    }

    /** Cut what is in flight, give `ch` the floor and feed. */
    method Interrupt(ch: Id) returns (fed: Option<Flight>)
      requires Valid()
      modifies this, router, router.channels.Values
      ensures router.channels == old(router.channels) && Valid() && (View(), fed) == Interrupted(old(View()), ch)
    {
      hide Routers.Router.View, Inv, FeedNext, TakenBack, TakeFloor;
      var cut := inFlight.Some?;
      TakeBack(ch, false);
      TakeFloorKeeps(router.View(), ch);
      var _ := router.TakeFloor(ch);
      fed := Feed(true);
      if fed == None && cut {
        Tell(Skip);
      }
    }

    /** The reader ended an item: if it was the one in flight, the next is fed. */
    method Ended(item: nat)
      requires Valid()
      modifies this, router, router.channels.Values
      ensures router.channels == old(router.channels) && Valid() && View() == ItemEnded(old(View()), item)
    {
      hide Routers.Router.View, Inv, Landed, PumpFed;
      if inFlight.Some? && inFlight.value.item == item {
        Land();
      }
      var _ := Pump();
    }

    /** Mute or unmute `ch`; muting the channel being read cuts its item. */
    method Mute(ch: Id, on: bool) returns (ok: bool)
      requires Valid()
      modifies this, router, router.channels.Values
      ensures router.channels == old(router.channels) && Valid() && (View(), ok) == MuteChannel(old(View()), ch, on)
    {
      hide Routers.Router.View, Inv, CutIf, PumpFed, SetMuted;
      ok := ch != "";
      if ok {
        MuteKeeps(router.View(), ch, on);
        router.SetMuted(ch, on);
        if on {
          CutIfOf(ch, Some("muted"));
        }
        var _ := Pump();
      }
    }

    /** Close `ch`: its unread text is reported, its item cut. */
    method CloseIt(ch: Id) returns (ok: bool)
      requires Valid()
      modifies this, router, router.channels.Values
      ensures Valid() && (View(), ok) == CloseChannel(old(View()), ch)
    {
      hide Routers.Router.View, Inv, CutIf, PumpFed, Close, UnreadOf, ReportCut, Report;
      ghost var d := View();
      CloseKeeps(router.View(), ch);
      var unread := UnreadIn(ch);
      CloseOpen(d.router, ch);
      ok := router.Close(ch);
      if ok {
        ReportDrops(ch, unread, "closed", None);
        ReportFlight(ch, "closed");
        CutIfOf(ch, None);
        var _ := Pump();
      }
    }

    /** Switch to the next channel now. */
    method Next() returns (target: Option<Id>)
      requires Valid()
      modifies this, router, router.channels.Values
      ensures router.channels == old(router.channels) && Valid() && (View(), target) == SwitchNext(old(View()))
    {
      hide Routers.Router.View, Inv, FeedNext, TakenBack, NextChannel;
      NextChannelKeeps(router.View());
      NextNothing(router.View());
      var cut := inFlight.Some?;
      var next := router.NextChannel();
      if next == None {
        return None;
      }
      TakeBack(next.value.0, false);
      var fed := Feed(true);
      if fed == None && cut {
        Tell(Skip);
      }
      target := Some(next.value.0);
    }

    /** Open `ch` with the defaults if needed. */
    method Ensure(ch: Id)
      requires Valid()
      modifies router`order, router`channels, router.channels.Values
      ensures Valid() && ch in router.channels
      ensures View() == old(View()).(router := if ch in old(router.View()).chans then old(router.View())
                                               else Open(old(router.View()), ch, None, None, None).0)
      ensures forall x :: x in router.channels ==>
                (x in old(router.channels) && router.channels[x] == old(router.channels[x]))
                    || fresh(router.channels[x])
    {
      hide Routers.Router.View, Inv, Open;
      OpenKeeps(router.View(), ch, None, None, None);
      OpensIt(router.View(), ch);
      router.AtView(ch);
      if ch !in router.channels {
        var _ := router.Open(ch, None, None, None);
        router.AtView(ch);
      }
    }

    /** What `ch` has unread makes way for newer text: whether it does, and how much there was. */
    method MakeWay(ch: Id, mode: Option<Mode>) returns (replace: bool, before: nat)
      requires Valid() && ch in router.channels
      modifies this`dropped
      ensures ch in old(router.View()).chans
      ensures var c := old(router.View()).chans[ch];
              && replace == (if mode.Some? then mode.value.ModeReplace? else c.policy.Latest?)
              && before == Pending(c)
              && View() == if replace then Report(old(View()), ch, UnreadOf(old(View()), ch), Why(mode), None)
                  else old(View())
    {
      hide Routers.Router.View, Inv, UnreadOf, Report, Pending;
      router.AtView(ch);
      var c := router.channels[ch];
      replace := if mode.Some? then mode.value.ModeReplace? else c.policy.Latest?;
      before := Pending(c.View());
      if replace {
        var unread := UnreadIn(ch);
        ReportDrops(ch, unread, Why(mode), None);
      }
    }

    /** Add a text: opened with the defaults if needed, read now with `interrupt`. */
    method Push(ch: Id, text: string, mode: Option<Mode>, interrupt: bool, title: Option<string>, agent: Option<Agent>)
      returns (spoken: Option<Spoken>)
      requires Valid()
      modifies this, router, router.channels.Values
      ensures Valid() && (View(), spoken) == DriverModel.Push(old(View()), ch, text, mode, interrupt, title, agent)
    {
      hide Routers.Router.View, Inv, Interrupted, PumpFed, Open, Written, UnreadOf, Report, Pending;
      if ch == "" {
        return None;
      }
      Ensure(ch);
      var replace, before := MakeWay(ch, mode);
      var entry := Write(ch, text, title, replace, interrupt, agent);
      router.Fields();
      var fed: Option<Flight>;
      if interrupt && ch !in router.muted {
        fed := Interrupt(ch);
      } else {
        fed := Pump();
      }
      spoken := Some(Spoken(if fed.Some? && fed.value.entry == Some(entry) then Some(fed.value.item) else None,
                            if replace then before else 0, entry));
    }

    /** The text in the batch: the agent's, or a host's, which is authorized. */
    method Write(ch: Id, text: string, title: Option<string>, replace: bool, interrupt: bool, agent: Option<Agent>)
      returns (entry: nat)
      requires Valid() && ch in router.channels
      modifies router`nextEntry, router`authorized, router.channels.Values
      ensures router.Valid() && ch in old(router.View()).chans
      ensures (router.View(), entry) == Written(old(router.View()), ch, text, title, replace, interrupt, agent)
      ensures Inv(router.View())
    {
      hide Routers.Router.View, Inv, Append, PushWith, Authorize;
      router.AtView(ch);
      WrittenKeeps(router.View(), ch, text, title, replace, interrupt, agent);
      NextNumber(router.View(), ch, text, title, replace, interrupt, agent);
      var id: Option<nat>;
      if agent.Some? {
        id := router.Append(ch, text, agent.value.decision, agent.value.heard);
      } else {
        id := router.PushWith(ch, text, title, replace, interrupt);
        var _ := router.Authorize(ch);
      }
      entry := id.value;
    }

    /** Skip everything to its end and stop the reader; what was unread is reported. */
    method Stop(reason: string)
      requires Valid()
      modifies this, router, router.channels.Values
      ensures router.channels == old(router.channels) && Valid() && View() == StopAll(old(View()), reason)
    {
      hide Routers.Router.View, Inv, ReportAll, ReportCut, FlushAll;
      FlushAllKeeps(router.View());
      router.Fields();
      ReportAllIs(View(), router.order, reason);
      OrderFine(router.View());
      ReportEach(router.order, reason);
      if inFlight.Some? {
        ReportFlight(inFlight.value.channel, reason);
      }
      EndsKeep(FlushAll(router.View()).0, "");
      var _ := router.FlushEverything();
      router.Done();
      inFlight := None;
      Tell(Control.Stop);
    }

    method ReportEach(ids: seq<Id>, reason: string)
      modifies this`dropped
      ensures View() == ReportAll(old(View()), ids, reason)
    {
      hide Routers.Router.View, UnreadOf, Report;
      var k := 0;
      assert ids[0..] == ids;
      while k < |ids|
        invariant k <= |ids| && ReportAll(View(), ids[k..], reason) == ReportAll(old(View()), ids, reason)
      {
        assert ids[k..][1..] == ids[k + 1..];
        var unread := UnreadIn(ids[k]);
        ReportDrops(ids[k], unread, reason, None);
        k := k + 1;
      }
    }

    /** Report what `ch` has unread and skip it to its end. */
    method FlushIt(ch: Id, reason: string)
      requires Valid()
      modifies this`dropped, router`announce, router`hold, router.channels.Values
      ensures Valid() && View() == Flushing(old(View()), ch, reason)
    {
      hide Routers.Router.View, Inv, UnreadOf, Report, FlushOne;
      FlushOneKeeps(router.View(), ch);
      var unread := UnreadIn(ch);
      ReportDrops(ch, unread, reason, None);
      var _ := router.Flush(ch);
    }

    /** A control for one channel. */
    method ControlIt(c: Control, ch: Id, reason: string) returns (ok: bool)
      requires Valid()
      modifies this, router, router.channels.Values
      ensures router.channels == old(router.channels) && Valid()
          && (View(), ok) == ControlOne(old(View()), c, ch, reason)
    {
      hide Routers.Router.View, Inv, Flushing, CutIf, PumpFed, ReadAt, CutAndFeed;
      router.AtView(ch);
      ghost var d := View();
      if ch !in router.channels {
        return false;
      }
      ok := true;
      var reading := inFlight.Some? && inFlight.value.channel == ch;
      if c == Control.Stop {
        FlushIt(ch, reason);
        CutIfOf(ch, Some(reason));
        var _ := Pump();
      } else if reading {
        Tell(c);
      } else if c == Restart {
        ReadAtKeeps(router.View(), ch, None, true);
        ReadAtNothing(d.router, ch, None, true);
        var replayed := router.ReadAt(ch, None, true);
        if replayed {
          CutFeed(ch, true);
        }
      }
    }

    /** A control for whatever is read. */
    method ControlReader(c: Control, reason: string)
      requires Valid()
      modifies this, router, router.channels.Values
      ensures router.channels == old(router.channels) && Valid() && View() == ControlAll(old(View()), c, reason)
    {
      hide Routers.Router.View, Inv, StopAll, ReadFrom, RestartIdle;
      if c == Control.Stop {
        Stop(reason);
      } else if c == Restart && inFlight.Some? {
        var _ := ReadNow(inFlight.value.channel, None, true);
      } else if c == Restart {
        var s := Poll();
        if s.playing == None {
          Again();
        } else {
          Tell(Restart);
        }
      } else {
        Tell(c);
      }
    }

    /** Up while idle: the engaged channel's message again. */
    method Again()
      requires Valid()
      modifies this, router, router.channels.Values
      ensures router.channels == old(router.channels) && Valid() && View() == RestartIdle(old(View()))
    {
      hide Routers.Router.View, Inv, PumpFed, ReadAt, NewestOf;
      ghost var d := View();
      router.Fields();
      var engaged := if router.active.Some? then router.active
                     else if router.lastActive.Some? then router.lastActive
                     else if router.focus.Some? then router.focus
                     else NewestOf(router.View(), router.order);
      if engaged == None {
        Tell(Restart);
      } else {
        var ch := engaged.value;
        ReadAtKeeps(router.View(), ch, None, true);
        ReadAtNothing(router.View(), ch, None, true);
        router.AtView(ch);
        var agent := ch in router.channels && router.channels[ch].agent;
        var replayed := router.ReadAt(ch, None, true);
        if replayed {
          var _ := Pump();
        } else if !agent {
          Tell(Restart);
        }
      }
    }

    /** Back one section. */
    method Backward(reason: string) returns (done: Back)
      requires Valid()
      modifies this, router, router.channels.Values
      ensures router.channels == old(router.channels) && Valid() && (View(), done) == StepBackward(old(View()), reason)
    {
      hide Routers.Router.View, Inv, ReadFrom, ControlAll, Where;
      if !(inFlight.Some? && inFlight.value.entry.Some?) {
        ControlReader(Restart, reason);
        return BackReplay;
      }
      var ch, entry := inFlight.value.channel, inFlight.value.entry.value;
      var s := Poll();
      var n := ChunkOf(s, inFlight.value.item);
      if n.Some? && n.value.chunk > 0 {
        Tell(Previous);
        return BackChunk(ch);
      }
      router.AtView(ch);
      var batch := if ch in router.channels then router.channels[ch].entries else [];
      var at := Where(batch, entry);
      var ok := ReadNow(ch, if at == |batch| then None else Some(if at > 0 then batch[at - 1].id else entry),
          at == |batch|);
      if !ok {
        Tell(Restart);
      }
      done := if ok && 0 < at < |batch| then BackEntry(ch) else BackFirst(ch);
    }

    /** On one section. */
    method Onward() returns (done: Forward)
      requires Valid()
      modifies this, router, router.channels.Values
      ensures router.channels == old(router.channels) && Valid() && (View(), done) == StepForward(old(View()))
    {
      hide Routers.Router.View, Inv, ReadFrom, Where;
      if !(inFlight.Some? && inFlight.value.entry.Some?) {
        return ForwardNothing;
      }
      var ch, entry := inFlight.value.channel, inFlight.value.entry.value;
      var s := Poll();
      var n := ChunkOf(s, inFlight.value.item);
      if n.Some? && n.value.chunk + 1 < n.value.chunks {
        Tell(Control.Next);
        return ForwardChunk(ch);
      }
      router.AtView(ch);
      var batch := if ch in router.channels then router.channels[ch].entries else [];
      var k := Where(batch, entry);
      var at := if k < |batch| then k + 1 else if ch in router.channels then router.channels[ch].cursor else 0;
      if at >= |batch| {
        return ForwardEnd(ch);
      }
      var ok := ReadNow(ch, Some(batch[at].id), false);
      done := if ok then ForwardEntry(ch) else ForwardEnd(ch);
    }

    /** Stop what is being read. */
    method StopReading(reason: string) returns (flushed: Flushed)
      requires Valid()
      modifies this, router, router.channels.Values
      ensures router.channels == old(router.channels) && Valid()
          && (View(), flushed) == FlushReading(old(View()), reason)
    {
      hide Routers.Router.View, Inv, Flushing, CutIf, Landed;
      if inFlight.Some? {
        var ch, announcement := inFlight.value.channel, inFlight.value.entry == None;
        FlushIt(ch, reason);
        if announcement {
          Land();
          Tell(Skip);
          return FlushedAnnouncement(ch);
        }
        CutIfOf(ch, Some(reason));
        return FlushedChannel(ch);
      }
      var s := Poll();
      if s.playing.Some? {
        Tell(Skip);
        return FlushedDirect;
      }
      flushed := FlushedNothing;
    }

    /** Flush the other channels `also` names that have something unread. */
    method FlushTheOthers(ids: seq<Id>, also: set<Id>, but: Option<Id>, reason: string) returns (others: seq<Id>)
      requires Valid()
      modifies this`dropped, router`announce, router`hold, router.channels.Values
      ensures Valid() && (View(), others) == FlushOthers(old(View()), ids, also, but, reason)
    {
      hide Routers.Router.View, Inv, Flushing, UnreadOf;
      others := [];
      var k := 0;
      ghost var all := FlushOthers(View(), ids, also, but, reason);
      assert ids[0..] == ids && [] + all.1 == all.1;
      while k < |ids|
        invariant k <= |ids| && Valid()
        invariant FlushOthers(old(View()), ids, also, but, reason)
               == (FlushOthers(View(), ids[k..], also, but, reason).0,
                   others + FlushOthers(View(), ids[k..], also, but, reason).1)
      {
        assert ids[k..][1..] == ids[k + 1..];
        var id := ids[k];
        var unread := UnreadIn(id);
        if Some(id) != but && id in also && unread != [] {
          FlushIt(id, reason);
          ghost var rest := FlushOthers(View(), ids[k + 1..], also, but, reason).1;
          assert others + ([id] + rest) == others + [id] + rest;
          others := others + [id];
        }
        k := k + 1;
      }
      assert ids[k..] == [] && others + [] == others;
    }

    /** The flush hotkey, and the other channels `also` names. */
    method Flush(reason: string, also: set<Id>) returns (flushed: Flushed, others: seq<Id>)
      requires Valid()
      modifies this, router, router.channels.Values
      ensures router.channels == old(router.channels) && Valid()
          && (View(), flushed, others) == FlushWith(old(View()), reason, also)
    {
      hide Routers.Router.View, Inv, FlushReading, FlushOthers, PumpFed;
      flushed := StopReading(reason);
      router.Fields();
      others := FlushTheOthers(router.order, also, FlushedId(flushed), reason);
      if flushed != FlushedNothing {
        var s := Poll();
        if s.paused {
          Tell(Play);
        }
        var _ := Pump();
      }
    }
  }

  lemma {:induction false} OpensIt(r: Router, ch: Id)
    ensures ch in Open(r, ch, None, None, None).0.chans
  {
  }

  lemma {:induction false} NextNumber(r: Router, ch: Id, text: string, title: Option<string>, replace: bool,
      front: bool,
                                      agent: Option<Agent>)
    requires ch in r.chans
    ensures PushWith(r, ch, text, title, replace, front).1 == Some(r.nextEntry + 1)
    ensures agent.Some? ==> Append(r, ch, text, agent.value.decision, agent.value.heard).1 == Some(r.nextEntry + 1)
  {
    hide PushEntry, Pending;
  }

  lemma {:induction false} OrderFine(r: Router)
    requires Inv(r)
    ensures OrderOk(r)
  {
  }

  lemma {:induction false} ReadAtNothing(r: Router, ch: Id, entry: Option<nat>, replay: bool)
    ensures !ReadAt(r, ch, entry, replay).1 ==> ReadAt(r, ch, entry, replay).0 == r
  {
    hide Where, IsHandoff;
  }

  lemma {:induction false} CloseOpen(r: Router, ch: Id)
    ensures Close(r, ch).1 <==> ch in r.chans
    ensures ch !in r.chans ==> Close(r, ch).0 == r
  {
    hide Without;
  }

  lemma {:induction false} NextNothing(r: Router)
    requires Inv(r)
    ensures NextChannel(r).1 == None ==> NextChannel(r).0 == r
  {
    if r.order != [] {
      hide Inv, NextChannel, NextTarget, CaughtUp, Engaged;
      NextChannelIs(r);
    } else {
      hide Inv, NextTarget;
    }
  }
}
