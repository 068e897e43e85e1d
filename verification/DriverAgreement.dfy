/** The driver and the router agree on what is being read. */
module DriverAgreement {
  import opened Options
  import opened RouterModel
  import opened RouterInvariants
  import opened RouterFeeding
  import opened RouterFloor
  import opened RouterBatches
  import opened DriverModel

  /** Entry `e`, if it is still in the batch, sits just before the cursor. */
  ghost predicate JustTaken(c: Chan, e: nat) {
    forall k :: 0 <= k < |c.entries| && c.entries[k].id == e ==> c.cursor == k + 1
  }

  ghost predicate TakenAt(r: Router, ch: Id, e: nat) {
    ch in r.chans && e <= r.nextEntry && JustTaken(r.chans[ch], e)
  }

  predicate ReadsEntry(f: Option<Flight>) {
    f.Some? && f.value.entry.Some?
  }

  /** An entry is in flight exactly if the router reads it, and it is the one just taken. */
  ghost predicate Matches(r: Router, f: Option<Flight>) {
    if ReadsEntry(f) then r.reading == Some((f.value.channel, f.value.entry.value))
        && TakenAt(r, f.value.channel, f.value.entry.value)
    else r.reading == None
  }

  ghost predicate Agreed(d: Driver) {
    Inv(d.router) && Matches(d.router, d.inFlight) && (d.inFlight.Some? ==> d.inFlight.value.item <= d.reader.items)
  }

  // ---- Router operations that leave what is read alone -----------------------

  predicate Quietly(op: Op) {
    op.OpOpen? || op.OpLabel? || op.OpFocus? || op.OpMute? || op.OpFocusOnly? || op.OpAuthorize? || op.OpPush? ||
        op.OpPushWith?
    || op.OpAppend? || op.OpDrop? || op.OpEndBatch? || op.OpPrioritize? || op.OpPick? || op.OpSetAside? || op.OpRevise?
  }

  lemma {:induction false} ReadingSame(r: Router, op: Op)
    requires Inv(r) && Quietly(op)
    ensures Step(r, op).0.reading == r.reading
  {
    if op.OpPick? {
      hide Inv, Step;
      ReadingPick(r, op);
    } else if op.OpPush? || op.OpPushWith? || op.OpAppend? || op.OpDrop? || op.OpEndBatch? || op.OpSetAside?
        || op.OpRevise? {
      hide Inv, Step;
      ReadingText(r, op);
    } else {
      hide Inv, Ready;
    }
  }

  lemma {:induction false} InsertTaken(c: Chan, e: Entry, replace: bool, front: bool, reading: bool, x: nat)
    requires c.cursor <= |c.entries| && JustTaken(c, x) && e.id != x
    ensures JustTaken(PushEntry(c, e, replace, front, reading), x)
  {
    hide CaughtUp;
  }

  lemma {:induction false} PushedTaken(r: Router, ch: Id, text: string, title: Option<string>, replace: bool,
      front: bool, x: nat)
    requires Inv(r) && TakenAt(r, ch, x) && r.reading == Some((ch, x))
    ensures TakenAt(PushWith(r, ch, text, title, replace, front).0, ch, x)
  {
    hide Inv, PushEntry, JustTaken;
    ChanIn(r, ch);
    InsertTaken(r.chans[ch], Entry(r.nextEntry + 1, text, title), replace, front, true, x);
  }

  lemma {:induction false} WrittenTaken(r: Router, op: Op, ch: Id, x: nat)
    requires Inv(r) && TakenAt(r, ch, x) && r.reading == Some((ch, x))
    requires (op.OpPush? || op.OpPushWith?) && op.id == ch
    ensures TakenAt(Step(r, op).0, ch, x)
  {
    hide Inv, PushWith, TakenAt;
    TakenOpen(r, ch, x);
    match op
    case OpPush(_, text, title) => PushedTaken(r, ch, text, title, r.chans[ch].policy.Latest?, false, x);
    case OpPushWith(_, text, title, replace, front) => PushedTaken(r, ch, text, title, replace, front, x);
  }

  lemma {:induction false} TakenOpen(r: Router, ch: Id, x: nat)
    requires TakenAt(r, ch, x)
    ensures ch in r.chans
  {
  }

  lemma {:induction false} AppendedTaken(r: Router, op: Op, ch: Id, x: nat)
    requires Inv(r) && TakenAt(r, ch, x) && r.reading == Some((ch, x))
    requires op.OpAppend? && op.id == ch
    ensures TakenAt(Step(r, op).0, ch, x)
  {
    ChanIn(r, ch);
    hide Inv, PushEntry, JustTaken, Pending;
    var c1 := PushEntry(r.chans[ch], Entry(r.nextEntry + 1, op.text, None), false, false, true);
    InsertTaken(r.chans[ch], Entry(r.nextEntry + 1, op.text, None), false, false, true, x);
    var c2 := Step(r, op).0.chans[ch];
    SameTaken(c1, c2, x);
  }

  lemma {:induction false} SameTaken(c: Chan, c': Chan, x: nat)
    requires JustTaken(c, x) && c'.entries == c.entries && c'.cursor == c.cursor
    ensures JustTaken(c', x)
  {
  }

  ghost predicate NoneIs(entries: seq<Entry>, x: nat) {
    forall e :: e in entries ==> e.id != x
  }

  /** Decisions leaving the batch keep the entry just taken just before the cursor. */
  lemma {:induction false} DroppedTaken(c: Chan, which: Resolved, x: nat)
    requires c.cursor <= |c.entries| && JustTaken(c, x)
    ensures JustTaken(DropThe(c, which).0, x)
  {
    var read, ahead := c.entries[..c.cursor], c.entries[c.cursor..];
    ThoseAre(c, read, true, which, false);
    ThoseAre(c, ahead, false, which, false);
    assert NoneIs(ahead, x);
    if c.cursor == 0 {
      assert read == [];
      TakenFrom(Those(c, read, true, which, false), [], Those(c, ahead, false, which, false), x);
    } else {
      var before, last := c.entries[..c.cursor - 1], c.entries[c.cursor - 1];
      assert read == before + [last];
      assert NoneIs(before, x);
      ThoseAre(c, before, true, which, false);
      ThoseSnoc(c, before, last, true, which, false);
      TakenFrom(Those(c, before, true, which, false), if Goes(c, last.id, true, which) then [] else [last],
                Those(c, ahead, false, which, false), x);
    }
    DropShape(c, which);
    hide Those, DropThe, Goes;
  }

  lemma {:induction false} DropShape(c: Chan, which: Resolved)
    requires c.cursor <= |c.entries|
    ensures var c' := DropThe(c, which).0;
            var read := Those(c, c.entries[..c.cursor], true, which, false);
            c'.entries == read + Those(c, c.entries[c.cursor..], false, which, false) && c'.cursor == |read|
  {
  }

  lemma {:induction false} TakenFrom(before: seq<Entry>, last: seq<Entry>, ahead: seq<Entry>, x: nat)
    requires NoneIs(before, x) && NoneIs(ahead, x) && |last| <= 1
    ensures var s := before + last + ahead;
            forall k :: 0 <= k < |s| && s[k].id == x ==> k + 1 == |before + last|
  {
    var s := before + last + ahead;
    forall k | 0 <= k < |s| && k + 1 != |before + last| ensures s[k].id != x {
      if k < |before| {
        assert s[k] in before;
      } else {
        assert s[k] == ahead[k - |before + last|];
        assert s[k] in ahead;
      }
    }
  }

  lemma {:induction false} DropTaken(r: Router, op: Op, ch: Id, x: nat)
    requires Inv(r) && TakenAt(r, ch, x) && op.OpDrop? && op.id == ch
    ensures TakenAt(Step(r, op).0, ch, x)
  {
    ChanIn(r, ch);
    hide Inv, DropThe, JustTaken;
    DroppedTaken(r.chans[ch], op.which, x);
  }

  lemma {:induction false} RevisedTaken(r: Router, op: Op, ch: Id, x: nat)
    requires TakenAt(r, ch, x) && op.OpRevise? && op.id == ch
    ensures TakenAt(Step(r, op).0, ch, x)
  {
    hide Where;
  }

  lemma {:induction false} RecordTaken(r: Router, op: Op, ch: Id, x: nat)
    requires TakenAt(r, ch, x) && (op.OpOpen? || op.OpLabel? || op.OpMute? || op.OpEndBatch? || op.OpSetAside?)
        && op.id == ch
    ensures TakenAt(Step(r, op).0, ch, x)
  {
    hide JustTaken, Where;
    var r' := Step(r, op).0;
    SameTaken(r.chans[ch], r'.chans[ch], x);
  }

  lemma {:induction false} QuietTaken(r: Router, op: Op, ch: Id, x: nat)
    requires Inv(r) && Quietly(op) && TakenAt(r, ch, x) && r.reading == Some((ch, x))
    ensures TakenAt(Step(r, op).0, ch, x)
  {
    if !Touches(op, ch) {
      hide Inv, Step, JustTaken;
      Untouched(r, op, ch);
      NumbersGrow(r, op);
    } else if op.OpPush? || op.OpPushWith? {
      hide Inv, Step, TakenAt;
      WrittenTaken(r, op, ch, x);
    } else if op.OpAppend? {
      hide Inv, Step, TakenAt;
      AppendedTaken(r, op, ch, x);
    } else if op.OpDrop? {
      hide Inv, Step, TakenAt;
      DropTaken(r, op, ch, x);
    } else if op.OpRevise? {
      hide Inv, Step, TakenAt;
      RevisedTaken(r, op, ch, x);
    } else {
      hide Inv, Step, TakenAt;
      RecordTaken(r, op, ch, x);
    }
  }

  lemma {:induction false} QuietAgrees(d: Driver, op: Op)
    requires Agreed(d) && Quietly(op)
    ensures Agreed(d.(router := Step(d.router, op).0))
  {
    hide Inv, Step, TakenAt, Quietly;
    StepKeeps(d.router, op);
    ReadingSame(d.router, op);
    if ReadsEntry(d.inFlight) {
      QuietTaken(d.router, op, d.inFlight.value.channel, d.inFlight.value.entry.value);
    }
  }

  // ---- Feeding ---------------------------------------------------------------

  lemma {:induction false} FedTaken(r: Router, r': Router, id: Id, e: Entry)
    requires EntryIsFed(r, r', id, e) && Inv(r')
    ensures TakenAt(r', id, e.id) && r'.reading == Some((id, e.id))
  {
    hide OrderOk, NamesOk, FloorOk, Unread;
    assert ChanOk(r'.chans[id], r'.nextEntry);
  }

  lemma {:induction false} HandOverIs(d: Driver, ch: Id, entry: Option<nat>, text: string, interrupt: bool)
    ensures var d' := HandOver(d, ch, entry, text, interrupt);
            && d'.router == d.router && d'.inFlight == Some(Flight(d.reader.items + 1, ch, entry, text))
            && d'.reader.items == d.reader.items + 1 && d'.dropped == d.dropped && d'.config == d.config
            && d.reader.sent + [Speak(d.reader.items + 1, text, interrupt)] <= d'.reader.sent
  {
  }

  /** What was fed is in flight, an entry exactly if the router reads it. */
  lemma {:induction false} FeedAgrees(d: Driver, interrupt: bool)
    requires Inv(d.router) && d.inFlight == None
    ensures var (d', fed) := FeedNext(d, interrupt); Agreed(d') && fed == d'.inFlight
    decreases Measure(d.router)
  {
    hide Inv, TakenAt, NextFeed, EntryIsFed, HandOver, Measure, Wording;
    NextFeedKeeps(d.router);
    FeedMeasure(d.router);
    MeasurePositive(d.router);
    FeedCounts(d.router);
    var (r, fed) := NextFeed(d.router);
    var d1 := d.(router := r);
    match fed
    case None =>
    case Some(Read(ch, e)) =>
      FedTaken(d.router, r, ch, e);
      HandOverIs(d1, ch, Some(e.id), e.text, interrupt);
    case Some(Announce(ch, title, replay, _)) =>
      var text := Wording(d.config, title, replay);
      if text == None {
        FeedAgrees(d1, interrupt);
      } else {
        HandOverIs(d1, ch, None, text.value, interrupt);
      }
  }

  lemma {:induction false} PumpAgrees(d: Driver)
    requires Agreed(d)
    ensures Agreed(Pump(d)) && PumpFed(d).0 == Pump(d)
  {
    hide Inv, TakenAt, FeedNext;
    if d.inFlight == None {
      FeedAgrees(Polled(d), false);
    }
  }

  // ---- Cutting ---------------------------------------------------------------

  /** The router step is done, and nothing is in flight but what the router reads, or what `CutIf` cuts. */
  ghost predicate AgreedBut(d: Driver, ch: Id) {
    && Inv(d.router) && (d.inFlight.Some? ==> d.inFlight.value.item <= d.reader.items)
    && (!(d.inFlight.Some? && d.inFlight.value.channel == ch) ==> Matches(d.router, d.inFlight))
  }

  lemma {:induction false} ReportCutIs(d: Driver, ch: Id, reason: string)
    ensures ReportCut(d, ch, reason) == d.(dropped := ReportCut(d, ch, reason).dropped)
  {
  }

  lemma {:induction false} CutAgrees(d: Driver, ch: Id, reason: Option<string>)
    requires AgreedBut(d, ch)
    ensures Agreed(CutIf(d, ch, reason))
  {
    hide Inv, TakenAt, ReportCut;
    EndsKeep(d.router, ch);
    if reason.Some? {
      ReportCutIs(d, ch, reason.value);
    }
  }

  lemma {:induction false} LandedAgrees(d: Driver)
    requires Inv(d.router)
    ensures Agreed(Landed(d))
  {
    hide Inv, TakenAt;
    EndsKeep(d.router, "");
  }

  /** A flush of one channel takes only its own item out of step. */
  lemma {:induction false} FlushedBut(d: Driver, ch: Id, reason: string)
    requires Agreed(d)
    ensures AgreedBut(Flushing(d, ch, reason), ch)
  {
    hide Inv, TakenAt, UnreadOf, Reports, FlushOne;
    FlushOneKeeps(d.router, ch);
    FlushReads(d.router, ch);
    if ReadsEntry(d.inFlight) && d.inFlight.value.channel != ch {
      FlushTaken(d.router, ch, d.inFlight.value.channel, d.inFlight.value.entry.value);
    }
  }

  lemma {:induction false} FlushReads(r: Router, ch: Id)
    ensures FlushOne(r, ch).0.reading == r.reading && FlushOne(r, ch).0.nextEntry == r.nextEntry
  {
    hide SkipToEnd;
  }

  lemma {:induction false} FlushTaken(r: Router, ch: Id, x: Id, e: nat)
    requires TakenAt(r, x, e) && x != ch
    ensures TakenAt(FlushOne(r, ch).0, x, e)
  {
    hide SkipToEnd, JustTaken;
  }

  lemma {:induction false} FlushAgrees(d: Driver, ch: Id, reason: string)
    requires Agreed(d)
    ensures Agreed(CutIf(Flushing(d, ch, reason), ch, Some(reason)))
  {
    hide Agreed, AgreedBut, Flushing, CutIf;
    FlushedBut(d, ch, reason);
    CutAgrees(Flushing(d, ch, reason), ch, Some(reason));
  }

  /** Whatever was in flight is taken away and the next item fed. */
  lemma {:induction false} CutAndFeedAgrees(d: Driver, ch: Id, own: bool)
    requires Inv(d.router)
    ensures Agreed(CutAndFeed(d, ch, own))
  {
    hide Inv, Matches, FeedNext, TakenBack;
    CutKeeps(d, ch, own);
    TakenBackIs(d, ch, own);
    FeedAgrees(TakenBack(d, ch, own), true);
  }

  lemma {:induction false} TakenBackIs(d: Driver, ch: Id, own: bool)
    ensures TakenBack(d, ch, own) == d.(inFlight := None, router := TakenBack(d, ch, own).router)
  {
    hide Rewind;
  }

  // ---- Operations ------------------------------------------------------------

  lemma {:induction false} ReadFromAgrees(d: Driver, ch: Id, entry: Option<nat>, replay: bool)
    requires Agreed(d)
    ensures Agreed(ReadFrom(d, ch, entry, replay).0)
    ensures !ReadFrom(d, ch, entry, replay).1 ==> ReadFrom(d, ch, entry, replay).0 == d
  {
    hide Inv, Matches, ReadAt, CutAndFeed;
    ReadAtKeeps(d.router, ch, entry, replay);
    if ReadAt(d.router, ch, entry, replay).1 {
      CutAndFeedAgrees(d.(router := ReadAt(d.router, ch, entry, replay).0), ch, false);
    }
  }

  lemma {:induction false} CloseBut(d: Driver, ch: Id)
    requires Agreed(d) && ch in d.router.chans
    ensures AgreedBut(d.(router := Close(d.router, ch).0), ch)
  {
    hide Inv, JustTaken, Without;
    CloseKeeps(d.router, ch);
  }

  lemma {:induction false} ReportIs(d: Driver, ch: Id, entries: seq<Entry>, reason: string, item: Option<nat>)
    ensures Report(d, ch, entries, reason, item) == d.(dropped := Report(d, ch, entries, reason, item).dropped)
  {
  }

  lemma {:induction false} CloseAgrees(d: Driver, ch: Id)
    requires Agreed(d)
    ensures Agreed(CloseChannel(d, ch).0)
  {
    hide Agreed, Inv, Matches, Close, UnreadOf, Report, ReportCut, CutIf, Pump;
    AgreedInv(d);
    if ch in d.router.chans {
      CloseKeeps(d.router, ch);
      CloseBut(d, ch);
      var d0 := d.(router := Close(d.router, ch).0);
      var d1 := Report(d0, ch, UnreadOf(d, ch), "closed", None);
      ReportIs(d0, ch, UnreadOf(d, ch), "closed", None);
      ReportCutIs(d1, ch, "closed");
      CutAgrees(ReportCut(d1, ch, "closed"), ch, None);
      AgreedInv(CutIf(ReportCut(d1, ch, "closed"), ch, None));
      PumpAgrees(CutIf(ReportCut(d1, ch, "closed"), ch, None));
    }
  }

  lemma {:induction false} AgreedInv(d: Driver)
    requires Agreed(d)
    ensures Inv(d.router)
  {
  }

  lemma {:induction false} ReportsAgree(d: Driver, d': Driver)
    requires Agreed(d) && d' == d.(dropped := d'.dropped)
    ensures Agreed(d')
  {
    hide Inv, Matches;
  }

  lemma {:induction false} OpenAgrees(d: Driver, ch: Id)
    requires Agreed(d)
    ensures var r := if ch in d.router.chans then d.router else Open(d.router, ch, None, None, None).0;
            ch in r.chans && Agreed(d.(router := r))
  {
    hide Agreed;
    var op := OpOpen(ch, None, None, None);
    assert Step(d.router, op).0 == Open(d.router, ch, None, None, None).0 && Quietly(op);
    QuietAgrees(d, op);
    assert d.(router := d.router) == d;
  }

  lemma {:induction false} WrittenAgrees(d: Driver, ch: Id, text: string, title: Option<string>, replace: bool,
      interrupt: bool,
                                         agent: Option<Agent>)
    requires Agreed(d) && ch in d.router.chans
    ensures Agreed(d.(router := Written(d.router, ch, text, title, replace, interrupt, agent).0))
  {
    hide Agreed, Append, PushWith, Authorize, Quietly;
    if agent.Some? {
      var op := OpAppend(ch, text, agent.value.decision, agent.value.heard);
      StepsAre(d.router, op);
      QuietAgrees(d, op);
    } else {
      var op1, op2 := OpPushWith(ch, text, title, replace, interrupt), OpAuthorize(ch);
      var d1 := d.(router := Step(d.router, op1).0);
      StepsAre(d.router, op1);
      QuietAgrees(d, op1);
      StepsAre(d1.router, op2);
      QuietAgrees(d1, op2);
    }
  }

  lemma {:induction false} StepsAre(r: Router, op: Op)
    ensures op.OpAppend? ==> Quietly(op) && Step(r, op).0 == Append(r, op.id, op.text, op.decision, op.heard).0
    ensures op.OpPushWith? ==>
              Quietly(op) && Step(r, op).0 == PushWith(r, op.id, op.text, op.title, op.replace, op.front).0
    ensures op.OpAuthorize? ==> Quietly(op) && Step(r, op).0 == Authorize(r, op.id).0
    ensures op.OpMute? ==> Quietly(op) && Step(r, op).0 == SetMuted(r, op.id, op.on)
  {
    hide Append, PushWith, Authorize, SetMuted;
  }

  lemma {:induction false} InterruptAgrees(d: Driver, ch: Id)
    requires Inv(d.router)
    ensures Agreed(Interrupted(d, ch).0)
  {
    hide Inv, Matches, FeedNext, TakenBack, TakeFloor;
    CutKeeps(d, ch, false);
    TakenBackIs(d, ch, false);
    var d1 := TakenBack(d, ch, false);
    TakeFloorKeeps(d1.router, ch);
    FeedAgrees(d1.(router := TakeFloor(d1.router, ch).0), true);
  }

  lemma {:induction false} PushAgrees(d: Driver, ch: Id, text: string, mode: Option<Mode>, interrupt: bool,
      title: Option<string>,
                                      agent: Option<Agent>)
    requires Agreed(d)
    ensures Agreed(DriverModel.Push(d, ch, text, mode, interrupt, title, agent).0)
  {
    hide Agreed, Inv, Interrupted, PumpFed, Pump, Written, Report, Pending;
    AgreedInv(d);
    OpenKeeps(d.router, ch, None, None, None);
    OpenAgrees(d, ch);
    if ch != "" {
      var r := if ch in d.router.chans then d.router else Open(d.router, ch, None, None, None).0;
      var d0 := d.(router := r);
      var replace := if mode.Some? then mode.value.ModeReplace? else r.chans[ch].policy.Latest?;
      var d1 := if replace then Report(d0, ch, UnreadOf(d0, ch), Why(mode), None) else d0;
      ReportIs(d0, ch, UnreadOf(d0, ch), Why(mode), None);
      ReportsAgree(d0, d1);
      WrittenKeeps(r, ch, text, title, replace, interrupt, agent);
      WrittenAgrees(d1, ch, text, title, replace, interrupt, agent);
      var d2 := d1.(router := Written(r, ch, text, title, replace, interrupt, agent).0);
      InterruptAgrees(d2, ch);
      PumpAgrees(d2);
    }
  }

  lemma {:induction false} AgreedSome(d: Driver, ch: Id)
    requires Agreed(d)
    ensures AgreedBut(d, ch)
  {
    hide Inv, Matches;
  }

  lemma {:induction false} MuteAgrees(d: Driver, ch: Id, on: bool)
    requires Agreed(d)
    ensures Agreed(MuteChannel(d, ch, on).0)
  {
    hide Agreed, AgreedBut, Inv, Pump, CutIf, SetMuted;
    AgreedInv(d);
    if ch != "" {
      MuteKeeps(d.router, ch, on);
      var op := OpMute(ch, on);
      StepsAre(d.router, op);
      QuietAgrees(d, op);
      var d1 := d.(router := SetMuted(d.router, ch, on));
      EndsKeep(d1.router, ch);
      AgreedSome(d1, ch);
      CutAgrees(d1, ch, Some("muted"));
      var d2 := if on then CutIf(d1, ch, Some("muted")) else d1;
      AgreedInv(d2);
      PumpAgrees(d2);
    }
  }

  lemma {:induction false} ReportAllIs(d: Driver, ids: seq<Id>, reason: string)
    ensures ReportAll(d, ids, reason) == d.(dropped := ReportAll(d, ids, reason).dropped)
    decreases |ids|
  {
    hide UnreadOf, Reports;
    if ids != [] {
      ReportAllIs(Report(d, ids[0], UnreadOf(d, ids[0]), reason, None), ids[1..], reason);
    }
  }

  lemma {:induction false} StopAgrees(d: Driver, reason: string)
    requires Agreed(d)
    ensures Agreed(StopAll(d, reason))
  {
    hide Inv, TakenAt, ReportAll, ReportCut, FlushAll;
    ReportAllIs(d, d.router.order, reason);
    var d1 := ReportAll(d, d.router.order, reason);
    if d1.inFlight.Some? {
      ReportCutIs(d1, d1.inFlight.value.channel, reason);
    }
    FlushAllKeeps(d.router);
    EndsKeep(FlushAll(d.router).0, "");
  }

  /** Telling the reader or asking it changes nothing in the driver. */
  lemma {:induction false} TellAgrees(d: Driver, c: Control)
    requires Agreed(d)
    ensures Agreed(Told(d, c)) && Agreed(Polled(d)) && Agreed(Told(Polled(d), c))
  {
    hide Inv, Matches;
  }

  lemma {:induction false} ReadAtIdle(d: Driver, ch: Id)
    requires Agreed(d) && d.inFlight == None
    ensures Agreed(d.(router := ReadAt(d.router, ch, None, true).0))
  {
    hide Inv, TakenAt, Where, IsHandoff;
    ReadAtKeeps(d.router, ch, None, true);
  }

  lemma {:induction false} RestartAgrees(d: Driver)
    requires Agreed(d) && d.inFlight == None
    ensures Agreed(RestartIdle(d))
  {
    hide Agreed, Inv, Pump, ReadAt, NewestOf;
    AgreedInv(d);
    TellAgrees(d, Restart);
    var engaged := if Engaged(d.router).Some? then Engaged(d.router)
                   else if d.router.focus.Some? then d.router.focus
                   else NewestOf(d.router, d.router.order);
    if engaged.Some? {
      ReadAtKeeps(d.router, engaged.value, None, true);
      ReadAtIdle(d, engaged.value);
      PumpAgrees(d.(router := ReadAt(d.router, engaged.value, None, true).0));
    }
  }

  lemma {:induction false} ControlAllAgrees(d: Driver, c: Control, reason: string)
    requires Agreed(d)
    ensures Agreed(ControlAll(d, c, reason))
  {
    hide Agreed, Inv, StopAll, ReadFrom, RestartIdle;
    AgreedInv(d);
    StopAgrees(d, reason);
    TellAgrees(d, c);
    if d.inFlight.Some? {
      ReadFromAgrees(d, d.inFlight.value.channel, None, true);
    } else {
      RestartAgrees(Polled(d));
    }
  }

  lemma {:induction false} ControlOneAgrees(d: Driver, c: Control, ch: Id, reason: string)
    requires Agreed(d)
    ensures Agreed(ControlOne(d, c, ch, reason).0)
  {
    hide Agreed, Inv, Flushing, CutIf, Pump, ReadAt, CutAndFeed, Done;
    AgreedInv(d);
    if ch in d.router.chans {
      TellAgrees(d, c);
      if c == Stop {
        FlushedRouter(d, ch, reason);
        FlushAgrees(d, ch, reason);
        AgreedInv(CutIf(Flushing(d, ch, reason), ch, Some(reason)));
        PumpAgrees(CutIf(Flushing(d, ch, reason), ch, Some(reason)));
      } else if c == Restart && !(d.inFlight.Some? && d.inFlight.value.channel == ch) {
        ReadAtKeeps(d.router, ch, None, true);
        CutAndFeedAgrees(d.(router := ReadAt(d.router, ch, None, true).0), ch, true);
      }
    }
  }

  lemma {:induction false} FlushedRouter(d: Driver, ch: Id, reason: string)
    requires Inv(d.router)
    ensures Inv(Flushing(d, ch, reason).router) && Flushing(d, ch, reason).inFlight == d.inFlight
  {
    hide Inv, FlushOne;
    FlushOneKeeps(d.router, ch);
  }

  lemma {:induction false} SwitchAgrees(d: Driver)
    requires Agreed(d)
    ensures Agreed(SwitchNext(d).0)
  {
    hide Inv, Matches, NextChannel, FeedNext, TakenBack;
    NextChannelKeeps(d.router);
    var (r, target) := NextChannel(d.router);
    if target.Some? {
      var d0 := d.(router := r);
      CutKeeps(d0, target.value.0, false);
      TakenBackIs(d0, target.value.0, false);
      FeedAgrees(TakenBack(d0, target.value.0, false), true);
    }
  }

  lemma {:induction false} BackAgrees(d: Driver, reason: string)
    requires Agreed(d)
    ensures Agreed(StepBackward(d, reason).0)
  {
    hide Agreed, Inv, ReadFrom, ControlAll, Where;
    AgreedInv(d);
    if ReadsEntry(d.inFlight) {
      var ch, entry := d.inFlight.value.channel, d.inFlight.value.entry.value;
      var d1 := Polled(d);
      TellAgrees(d, Previous);
      TellAgrees(d1, Restart);
      var batch := if ch in d.router.chans then d.router.chans[ch].entries else [];
      var at := Where(batch, entry);
      ReadFromAgrees(d1, ch, None, true);
      ReadFromAgrees(d1, ch, Some(if 0 < at < |batch| then batch[at - 1].id else entry), false);
    } else {
      ControlAllAgrees(d, Restart, reason);
    }
  }

  lemma {:induction false} ForwardAgrees(d: Driver)
    requires Agreed(d)
    ensures Agreed(StepForward(d).0)
  {
    hide Agreed, Inv, ReadFrom, Where;
    AgreedInv(d);
    TellAgrees(d, Next);
    if ReadsEntry(d.inFlight) {
      var ch, entry := d.inFlight.value.channel, d.inFlight.value.entry.value;
      var batch := if ch in d.router.chans then d.router.chans[ch].entries else [];
      var k := Where(batch, entry);
      var at := if k < |batch| then k + 1 else if ch in d.router.chans then d.router.chans[ch].cursor else 0;
      if at < |batch| {
        ReadFromAgrees(Polled(d), ch, Some(batch[at].id), false);
      }
    }
  }

  lemma {:induction false} FlushIdle(d: Driver, ch: Id, reason: string)
    requires Agreed(d) && d.inFlight == None
    ensures Agreed(Flushing(d, ch, reason)) && Flushing(d, ch, reason).inFlight == None
  {
    hide Inv, TakenAt, UnreadOf, Reports, FlushOne;
    FlushOneKeeps(d.router, ch);
    FlushReads(d.router, ch);
  }

  lemma {:induction false} OthersAgree(d: Driver, ids: seq<Id>, also: set<Id>, but: Option<Id>, reason: string)
    requires Agreed(d) && d.inFlight == None
    ensures Agreed(FlushOthers(d, ids, also, but, reason).0)
    decreases |ids|
  {
    hide Agreed, Inv, Flushing, UnreadOf;
    AgreedInv(d);
    if ids != [] {
      FlushedRouter(d, ids[0], reason);
      if Some(ids[0]) == but || ids[0] !in also || UnreadOf(d, ids[0]) == [] {
        OthersAgree(d, ids[1..], also, but, reason);
      } else {
        FlushIdle(d, ids[0], reason);
        OthersAgree(Flushing(d, ids[0], reason), ids[1..], also, but, reason);
      }
    }
  }

  lemma {:induction false} ReadingAgrees(d: Driver, reason: string)
    requires Agreed(d)
    ensures Agreed(FlushReading(d, reason).0) && FlushReading(d, reason).0.inFlight == None
  {
    hide Agreed, Inv, Flushing, Landed;
    TellAgrees(d, Skip);
    AgreedInv(d);
    if d.inFlight.Some? {
      var ch := d.inFlight.value.channel;
      FlushedRouter(d, ch, reason);
      if ReadsEntry(d.inFlight) {
        FlushAgrees(d, ch, reason);
        CutsIt(Flushing(d, ch, reason), ch, Some(reason));
      } else {
        LandedAgrees(Flushing(d, ch, reason));
        LandedNone(Flushing(d, ch, reason));
        TellAgrees(Landed(Flushing(d, ch, reason)), Skip);
      }
    }
  }

  lemma {:induction false} LandedNone(d: Driver)
    ensures Landed(d).inFlight == None
  {
  }

  lemma {:induction false} CutsIt(d: Driver, ch: Id, reason: Option<string>)
    requires d.inFlight.Some? && d.inFlight.value.channel == ch
    ensures CutIf(d, ch, reason).inFlight == None
  {
    hide ReportCut;
    if reason.Some? {
      ReportCutIs(d, ch, reason.value);
    }
  }

  lemma {:induction false} FlushWithAgrees(d: Driver, reason: string, also: set<Id>)
    requires Agreed(d)
    ensures Agreed(FlushWith(d, reason, also).0)
  {
    hide Agreed, Inv, FlushReading, FlushOthers, Pump;
    AgreedInv(d);
    ReadingAgrees(d, reason);
    FlushReadingKeeps(d, reason);
    var (d1, flushed) := FlushReading(d, reason);
    OthersKeep(d1, d1.router.order, also, FlushedId(flushed), reason);
    OthersAgree(d1, d1.router.order, also, FlushedId(flushed), reason);
    var d2 := FlushOthers(d1, d1.router.order, also, FlushedId(flushed), reason).0;
    TellAgrees(d2, Play);
    PumpAgrees(if Answer(d2).paused then Told(Polled(d2), Play) else Polled(d2));
  }

  lemma {:induction false} EndedAgrees(d: Driver, item: nat)
    requires Agreed(d)
    ensures Agreed(ItemEnded(d, item))
  {
    hide Agreed, Inv, Landed, Pump;
    AgreedInv(d);
    EndsKeep(d.router, "");
    LandedAgrees(d);
    var d1 := if d.inFlight.Some? && d.inFlight.value.item == item then Landed(d) else d;
    AgreedInv(d1);
    PumpAgrees(d1);
  }
}
