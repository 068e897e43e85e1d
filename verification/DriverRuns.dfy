/** Every operation of the driver, runs of them, and what a cut does. */
module DriverRuns {
  import opened Options
  import opened RouterModel
  import opened RouterInvariants
  import opened RouterFeeding
  import opened RouterFloor
  import opened DriverModel
  import opened DriverAgreement

  datatype DriverOp =
    | DoOpen(ch: Id, title: Option<string>, hostTab: Option<string>, policy: Option<Policy>)
    | DoLabel(ch: Id, name: string)
    | DoClose(ch: Id)
    | DoFocus(ch: Id)
    | DoPrioritize(ch: Id)
    | DoPush(ch: Id, text: string, mode: Option<Mode>, interrupt: bool, title: Option<string>, agent: Option<Agent>)
    | DoEndBatch(ch: Id)
    | DoDrop(ch: Id, which: Resolved)
    | DoMute(ch: Id, on: bool)
    | DoFocusOnly(on: bool)
    | DoAuthorize(ch: Id)
    | DoControlAll(c: Control, reason: string)
    | DoControlOne(c: Control, ch: Id, reason: string)
    | DoRevise(ch: Id, entry: nat, text: string)
    | DoSetAside(ch: Id, entry: nat, on: bool)
    | DoReadFrom(ch: Id, from: Option<nat>)
    | DoBack(reason: string)
    | DoForward
    | DoFlush(reason: string, also: set<Id>)
    | DoNext
    | DoEnded(item: nat)
    | DoIsIdle
    | DoConfigure(config: Config)

  /** An operation on the router alone, the next item then fed if `pump`. */
  function Passed(d: Driver, op: Op, pump: bool): Driver
    requires Inv(d.router)
  {
    StepKeeps(d.router, op);
    var d1 := d.(router := Step(d.router, op).0);
    if pump then Pump(d1) else d1
  }

  function Dropping(d: Driver, ch: Id, which: Resolved): Driver {
    var (r, unread) := DropDecisions(d.router, ch, which);
    Report(d.(router := r), ch, unread, "answered", None)
  }

  function Do(d: Driver, op: DriverOp): Driver
    requires Inv(d.router)
  {
    match op
    case DoOpen(ch, title, tab, policy) => if ch == "" then d else Passed(d, OpOpen(ch, title, tab, policy), false)
    case DoLabel(ch, name) => Passed(d, OpLabel(ch, name), false)
    case DoClose(ch) => CloseChannel(d, ch).0
    case DoFocus(ch) => if ch in d.router.chans then Passed(d, OpFocus(ch), true) else d
    case DoPrioritize(ch) => if ch in d.router.chans then Passed(d, OpPrioritize(ch), true) else d
    case DoPush(ch, text, mode, interrupt, title, agent) => DriverModel.Push(d, ch, text, mode, interrupt, title,
        agent).0
    case DoEndBatch(ch) => Passed(d, OpEndBatch(ch), false)
    case DoDrop(ch, which) => Dropping(d, ch, which)
    case DoMute(ch, on) => MuteChannel(d, ch, on).0
    case DoFocusOnly(on) => Passed(d, OpFocusOnly(on), true)
    case DoAuthorize(ch) => Passed(d, OpAuthorize(ch), true)
    case DoControlAll(c, reason) => ControlAll(d, c, reason)
    case DoControlOne(c, ch, reason) => ControlOne(d, c, ch, reason).0
    case DoRevise(ch, entry, text) => Passed(d, OpRevise(ch, entry, text), false)
    case DoSetAside(ch, entry, on) => Passed(d, OpSetAside(ch, entry, on), false)
    case DoReadFrom(ch, from) => ReadFrom(d, ch, from, true).0
    case DoBack(reason) => StepBackward(d, reason).0
    case DoForward => StepForward(d).0
    case DoFlush(reason, also) => FlushWith(d, reason, also).0
    case DoNext => SwitchNext(d).0
    case DoEnded(item) => ItemEnded(d, item)
    case DoIsIdle => if d.inFlight.Some? then d else Passed(d, OpPick, false)
    case DoConfigure(config) => d.(config := config)
  }

  lemma {:induction false} PassedAgrees(d: Driver, op: Op, pump: bool)
    requires Agreed(d) && Quietly(op)
    ensures Agreed(Passed(d, op, pump))
  {
    hide Agreed, Inv, Step, Pump, Quietly;
    AgreedInv(d);
    StepKeeps(d.router, op);
    QuietAgrees(d, op);
    PumpAgrees(d.(router := Step(d.router, op).0));
  }

  lemma {:induction false} DroppingAgrees(d: Driver, ch: Id, which: Resolved)
    requires Agreed(d)
    ensures Agreed(Dropping(d, ch, which))
  {
    hide Agreed, DropDecisions, Report;
    var op := OpDrop(ch, which);
    assert Quietly(op) && Step(d.router, op).0 == DropDecisions(d.router, ch, which).0;
    QuietAgrees(d, op);
    var (r, unread) := DropDecisions(d.router, ch, which);
    ReportIs(d.(router := r), ch, unread, "answered", None);
    ReportsAgree(d.(router := r), Dropping(d, ch, which));
  }

  /** At the end of every operation the driver and the router agree: an entry is in flight exactly
      if the router reads it, and if it is still in its batch it sits just before the cursor. */
  lemma {:induction false} DoAgrees(d: Driver, op: DriverOp)
    requires Agreed(d)
    ensures Agreed(Do(d, op))
  {
    hide Agreed, Inv, Passed, CloseChannel, DriverModel.Push, Dropping, MuteChannel, ControlAll, ControlOne, ReadFrom,
        StepBackward;
    hide StepForward, FlushWith, SwitchNext, ItemEnded;
    AgreedInv(d);
    match op
    case DoOpen(ch, title, tab, policy) => PassedAgrees(d, OpOpen(ch, title, tab, policy), false);
    case DoLabel(ch, name) => PassedAgrees(d, OpLabel(ch, name), false);
    case DoClose(ch) => CloseAgrees(d, ch);
    case DoFocus(ch) => PassedAgrees(d, OpFocus(ch), true);
    case DoPrioritize(ch) => PassedAgrees(d, OpPrioritize(ch), true);
    case DoPush(ch, text, mode, interrupt, title, agent) => PushAgrees(d, ch, text, mode, interrupt, title, agent);
    case DoEndBatch(ch) => PassedAgrees(d, OpEndBatch(ch), false);
    case DoDrop(ch, which) => DroppingAgrees(d, ch, which);
    case DoMute(ch, on) => MuteAgrees(d, ch, on);
    case DoFocusOnly(on) => PassedAgrees(d, OpFocusOnly(on), true);
    case DoAuthorize(ch) => PassedAgrees(d, OpAuthorize(ch), true);
    case DoControlAll(c, reason) => ControlAllAgrees(d, c, reason);
    case DoControlOne(c, ch, reason) => ControlOneAgrees(d, c, ch, reason);
    case DoRevise(ch, entry, text) => PassedAgrees(d, OpRevise(ch, entry, text), false);
    case DoSetAside(ch, entry, on) => PassedAgrees(d, OpSetAside(ch, entry, on), false);
    case DoReadFrom(ch, from) => ReadFromAgrees(d, ch, from, true);
    case DoBack(reason) => BackAgrees(d, reason);
    case DoForward => ForwardAgrees(d);
    case DoFlush(reason, also) => FlushWithAgrees(d, reason, also);
    case DoNext => SwitchAgrees(d);
    case DoEnded(item) => EndedAgrees(d, item);
    case DoIsIdle => PassedAgrees(d, OpPick, false);
    case DoConfigure(config) => ConfiguredAgrees(d, config);
  }

  lemma {:induction false} ConfiguredAgrees(d: Driver, config: Config)
    requires Agreed(d)
    ensures Agreed(d.(config := config))
  {
    hide Inv, Matches;
  }

  function DoAll(d: Driver, ops: seq<DriverOp>): Driver
    requires Agreed(d)
    decreases |ops|
  {
    if ops == [] then d else
      AgreedInv(d);
      DoAgrees(d, ops[0]);
      DoAll(Do(d, ops[0]), ops[1..])
  }

  /** From a fresh driver, after any run, whatever the reader answered. */
  lemma {:induction false} AlwaysAgreed(d: Driver, ops: seq<DriverOp>)
    requires d.router == EMPTY && d.inFlight == None
    ensures Agreed(d) && Agreed(DoAll(d, ops))
  {
    EmptyOk();
    RunAgrees(d, ops);
  }

  lemma {:induction false} RunAgrees(d: Driver, ops: seq<DriverOp>)
    requires Agreed(d)
    ensures Agreed(DoAll(d, ops))
    decreases |ops|
  {
    hide Agreed, Inv, Do;
    if ops != [] {
      AgreedInv(d);
      DoAgrees(d, ops[0]);
      RunAgrees(Do(d, ops[0]), ops[1..]);
    }
  }

  /** The end of an item that is not the one in flight changes nothing at all. */
  lemma {:induction false} OtherEndsAreIgnored(d: Driver, item: nat)
    requires Inv(d.router) && d.inFlight.Some? && d.inFlight.value.item != item
    ensures ItemEnded(d, item) == d
  {
    hide Inv, FeedNext;
  }

  // ---- What was cut is read again --------------------------------------------

  /** Entry `e` of `c` is the one in flight, or `c`'s first unread. */
  ghost predicate StillFirst(d: Driver, c: Id, e: nat) {
    || (d.inFlight.Some? && d.inFlight.value.channel == c && d.inFlight.value.entry == Some(e))
    || FirstUnread(d.router, c, e)
  }

  ghost predicate FirstUnread(r: Router, c: Id, e: nat) {
    c in r.chans && Unread(r.chans[c]) != [] && Unread(r.chans[c])[0].id == e
  }

  /** The entry in flight is in the batch of its channel, and not set aside. */
  ghost predicate CanComeBack(r: Router, c: Id, e: nat) {
    c in r.chans && e !in r.chans[c].aside && Has(r.chans[c].entries, e)
  }

  lemma {:induction false} SteppedBack(c: Chan, e: nat)
    requires c.cursor <= |c.entries| && JustTaken(c, e) && Has(c.entries, e) && e !in c.aside
    ensures var c' := StepBack(c, e).0;
            Unread(c') == [c'.entries[c'.cursor]] + Unread(c) && c'.cursor < |c'.entries|
                && c'.entries[c'.cursor].id == e
  {
    var k :| 0 <= k < |c.entries| && c.entries[k].id == e;
    assert c.cursor == k + 1;
    var c' := StepBack(c, e).0;
    assert c'.entries[c'.cursor..] == [c.entries[k]] + c.entries[c.cursor..];
    assert c'.entries[c'.cursor..][1..] == c.entries[c.cursor..];
  }

  lemma {:induction false} RewoundFirst(r: Router, c: Id, e: nat)
    requires Inv(r) && TakenAt(r, c, e) && CanComeBack(r, c, e)
    ensures FirstUnread(Rewind(r, c, e).0, c, e)
  {
    hide Inv, StepBack, Unread, JustTaken, Has;
    ChanIn(r, c);
    SteppedBack(r.chans[c], e);
  }

  lemma {:induction false} FirstStays(r: Router, r': Router, c: Id, e: nat)
    requires SameAt(r, r', c) && FirstUnread(r, c, e)
    ensures FirstUnread(r', c, e)
  {
    hide Unread;
  }

  /** Feeding takes a first unread entry only by feeding it. */
  lemma {:induction false} FeedTakesFirst(d: Driver, interrupt: bool, c: Id, e: nat)
    requires Inv(d.router) && FirstUnread(d.router, c, e)
    ensures StillFirst(FeedNext(d, interrupt).0, c, e)
    decreases Measure(d.router)
  {
    hide Inv, NextFeed, HandOver, Measure, Wording, Unread;
    NextFeedKeeps(d.router);
    FeedMeasure(d.router);
    MeasurePositive(d.router);
    FeedCounts(d.router);
    var (r, fed) := NextFeed(d.router);
    var d1 := d.(router := r);
    match fed
    case None =>
    case Some(Read(ch, x)) => HandOverIs(d1, ch, Some(x.id), x.text, interrupt);
    case Some(Announce(ch, title, replay, _)) =>
      var text := Wording(d.config, title, replay);
      if text == None {
        FeedTakesFirst(d1, interrupt, c, e);
      } else {
        HandOverIs(d1, ch, None, text.value, interrupt);
      }
  }

  lemma {:induction false} TakenBackFirst(d: Driver, ch: Id, own: bool, c: Id, e: nat)
    requires Inv(d.router) && ReadsEntry(d.inFlight) && d.inFlight.value.channel == c
        && d.inFlight.value.entry == Some(e)
    requires (own || c != ch) && TakenAt(d.router, c, e) && CanComeBack(d.router, c, e)
    ensures Inv(TakenBack(d, ch, own).router) && FirstUnread(TakenBack(d, ch, own).router, c, e)
  {
    hide Inv, Rewind, FirstUnread, TakenAt, CanComeBack;
    CutKeeps(d, ch, own);
    RewoundFirst(d.router, c, e);
  }

  /** Another channel's record is carried over by the router step before the cut. */
  lemma {:induction false} CarriedOver(r: Router, r': Router, c: Id, e: nat)
    requires SameAt(r, r', c) && r'.nextEntry >= r.nextEntry && TakenAt(r, c, e) && CanComeBack(r, c, e)
    ensures TakenAt(r', c, e) && CanComeBack(r', c, e)
  {
    hide JustTaken, Has;
  }

  /** In flight: entry `e` of `c`, still in its batch and not set aside. */
  ghost predicate InFlight(d: Driver, c: Id, e: nat) {
    && Agreed(d) && ReadsEntry(d.inFlight) && d.inFlight.value.channel == c && d.inFlight.value.entry == Some(e)
    && CanComeBack(d.router, c, e)
  }

  lemma {:induction false} InFlightTaken(d: Driver, c: Id, e: nat)
    requires InFlight(d, c, e)
    ensures Inv(d.router) && TakenAt(d.router, c, e)
  {
    hide Inv, JustTaken;
  }

  lemma {:induction false} FloorSame(r: Router, ch: Id, c: Id)
    ensures SameAt(r, TakeFloor(r, ch).0, c)
  {
    hide IsHandoff;
  }

  /** An interrupt for another channel: what it cut is read again. */
  lemma {:induction false} InterruptedComesBack(d: Driver, ch: Id, c: Id, e: nat)
    requires InFlight(d, c, e) && c != ch
    ensures Inv(d.router) && StillFirst(Interrupted(d, ch).0, c, e)
  {
    hide Inv, FeedNext, TakenBack, TakeFloor, TakenAt, FirstUnread, CanComeBack, Matches;
    InFlightTaken(d, c, e);
    TakenBackFirst(d, ch, false, c, e);
    var d1 := TakenBack(d, ch, false);
    TakeFloorKeeps(d1.router, ch);
    FloorSame(d1.router, ch, c);
    FirstStays(d1.router, TakeFloor(d1.router, ch).0, c, e);
    FeedTakesFirst(d1.(router := TakeFloor(d1.router, ch).0), true, c, e);
  }

  /** A cut and a feed for `ch`, after the router moved its cursor. */
  lemma {:induction false} CutThenFed(d: Driver, r: Router, ch: Id, own: bool, c: Id, e: nat)
    requires InFlight(d, c, e) && Inv(r) && SameAt(d.router, r, c) && r.nextEntry >= d.router.nextEntry && c != ch
    ensures var d1 := TakenBack(d.(router := r), ch, own);
            Inv(d1.router) && StillFirst(FeedNext(d1, true).0, c, e)
  {
    hide Inv, FeedNext, TakenBack, TakenAt, FirstUnread, CanComeBack, Matches, SameAt, StillFirst;
    InFlightTaken(d, c, e);
    CarriedOver(d.router, r, c, e);
    var d0 := d.(router := r);
    TakenBackFirst(d0, ch, own, c, e);
    FeedTakesFirst(TakenBack(d0, ch, own), true, c, e);
  }

  lemma {:induction false} ToldStays(d: Driver, c: Id, e: nat)
    requires StillFirst(d, c, e)
    ensures StillFirst(Told(d, Skip), c, e) && StillFirst(Polled(d), c, e) && StillFirst(Told(Polled(d), Skip), c, e)
  {
    hide FirstUnread;
  }

  lemma {:induction false} FedAfterCut(d: Driver, r: Router, ch: Id, own: bool, c: Id, e: nat)
    requires InFlight(d, c, e) && Inv(r) && SameAt(d.router, r, c) && r.nextEntry >= d.router.nextEntry && c != ch
    ensures StillFirst(CutAndFeed(d.(router := r), ch, own), c, e)
  {
    hide Inv, FeedNext, TakenBack, InFlight, SameAt, StillFirst;
    CutThenFed(d, r, ch, own, c, e);
    ToldStays(FeedNext(TakenBack(d.(router := r), ch, own), true).0, c, e);
  }

  lemma {:induction false} ReadAtSame(r: Router, ch: Id, entry: Option<nat>, replay: bool, c: Id)
    requires c != ch
    ensures SameAt(r, ReadAt(r, ch, entry, replay).0, c) && ReadAt(r, ch, entry, replay).0.nextEntry == r.nextEntry
  {
    hide IsHandoff, Where;
  }

  /** Reading another channel by hand (from an entry, as a replay or a step): what it cut is read again. */
  lemma {:induction false} ReadFromComesBack(d: Driver, ch: Id, from: Option<nat>, replay: bool, c: Id, e: nat)
    requires InFlight(d, c, e) && c != ch
    ensures Inv(d.router) && StillFirst(ReadFrom(d, ch, from, replay).0, c, e)
  {
    hide Inv, ReadAt, CutAndFeed, TakenAt, FirstUnread, CanComeBack, Matches, SameAt;
    InFlightTaken(d, c, e);
    ReadAtKeeps(d.router, ch, from, replay);
    ReadAtSame(d.router, ch, from, replay, c);
    if ReadAt(d.router, ch, from, replay).1 {
      FedAfterCut(d, ReadAt(d.router, ch, from, replay).0, ch, false, c, e);
    }
  }

  /** Restarting another channel: what it cut is read again. */
  lemma {:induction false} RestartComesBack(d: Driver, ch: Id, reason: string, c: Id, e: nat)
    requires InFlight(d, c, e) && c != ch
    ensures Inv(d.router) && StillFirst(ControlOne(d, Restart, ch, reason).0, c, e)
  {
    hide Inv, ReadAt, CutAndFeed, TakenAt, FirstUnread, CanComeBack, Matches, SameAt, Flushing, CutIf;
    InFlightTaken(d, c, e);
    if ch in d.router.chans {
      ReadAtKeeps(d.router, ch, None, true);
      ReadAtSame(d.router, ch, None, true, c);
      if ReadAt(d.router, ch, None, true).1 {
        FedAfterCut(d, ReadAt(d.router, ch, None, true).0, ch, true, c, e);
      }
    }
  }

  lemma {:induction false} SwitchSame(r: Router, c: Id)
    requires Inv(r) && r.order != [] && c != NextTarget(r)
    ensures SameAt(r, NextChannel(r).0, c) && NextChannel(r).0.nextEntry == r.nextEntry
    ensures NextChannel(r).1.Some? && NextChannel(r).1.value.0 == NextTarget(r)
  {
    hide Inv, NextChannel, NextTarget, CaughtUp, Engaged;
    NextChannelIs(r);
  }

  lemma {:induction false} NoSwitch(r: Router)
    requires r.order == []
    ensures NextChannel(r) == (r, None)
  {
  }

  /** The next-session key: what it cut of another channel is read again. */
  lemma {:induction false} SwitchComesBack(d: Driver, c: Id, e: nat)
    requires InFlight(d, c, e) && (d.router.order != [] ==> c != NextTarget(d.router))
    ensures Inv(d.router) && StillFirst(SwitchNext(d).0, c, e)
  {
    hide Inv, FeedNext, TakenBack, TakenAt, InFlight, SameAt, StillFirst, NextChannel, NextTarget, InFlight, Told,
        Agreed, Matches;
    InFlightTaken(d, c, e);
    NextChannelKeeps(d.router);
    if d.router.order == [] {
      NoSwitch(d.router);
      NowInFlight(d, c, e);
    } else {
      SwitchSame(d.router, c);
      var (r, target) := NextChannel(d.router);
      CutThenFed(d, r, target.value.0, false, c, e);
      ToldStays(FeedNext(TakenBack(d.(router := r), target.value.0, false), true).0, c, e);
    }
  }

  lemma {:induction false} NowInFlight(d: Driver, c: Id, e: nat)
    requires InFlight(d, c, e)
    ensures StillFirst(d, c, e)
  {
    hide Inv, FirstUnread, CanComeBack, Matches;
  }

  lemma {:induction false} WrittenSame(r: Router, ch: Id, text: string, title: Option<string>, replace: bool,
      interrupt: bool,
                                       agent: Option<Agent>, c: Id)
    requires ch in r.chans && c != ch
    ensures var r' := Written(r, ch, text, title, replace, interrupt, agent).0;
        SameAt(r, r', c) && r'.nextEntry >= r.nextEntry
  {
    hide PushEntry, Pending;
  }

  lemma {:induction false} OpenSame(r: Router, ch: Id, c: Id)
    requires c != ch
    ensures SameAt(r, Open(r, ch, None, None, None).0, c) && Open(r, ch, None, None, None).0.nextEntry == r.nextEntry
  {
  }

  /** Text spoken with `interrupt` into another channel: what it cut is read again. */
  lemma {:induction false} PushComesBack(d: Driver, ch: Id, text: string, mode: Option<Mode>, title: Option<string>,
                                         agent: Option<Agent>, c: Id, e: nat)
    requires InFlight(d, c, e) && c != ch && ch != "" && ch !in d.router.muted
    ensures Inv(d.router) && StillFirst(DriverModel.Push(d, ch, text, mode, true, title, agent).0, c, e)
  {
    hide Agreed, Inv, Interrupted, PumpFed, Written, Report, Pending, CanComeBack, TakenAt, StillFirst, Open, SameAt;
    InFlightTaken(d, c, e);
    OpenKeeps(d.router, ch, None, None, None);
    OpenSame(d.router, ch, c);
    OpenAgrees(d, ch);
    NothingChanged(d.router, c);
    var r := if ch in d.router.chans then d.router else Open(d.router, ch, None, None, None).0;
    CarriedOver(d.router, r, c, e);
    var d0 := d.(router := r);
    var replace := if mode.Some? then mode.value.ModeReplace? else r.chans[ch].policy.Latest?;
    var d1 := if replace then Report(d0, ch, UnreadOf(d0, ch), Why(mode), None) else d0;
    ReportIs(d0, ch, UnreadOf(d0, ch), Why(mode), None);
    ReportsAgree(d0, d1);
    WrittenKeeps(r, ch, text, title, replace, true, agent);
    WrittenAgrees(d1, ch, text, title, replace, true, agent);
    WrittenSame(r, ch, text, title, replace, true, agent, c);
    MutesSame(d.router, ch, text, title, replace, agent);
    var r2 := Written(r, ch, text, title, replace, true, agent).0;
    CarriedOver(r, r2, c, e);
    InterruptedComesBack(d1.(router := r2), ch, c, e);
  }

  lemma {:induction false} NothingChanged(r: Router, c: Id)
    ensures SameAt(r, r, c)
  {
  }

  lemma {:induction false} MutesSame(r: Router, ch: Id, text: string, title: Option<string>, replace: bool,
      agent: Option<Agent>)
    ensures var r1 := if ch in r.chans then r else Open(r, ch, None, None, None).0;
            ch in r1.chans && Written(r1, ch, text, title, replace, true, agent).0.muted == r.muted
  {
    hide PushEntry, Pending;
  }

  // ---- What the reader is told -----------------------------------------------

  predicate Cuts(c: Command) {
    c == Send(Skip) || c == Send(Stop) || (c.Speak? && c.interrupt)
  }

  /** Since `d`, the reader was told to cut what it plays. */
  ghost predicate ToldToCut(d: Driver, d': Driver) {
    |d.reader.sent| <= |d'.reader.sent| && exists k ::
        |d.reader.sent| <= k < |d'.reader.sent| && Cuts(d'.reader.sent[k])
  }

  /** The answer the reader gave last says that it plays nothing. */
  predicate LastSaidIdle(d: Driver) {
    d.reader.asked > 0 && d.reader.answers(d.reader.asked - 1).playing == None
  }

  /** The items fed are one at a time: an interrupting feed cuts, any other waits for an idle reader. */
  ghost predicate Extends(d: Driver, d': Driver) {
    && d.reader.sent <= d'.reader.sent && d'.reader.answers == d.reader.answers && d'.reader.asked >= d.reader.asked
    && d'.reader.items >= d.reader.items
  }

  lemma {:induction false} HandOverTells(d: Driver, ch: Id, entry: Option<nat>, text: string, interrupt: bool)
    ensures var d' := HandOver(d, ch, entry, text, interrupt);
            Extends(d, d') && (interrupt ==> ToldToCut(d, d'))
            && (!interrupt ==> d'.reader.sent == d.reader.sent + [Speak(d.reader.items + 1, text, false)])
  {
    var d' := HandOver(d, ch, entry, text, interrupt);
    assert d'.reader.sent[|d.reader.sent|] == Speak(d.reader.items + 1, text, interrupt);
  }

  /** A feed tells the reader of exactly the item then in flight; with `interrupt` it cuts. */
  lemma {:induction false} FeedTells(d: Driver, interrupt: bool)
    requires Inv(d.router)
    ensures var (d', fed) := FeedNext(d, interrupt);
            && Extends(d, d')
            && (fed == None ==> d'.reader == d.reader && d'.inFlight == d.inFlight)
            && (fed.Some? ==>
                  fed == d'.inFlight && fed.value.item == d.reader.items + 1 && (interrupt ==> ToldToCut(d, d')))
            && (fed.Some? && !interrupt ==>
                d'.reader.sent == d.reader.sent + [Speak(fed.value.item, fed.value.text, false)])
    decreases Measure(d.router)
  {
    hide Inv, NextFeed, HandOver, Measure, Wording, ToldToCut;
    NextFeedKeeps(d.router);
    FeedMeasure(d.router);
    MeasurePositive(d.router);
    var (r, fed) := NextFeed(d.router);
    var d1 := d.(router := r);
    match fed
    case None =>
    case Some(Read(ch, x)) =>
      HandOverIs(d1, ch, Some(x.id), x.text, interrupt);
      HandOverTells(d1, ch, Some(x.id), x.text, interrupt);
      SameSent(d, d1, HandOver(d1, ch, Some(x.id), x.text, interrupt));
    case Some(Announce(ch, title, replay, _)) =>
      var text := Wording(d.config, title, replay);
      if text == None {
        FeedTells(d1, interrupt);
        SameSent(d, d1, FeedNext(d1, interrupt).0);
      } else {
        HandOverIs(d1, ch, None, text.value, interrupt);
        HandOverTells(d1, ch, None, text.value, interrupt);
        SameSent(d, d1, HandOver(d1, ch, None, text.value, interrupt));
      }
  }

  lemma {:induction false} SameSent(d: Driver, d1: Driver, d': Driver)
    requires d1.reader == d.reader
    ensures ToldToCut(d, d') <==> ToldToCut(d1, d')
  {
  }

  /** The pump never cuts: it speaks only with nothing in flight and the reader idle, one item. */
  lemma {:induction false} PumpWaits(d: Driver)
    requires Inv(d.router)
    ensures var (d', fed) := PumpFed(d);
            && (fed == None ==> d'.reader.sent == d.reader.sent && d'.inFlight == d.inFlight)
            && (fed.Some? ==>
                  d.inFlight == None && Answer(d).playing == None && Answer(d).queued == 0 && fed == d'.inFlight
                  && d'.reader.sent == d.reader.sent + [Speak(fed.value.item, fed.value.text, false)])
  {
    hide Inv, FeedNext;
    if d.inFlight == None {
      FeedTells(Polled(d), false);
    }
  }

  lemma {:induction false} ToldOne(d: Driver, d1: Driver, c: Control)
    requires Extends(d, d1) && Cuts(Send(c))
    ensures ToldToCut(d, Told(d1, c)) && ToldToCut(d, Told(Polled(d1), c))
  {
    assert Told(d1, c).reader.sent[|d1.reader.sent|] == Send(c);
    assert Told(Polled(d1), c).reader.sent[|d1.reader.sent|] == Send(c);
  }

  /** Cutting the item in flight and feeding another tells the reader, unless it says it plays nothing. */
  lemma {:induction false} CutAndFeedTells(d: Driver, ch: Id, own: bool)
    requires Inv(d.router)
    ensures var d' := CutAndFeed(d, ch, own); ToldToCut(d, d') || LastSaidIdle(d')
  {
    hide Inv, FeedNext, TakenBack, ToldToCut;
    CutKeeps(d, ch, own);
    TakenBackIs(d, ch, own);
    var d0 := TakenBack(d, ch, own);
    FeedTells(d0, true);
    var (d1, fed) := FeedNext(d0, true);
    SameSent(d, d0, d1);
    ToldOne(d, d1, Skip);
  }

  /** An interrupt that cuts an item tells the reader. */
  lemma {:induction false} InterruptTells(d: Driver, ch: Id)
    requires Inv(d.router) && d.inFlight.Some?
    ensures ToldToCut(d, Interrupted(d, ch).0)
  {
    hide Inv, FeedNext, TakenBack, ToldToCut, TakeFloor;
    CutKeeps(d, ch, false);
    TakenBackIs(d, ch, false);
    var d1 := TakenBack(d, ch, false);
    TakeFloorKeeps(d1.router, ch);
    var d2 := d1.(router := TakeFloor(d1.router, ch).0);
    FeedTells(d2, true);
    SameSent(d, d2, FeedNext(d2, true).0);
    ToldOne(d, FeedNext(d2, true).0, Skip);
  }

  /** So does the next-session key. */
  lemma {:induction false} SwitchTells(d: Driver)
    requires Inv(d.router) && d.inFlight.Some? && d.router.order != []
    ensures ToldToCut(d, SwitchNext(d).0)
  {
    hide Inv, FeedNext, TakenBack, ToldToCut, NextChannel;
    NextChannelKeeps(d.router);
    SwitchLands(d.router);
    var (r, target) := NextChannel(d.router);
    var d0 := d.(router := r);
    CutKeeps(d0, target.value.0, false);
    TakenBackIs(d0, target.value.0, false);
    var d1 := TakenBack(d0, target.value.0, false);
    FeedTells(d1, true);
    SameSent(d, d1, FeedNext(d1, true).0);
    ToldOne(d, FeedNext(d1, true).0, Skip);
  }

  lemma {:induction false} SwitchLands(r: Router)
    requires Inv(r) && r.order != []
    ensures NextChannel(r).1.Some?
  {
    NextChannelIs(r);
    hide Inv, NextChannel, NextTarget, CaughtUp, Engaged;
  }
}
