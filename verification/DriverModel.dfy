/**
 The driver of the router as a value: which item it fed and waits for, what it told the reader, what
 it reported dropped. The reader is an interface whose answers are arbitrary: `answers(n)` is what
 it says of itself the n-th time it is asked.
 */
module DriverModel {
  import opened Options
  import opened RouterModel
  import opened RouterInvariants
  import opened RouterFeeding

  datatype Playing = Playing(item: nat, chunk: nat, chunks: nat)
  datatype Status = Status(playing: Option<Playing>, queued: nat, paused: bool)
  datatype Control = Stop | Restart | Skip | Play | Previous | Next | Pause
  datatype Command = Speak(item: nat, text: string, interrupt: bool) | Send(control: Control)

  // `asked`: how often its state was read; `items`: the last item number given out.
  datatype Reader = Reader(answers: nat -> Status, asked: nat, items: nat, sent: seq<Command>)

  // The item fed and waited for; `entry` is `None` for an announcement.
  datatype Flight = Flight(item: nat, channel: Id, entry: Option<nat>, text: string)

  datatype Dropped = Dropped(channel: Id, entry: nat, text: string, reason: string, item: Option<nat>)

  datatype Config = Config(announce: bool, announceText: string, replayText: string,
                           unnamedText: Option<string>, unnamedReplayText: Option<string>)

  datatype Driver = Driver(router: Router, inFlight: Option<Flight>, config: Config, dropped: seq<Dropped>,
      reader: Reader)

  datatype Mode = ModeAppend | ModeReplace
  datatype Agent = Agent(decision: bool, heard: bool)
  datatype Spoken = Spoken(item: Option<nat>, dropped: nat, entry: nat)
  datatype Back = BackChunk(channel: Id) | BackEntry(channel: Id) | BackFirst(channel: Id) | BackReplay
  datatype Forward = ForwardChunk(channel: Id) | ForwardEntry(channel: Id) | ForwardEnd(channel: Id) | ForwardNothing
  datatype Flushed = FlushedChannel(channel: Id) | FlushedAnnouncement(channel: Id) | FlushedDirect | FlushedNothing

  // ---- The reader ------------------------------------------------------------

  function Polled(d: Driver): Driver {
    d.(reader := d.reader.(asked := d.reader.asked + 1))
  }

  function Answer(d: Driver): Status {
    d.reader.answers(d.reader.asked)
  }

  function Told(d: Driver, c: Control): Driver {
    d.(reader := d.reader.(sent := d.reader.sent + [Send(c)]))
  }

  function Spoke(d: Driver, text: string, interrupt: bool): Driver {
    var item := d.reader.items + 1;
    d.(reader := d.reader.(items := item, sent := d.reader.sent + [Speak(item, text, interrupt)]))
  }

  // ---- Reporting -------------------------------------------------------------

  function UnreadOf(d: Driver, ch: Id): seq<Entry> {
    if ch in d.router.chans then Unread(d.router.chans[ch]) else []
  }

  function Reports(ch: Id, entries: seq<Entry>, reason: string, item: Option<nat>): seq<Dropped> {
    if entries == [] then []
    else [Dropped(ch, entries[0].id, entries[0].text, reason, item)] + Reports(ch, entries[1..], reason, item)
  }

  function Report(d: Driver, ch: Id, entries: seq<Entry>, reason: string, item: Option<nat>): Driver {
    d.(dropped := d.dropped + Reports(ch, entries, reason, item))
  }

  /** Report the entry `ch` has in flight. */
  function ReportCut(d: Driver, ch: Id, reason: string): Driver {
    match d.inFlight
    case Some(Flight(item, c, Some(e), text)) => if c == ch then Report(d, ch, [Entry(e, text, None)], reason,
        Some(item)) else d
    case _ => d
  }

  // ---- Feeding ---------------------------------------------------------------

  /** `text` with every `{label}` replaced. */
  function Fill(text: string, title: string): string
    decreases |text|
  {
    if text == "" then ""
    else if "{label}" <= text then title + Fill(text[7..], title)
    else [text[0]] + Fill(text[1..], title)
  }

  /** What an announcement says; `None`: it is passed over. */
  function Wording(c: Config, title: Option<string>, replay: bool): Option<string> {
    if !c.announce then None
    else match title
      case Some(t) => Some(Fill(if replay then c.replayText else c.announceText, t))
      case None => if replay then c.unnamedReplayText else c.unnamedText
  }

  /** Hand `text` to the reader; with `interrupt`, what it did not cut is cut. */
  function HandOver(d: Driver, ch: Id, entry: Option<nat>, text: string, interrupt: bool): Driver {
    var d1 := Spoke(d, text, interrupt);
    var item := d1.reader.items;
    var d2 := if interrupt then
                var s := Answer(d1);
                if s.playing.Some? && s.playing.value.item != item then Told(Polled(d1), Skip) else Polled(d1)
              else d1;
    d2.(inFlight := Some(Flight(item, ch, entry, text)))
  }

  /** Feed the router's next item, passing over announcements that are not worded. */
  function FeedNext(d: Driver, interrupt: bool): (Driver, Option<Flight>)
    requires Inv(d.router)
    decreases Measure(d.router)
  {
    NextFeedKeeps(d.router);
    FeedMeasure(d.router);
    MeasurePositive(d.router);
    var (r, fed) := NextFeed(d.router);
    var d1 := d.(router := r);
    match fed
    case None => (d1, None)
    case Some(Read(ch, e)) =>
      var d2 := HandOver(d1, ch, Some(e.id), e.text, interrupt);
      (d2, d2.inFlight)
    case Some(Announce(ch, title, replay, _)) =>
      var text := Wording(d.config, title, replay);
      if text == None then FeedNext(d1, interrupt)
      else
        var d2 := HandOver(d1, ch, None, text.value, interrupt);
        (d2, d2.inFlight)
  }

  /** Feed the next item if nothing is in flight and the reader is idle. */
  function PumpFed(d: Driver): (Driver, Option<Flight>)
    requires Inv(d.router)
  {
    if d.inFlight.Some? then (d, None)
    else if Answer(d).playing.Some? || Answer(d).queued > 0 then (Polled(d), None)
    else FeedNext(Polled(d), false)
  }

  function Pump(d: Driver): Driver
    requires Inv(d.router)
  {
    PumpFed(d).0
  }

  // ---- Cutting ---------------------------------------------------------------

  function Landed(d: Driver): Driver {
    d.(inFlight := None, router := Done(d.router))
  }

  /** Cut the item in flight if it is `ch`'s. */
  function CutIf(d: Driver, ch: Id, reason: Option<string>): Driver {
    var d1 := if reason.Some? then ReportCut(d, ch, reason.value) else d;
    if d1.inFlight.Some? && d1.inFlight.value.channel == ch then Told(Landed(d1), Skip) else d1
  }

  /** Take the item in flight away; an entry of another channel than `ch` (or any, `own`) is stepped
      back over, to be read again. */
  function TakenBack(d: Driver, ch: Id, own: bool): Driver {
    var d1 := d.(inFlight := None);
    match d.inFlight
    case Some(Flight(_, c, Some(e), _)) => if own || c != ch then d1.(router := Rewind(d.router, c, e).0) else d1
    case _ => d1
  }

  /** Cut the item in flight for `ch`, whose cursor was just set, and feed it. */
  function CutAndFeed(d: Driver, ch: Id, own: bool): Driver
    requires Inv(d.router)
  {
    CutKeeps(d, ch, own);
    var (d1, fed) := FeedNext(TakenBack(d, ch, own), true);
    if fed == None then (if Answer(d1).playing.Some? then Told(Polled(d1), Skip) else Polled(d1)) else d1
  }

  lemma {:induction false} CutKeeps(d: Driver, ch: Id, own: bool)
    requires Inv(d.router)
    ensures Inv(TakenBack(d, ch, own).router)
  {
    hide Inv, Rewind;
    if d.inFlight.Some? && d.inFlight.value.entry.Some? {
      RewindKeeps(d.router, d.inFlight.value.channel, d.inFlight.value.entry.value);
    }
  }

  // ---- Operations ------------------------------------------------------------

  function CloseChannel(d: Driver, ch: Id): (Driver, bool)
    requires Inv(d.router)
  {
    if ch !in d.router.chans then (d, false) else
      CloseKeeps(d.router, ch);
      var d1 := Report(d.(router := Close(d.router, ch).0), ch, UnreadOf(d, ch), "closed", None);
      var d2 := CutIf(ReportCut(d1, ch, "closed"), ch, None);
      EndsKeep(d1.router, ch);
      (Pump(d2), true)
  }

  /** Add a text: opened with the defaults if needed, read now with `interrupt`. */
  function Push(d: Driver, ch: Id, text: string, mode: Option<Mode>, interrupt: bool, title: Option<string>,
                agent: Option<Agent>): (Driver, Option<Spoken>)
    requires Inv(d.router)
  {
    if ch == "" then (d, None) else
      OpenKeeps(d.router, ch, None, None, None);
      var r := if ch in d.router.chans then d.router else Open(d.router, ch, None, None, None).0;
      var d0 := d.(router := r);
      var replace := if mode.Some? then mode.value.ModeReplace? else r.chans[ch].policy.Latest?;
      var before := Pending(r.chans[ch]);
      var d1 := if replace then Report(d0, ch, UnreadOf(d0, ch), Why(mode), None) else d0;
      var (r1, entry) := Written(r, ch, text, title, replace, interrupt, agent);
      WrittenKeeps(r, ch, text, title, replace, interrupt, agent);
      var d2 := d1.(router := r1);
      var (d3, fed) := if interrupt && ch !in r1.muted then Interrupted(d2, ch) else PumpFed(d2);
      (d3, Some(Spoken(if fed.Some? && fed.value.entry == Some(entry) then Some(fed.value.item) else None,
                       if replace then before else 0, entry)))
  }

  function Why(mode: Option<Mode>): string {
    if mode == Some(ModeReplace) then "replaced by newer text (mode replace)"
        else "replaced by newer text (policy latest)"
  }

  /** The text in the batch: the agent's, or a host's, which is authorized. */
  function Written(r: Router, ch: Id, text: string, title: Option<string>, replace: bool, interrupt: bool,
                   agent: Option<Agent>): (Router, nat)
    requires ch in r.chans
  {
    if agent.Some? then (Append(r, ch, text, agent.value.decision, agent.value.heard).0, r.nextEntry + 1)
    else (Authorize(PushWith(r, ch, text, title, replace, interrupt).0, ch).0, r.nextEntry + 1)
  }

  lemma {:induction false} WrittenKeeps(r: Router, ch: Id, text: string, title: Option<string>, replace: bool,
      interrupt: bool,
                                        agent: Option<Agent>)
    requires Inv(r) && ch in r.chans
    ensures Inv(Written(r, ch, text, title, replace, interrupt, agent).0)
  {
    hide Inv, Append, PushWith, Authorize;
    if agent.Some? {
      AppendKeeps(r, ch, text, agent.value.decision, agent.value.heard);
    } else {
      PushKeeps(r, ch, text, title, replace, interrupt);
      NamesKeep(PushWith(r, ch, text, title, replace, interrupt).0, ch, true);
    }
  }

  /** Cut what is in flight, give `ch` the floor and feed. */
  function Interrupted(d: Driver, ch: Id): (Driver, Option<Flight>)
    requires Inv(d.router)
  {
    CutKeeps(d, ch, false);
    var d1 := TakenBack(d, ch, false);
    TakeFloorKeeps(d1.router, ch);
    var (d2, fed) := FeedNext(d1.(router := TakeFloor(d1.router, ch).0), true);
    (if fed == None && d.inFlight.Some? then Told(d2, Skip) else d2, fed)
  }

  function MuteChannel(d: Driver, ch: Id, on: bool): (Driver, bool)
    requires Inv(d.router)
  {
    if ch == "" then (d, false) else
      MuteKeeps(d.router, ch, on);
      var d1 := d.(router := SetMuted(d.router, ch, on));
      EndsKeep(d1.router, ch);
      (Pump(if on then CutIf(d1, ch, Some("muted")) else d1), true)
  }

  /** Text leaves the batch: the unread entries and the entry in flight are reported. */
  function ReportAll(d: Driver, ids: seq<Id>, reason: string): Driver
    decreases |ids|
  {
    if ids == [] then d else ReportAll(Report(d, ids[0], UnreadOf(d, ids[0]), reason, None), ids[1..], reason)
  }

  function StopAll(d: Driver, reason: string): Driver {
    var d1 := ReportAll(d, d.router.order, reason);
    var d2 := if d1.inFlight.Some? then ReportCut(d1, d1.inFlight.value.channel, reason) else d1;
    Told(d2.(router := Done(FlushAll(d2.router).0), inFlight := None), Stop)
  }

  function ReadFrom(d: Driver, ch: Id, entry: Option<nat>, replay: bool): (Driver, bool)
    requires Inv(d.router)
  {
    var (r, ok) := ReadAt(d.router, ch, entry, replay);
    ReadAtKeeps(d.router, ch, entry, replay);
    if ok then (CutAndFeed(d.(router := r), ch, false), true) else (d, false)
  }

  /** The last entry of a batch is its newest. */
  function NewestOf(r: Router, ids: seq<Id>): (best: Option<Id>) {
    if ids == [] then None
    else
      var rest := NewestOf(r, ids[1..]);
      if ids[0] !in r.chans || r.chans[ids[0]].entries == [] then rest
      else if rest == None || rest.value !in r.chans || r.chans[rest.value].entries == [] then Some(ids[0])
      else
        var a, b := r.chans[ids[0]].entries, r.chans[rest.value].entries;
        if a[|a| - 1].id > b[|b| - 1].id then Some(ids[0]) else rest
  }

  /** Up while idle: the engaged channel's message again. */
  function RestartIdle(d: Driver): Driver
    requires Inv(d.router)
  {
    var engaged := if Engaged(d.router).Some? then Engaged(d.router)
                   else if d.router.focus.Some? then d.router.focus
                   else NewestOf(d.router, d.router.order);
    if engaged == None then Told(d, Restart)
    else
      var (r, ok) := ReadAt(d.router, engaged.value, None, true);
      ReadAtKeeps(d.router, engaged.value, None, true);
      if ok then Pump(d.(router := r))
      else if engaged.value in d.router.chans && d.router.chans[engaged.value].agent then d
      else Told(d, Restart)
  }

  function ControlAll(d: Driver, c: Control, reason: string): Driver
    requires Inv(d.router)
  {
    if c == Stop then StopAll(d, reason)
    else if c == Restart && d.inFlight.Some? then ReadFrom(d, d.inFlight.value.channel, None, true).0
    else if c == Restart then
      if Answer(d).playing == None then RestartIdle(Polled(d)) else Told(Polled(d), Restart)
    else Told(d, c)
  }

  function Flushing(d: Driver, ch: Id, reason: string): Driver {
    Report(d, ch, UnreadOf(d, ch), reason, None).(router := FlushOne(d.router, ch).0)
  }

  function ControlOne(d: Driver, c: Control, ch: Id, reason: string): (Driver, bool)
    requires Inv(d.router)
  {
    if ch !in d.router.chans then (d, false) else
      var reading := d.inFlight.Some? && d.inFlight.value.channel == ch;
      if c == Stop then
        FlushOneKeeps(d.router, ch);
        var d1 := Flushing(d, ch, reason);
        EndsKeep(d1.router, ch);
        (Pump(CutIf(d1, ch, Some(reason))), true)
      else if reading then (Told(d, c), true)
      else if c == Restart then
        var (r, ok) := ReadAt(d.router, ch, None, true);
        ReadAtKeeps(d.router, ch, None, true);
        (if ok then CutAndFeed(d.(router := r), ch, true) else d, true)
      else (d, true)
  }

  function SwitchNext(d: Driver): (Driver, Option<Id>)
    requires Inv(d.router)
  {
    var (r, target) := NextChannel(d.router);
    NextChannelKeeps(d.router);
    if target == None then (d, None) else
      var d0 := d.(router := r);
      CutKeeps(d0, target.value.0, false);
      var (d1, fed) := FeedNext(TakenBack(d0, target.value.0, false), true);
      (if fed == None && d.inFlight.Some? then Told(d1, Skip) else d1, Some(target.value.0))
  }

  /** The chunk of the item in flight that plays, from the reader's answer. */
  function ChunkOf(s: Status, item: nat): Option<Playing> {
    if s.playing.Some? && s.playing.value.item == item then s.playing else None
  }

  /** Back one section. */
  function StepBackward(d: Driver, reason: string): (Driver, Back)
    requires Inv(d.router)
  {
    match d.inFlight
    case Some(Flight(item, ch, Some(entry), _)) =>
      var n := ChunkOf(Answer(d), item);
      var d1 := Polled(d);
      if n.Some? && n.value.chunk > 0 then (Told(d1, Previous), BackChunk(ch))
      else
        var batch := if ch in d.router.chans then d.router.chans[ch].entries else [];
        var at := Where(batch, entry);
        if at == |batch| then
          var (d2, ok) := ReadFrom(d1, ch, None, true);
          (if ok then d2 else Told(d2, Restart), BackFirst(ch))
        else
          var (d2, ok) := ReadFrom(d1, ch, Some(if at > 0 then batch[at - 1].id else entry), false);
          if !ok then (Told(d2, Restart), BackFirst(ch))
          else (d2, if at > 0 then BackEntry(ch) else BackFirst(ch))
    case _ => (ControlAll(d, Restart, reason), BackReplay)
  }

  /** On one section. */
  function StepForward(d: Driver): (Driver, Forward)
    requires Inv(d.router)
  {
    match d.inFlight
    case Some(Flight(item, ch, Some(entry), _)) =>
      var n := ChunkOf(Answer(d), item);
      var d1 := Polled(d);
      if n.Some? && n.value.chunk + 1 < n.value.chunks then (Told(d1, Next), ForwardChunk(ch))
      else
        var batch := if ch in d.router.chans then d.router.chans[ch].entries else [];
        var k := Where(batch, entry);
        var at := if k < |batch| then k + 1 else if ch in d.router.chans then d.router.chans[ch].cursor else 0;
        if at >= |batch| then (d1, ForwardEnd(ch))
        else
          var (d2, ok) := ReadFrom(d1, ch, Some(batch[at].id), false);
          (d2, if ok then ForwardEntry(ch) else ForwardEnd(ch))
    case _ => (d, ForwardNothing)
  }

  /** The other channels a flush takes along. */
  function FlushOthers(d: Driver, ids: seq<Id>, also: set<Id>, but: Option<Id>, reason: string): (Driver, seq<Id>)
    requires Inv(d.router)
    decreases |ids|
  {
    if ids == [] then (d, [])
    else if Some(ids[0]) == but || ids[0] !in also || UnreadOf(d, ids[0]) == []
        then FlushOthers(d, ids[1..], also, but, reason)
    else
      FlushOneKeeps(d.router, ids[0]);
      var (d1, rest) := FlushOthers(Flushing(d, ids[0], reason), ids[1..], also, but, reason);
      (d1, [ids[0]] + rest)
  }

  /** Stop what is being read. */
  function FlushReading(d: Driver, reason: string): (Driver, Flushed)
    requires Inv(d.router)
  {
    match d.inFlight
    case Some(Flight(_, ch, None, _)) => (Told(Landed(Flushing(d, ch, reason)), Skip), FlushedAnnouncement(ch))
    case Some(Flight(_, ch, Some(_), _)) => (CutIf(Flushing(d, ch, reason), ch, Some(reason)), FlushedChannel(ch))
    case None => if Answer(d).playing.Some? then (Told(Polled(d), Skip), FlushedDirect) else (Polled(d), FlushedNothing)
  }

  lemma {:induction false} FlushReadingKeeps(d: Driver, reason: string)
    requires Inv(d.router)
    ensures Inv(FlushReading(d, reason).0.router)
  {
    hide Inv, FlushOne, UnreadOf, Reports;
    if d.inFlight.Some? {
      FlushOneKeeps(d.router, d.inFlight.value.channel);
      EndsKeep(FlushOne(d.router, d.inFlight.value.channel).0, "");
    }
  }

  function FlushedId(f: Flushed): Option<Id> {
    match f
    case FlushedChannel(ch) => Some(ch)
    case FlushedAnnouncement(ch) => Some(ch)
    case _ => None
  }

  /** The flush hotkey, and the other channels `also` names. */
  function FlushWith(d: Driver, reason: string, also: set<Id>): (Driver, Flushed, seq<Id>)
    requires Inv(d.router)
  {
    var (d1, flushed) := FlushReading(d, reason);
    FlushReadingKeeps(d, reason);
    var (d2, others) := FlushOthers(d1, d1.router.order, also, FlushedId(flushed), reason);
    OthersKeep(d1, d1.router.order, also, FlushedId(flushed), reason);
    if flushed == FlushedNothing then (d2, flushed, others)
    else
      (Pump(if Answer(d2).paused then Told(Polled(d2), Play) else Polled(d2)), flushed, others)
  }

  lemma {:induction false} OthersKeep(d: Driver, ids: seq<Id>, also: set<Id>, but: Option<Id>, reason: string)
    requires Inv(d.router)
    ensures Inv(FlushOthers(d, ids, also, but, reason).0.router)
    decreases |ids|
  {
    hide Inv, FlushOne, UnreadOf, Reports;
    if ids != [] {
      FlushOneKeeps(d.router, ids[0]);
      if Some(ids[0]) == but || ids[0] !in also || UnreadOf(d, ids[0]) == [] {
        OthersKeep(d, ids[1..], also, but, reason);
      } else {
        OthersKeep(Flushing(d, ids[0], reason), ids[1..], also, but, reason);
      }
    }
  }

  /** The reader ended an item: if it was the one in flight, the next is fed. */
  function ItemEnded(d: Driver, item: nat): Driver
    requires Inv(d.router)
  {
    EndsKeep(d.router, "");
    Pump(if d.inFlight.Some? && d.inFlight.value.item == item then Landed(d) else d)
  }
}
