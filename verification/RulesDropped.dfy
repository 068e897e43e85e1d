/** Which inputs drop decisions, and that every other decision is read. */
module RulesDropped {
  import opened Options
  import opened Wordings
  import opened RulesModel
  import opened RulesFrames
  import opened RulesDecisions
  import opened RulesTimers
  import opened RulesBuffer

  /** The inputs that cancel what waits in `x`. */
  predicate Cancels(op: Op, x: Id) {
    match op
    case OpTurnStart(ch, _, _) => ch == x
    case OpAnswered(ch) => ch == x
    case OpClose(ch) => ch == x
    case OpStopAll(chs) => x in chs
    case _ => false
  }

  ghost predicate NoneDropped(out: seq<Action>) {
    forall a :: a in out ==> !a.Cancelled?
  }

  ghost predicate DropsOnly(out: seq<Action>, op: Op) {
    forall a :: a in out && a.Cancelled? ==> Cancels(op, a.channel)
  }

  // ---- Inputs that drop nothing ----------------------------------------------

  lemma {:induction false} PlainKeeps(out: seq<Action>)
    requires AllPlain(out)
    ensures NoneDropped(out)
  {
    forall a | a in out ensures !a.Cancelled? {
      assert Plain(a);
    }
  }

  lemma {:induction false} LightKeepsAll(s: Rules, s': Rules, ch: Id, out: seq<Action>)
    requires Light(s, s', ch, out)
    ensures NoneDropped(out)
  {
    hide Light;
    LightSays(s, s', ch, out);
    PlainKeeps(out);
  }

  lemma {:induction false} SayingKeeps(env: Env, s: Rules, ch: Id, ds: seq<Decision>)
    ensures NoneDropped(SayDecisions(env, s, ch, ds))
  {
    if ds != [] {
      SayingKeeps(env, s, ch, ds[1..]);
    }
  }

  lemma {:induction false} EnqueueKeepsAll(env: Env, s: Rules, ch: Id, item: Decision, digesting: bool)
    ensures NoneDropped(Enqueue(env, s, ch, item, digesting).1)
  {
    hide FlushProse, Light, Ensure;
    var s1 := Ensure(s, ch);
    LightFlush(env, s1, ch);
    LightKeepsAll(s1, FlushProse(env, s1, ch).0, ch, FlushProse(env, s1, ch).1);
  }

  lemma {:induction false} EnqueueAllKeepsAll(env: Env, s: Rules, ch: Id, items: seq<Decision>, digesting: bool)
    ensures NoneDropped(EnqueueAll(env, s, ch, items, digesting).1)
    decreases |items|
  {
    hide Enqueue;
    if items != [] {
      EnqueueKeepsAll(env, s, ch, items[0], digesting);
      EnqueueAllKeepsAll(env, Enqueue(env, s, ch, items[0], digesting).0, ch, items[1..], digesting);
    }
  }

  lemma {:induction false} WaitKeepsAll(env: Env, s: Rules, ch: Id)
    ensures NoneDropped(ReleaseWait(env, s, ch).1)
  {
    hide EnqueueAll, Ensure;
    var s1 := Ensure(s, ch);
    var s2 := Set(s1, ch, s1.turns[ch].(wait := None));
    EnqueueAllKeepsAll(env, Set(s2, ch, s2.turns[ch].(pending := [])), ch, s2.turns[ch].pending, false);
  }

  lemma {:induction false} LeadInKeepsAll(env: Env, s: Rules, ch: Id, turn: Option<string>, text: string,
      id: Option<string>, t: Option<int>)
    requires Sorted(s)
    ensures NoneDropped(TakeLeadIn(env, s, ch, turn, text, id, t).1)
  {
    hide ReadLeadIn, ReleaseWait, Light, IsStale, Sorted;
    LightReadLeadIn(env, s, ch, turn, text, t);
    var read := ReadLeadIn(env, s, ch, turn, text, t);
    LightKeepsAll(s, read.0, ch, read.1);
    WaitKeepsAll(env, s, ch);
    WaitKeepsAll(env, read.0, ch);
  }

  lemma {:induction false} DecidedKeepsAll(env: Env, s: Rules, ch: Id, ask: Ask, item: Decision)
    requires ch in s.turns
    ensures NoneDropped(Decided(env, s, ch, ask, item).1)
  {
    hide Enqueue, WaitLeadIn, ArmSettle, Light;
    Existing(s, ch);
    var c := s.turns[ch];
    var s2 := Set(s, ch, c.(pending := c.pending + [item]));
    LightWait(s2, ch, ask.leadInId);
    var waited := WaitLeadIn(s2, ch, ask.leadInId);
    LightKeepsAll(s2, waited.0, ch, waited.1);
    var w := if ask.later then waited else (s2, []);
    LightArm(w.0, ch);
    LightKeepsAll(w.0, ArmSettle(w.0, ch).0, ch, ArmSettle(w.0, ch).1);
    EnqueueKeepsAll(env, s, ch, item, false);
    EnqueueKeepsAll(env, Set(s, ch, c.(heldProse := [])), ch, item, false);
  }

  lemma {:induction false} AskKeepsAll(env: Env, s: Rules, ch: Id, ask: Ask)
    ensures NoneDropped(AskFor(env, s, ch, ask).1)
  {
    hide ReleaseGap, Light, Asked, KeptForLater, TakeNumber, Decided, AskChimes, Item;
    LightReleaseGap(env, s, ch);
    var first := ReleaseGap(env, s, ch);
    LightKeepsAll(s, first.0, ch, first.1);
    var s1 := Ensure(first.0, ch);
    var c := s1.turns[ch];
    TakeNumberIs(s1, ch, ask);
    ChimesPlain(s1, c, ask);
    PlainKeeps(AskChimes(s1, c, ask));
    DecidedKeepsAll(env, TakeNumber(s1, ch, ask), ch, ask, Item(s1, c, ask));
  }

  lemma {:induction false} ApplyKeepsAll(env: Env, s: Rules, r: Release)
    ensures NoneDropped(Apply(env, s, r))
  {
  }

  lemma {:induction false} ServeKeepsAll(env: Env, s: Rules)
    ensures NoneDropped(Serve(env, s).1)
    decreases s.parked.Keys
  {
    hide Apply;
    if s.serveSeq in s.parked {
      var s1 := s.(parked := s.parked - {s.serveSeq}, serveSeq := s.serveSeq + 1);
      ApplyKeepsAll(env, s1, s.parked[s.serveSeq]);
      ServeKeepsAll(env, s1);
    }
  }

  lemma {:induction false} LandKeepsAll(env: Env, s: Rules, slot: Option<nat>, r: Release)
    ensures NoneDropped(Land(env, s, slot, r).1)
  {
    hide Serve, Apply;
    ApplyKeepsAll(env, s, r);
    if slot.Some? {
      ServeKeepsAll(env, s.(watched := s.watched - {slot.value}, parked := s.parked[slot.value := r]));
    }
  }

  lemma {:induction false} RawKeepsAll(env: Env, s: Rules, ch: Id, chunks: seq<string>)
    ensures NoneDropped(SayRaw(env, s, ch, chunks))
  {
    hide SayEach, Say;
    EachPlain(env, s, ch, "", chunks);
    SayPlain(env, s, ch, JoinSpace(chunks), Prose, chunks);
    PlainKeeps(SayRaw(env, s, ch, chunks));
  }

  lemma {:induction false} DispatchKeepsAll(s: Rules, ch: Id, gen: nat, text: string, leadin: bool)
    ensures NoneDropped(Dispatch(s, ch, gen, text, leadin).1)
  {
  }

  lemma {:induction false} SummarizingKeepsAll(env: Env, s: Rules, ch: Id, leadin: bool, focused: Option<Id>)
    ensures NoneDropped(Summarizing(env, s, ch, leadin, focused).1)
  {
    hide HoldKept, FlushProse, SayRaw, Land, Dispatch, Ensure, JoinSpace, Kept, Light, Set, Alloc, Trim;
    var s0 := Ensure(s, ch);
    var c := s0.turns[ch];
    var flushed := FlushProse(env, HoldKept(s0, ch), ch);
    LightFlush(env, HoldKept(s0, ch), ch);
    LightKeepsAll(HoldKept(s0, ch), flushed.0, ch, flushed.1);
    var s1 := Set(s0, ch, c.(voiced := |c.prose|));
    var chunks := if c.voiced <= |c.prose| then c.prose[c.voiced..] else [];
    var text := Trim(JoinSpace(chunks));
    RawKeepsAll(env, s1, ch, chunks);
    LandKeepsAll(env, Alloc(s1), Some(s1.nextSeq), Release(ch, c.gen, text, false, None));
    DispatchKeepsAll(s1, ch, c.gen, text, leadin);
  }

  lemma {:induction false} SettleKeepsAll(env: Env, s: Rules, ch: Id, gen: nat, focused: Option<Id>)
    ensures NoneDropped(FireSettle(env, s, ch, gen, focused).1)
  {
    hide Summarizing, EnqueueAll, Set;
    if ch in s.turns {
      var s1 := Set(s, ch, s.turns[ch].(settleArmed := false));
      SetHas(s, ch, s.turns[ch].(settleArmed := false));
      var s2 := Set(s1, ch, s1.turns[ch].(pending := []));
      var items := s.turns[ch].pending;
      SummarizingKeepsAll(env, s2, ch, items != [], focused);
      var (s3, out, digesting) := Summarizing(env, s2, ch, items != [], focused);
      EnqueueAllKeepsAll(env, s3, ch, items, digesting);
    }
  }

  /** A timer drops no decision. */
  lemma {:induction false} FireKeepsAll(env: Env, s: Rules, timer: Timer, focused: Option<Id>)
    ensures NoneDropped(Fire(env, s, timer, focused).1)
  {
    hide FireSettle, SayDecisions, Land, ReleaseWait, ReleaseGap, Light;
    match timer
    case Settle(ch, gen) => SettleKeepsAll(env, s, ch, gen, focused);
    case HoldCap(ch, id) =>
      if ch in s.turns && s.turns[ch].held.Some? {
        SayingKeeps(env, s, ch, s.turns[ch].held.value.1);
      }
    case Watchdog(k) =>
      if k in s.watched {
        LandKeepsAll(env, s.(watched := s.watched - {k}), Some(k), s.watched[k]);
      }
    case LeadIn(ch, gen) => WaitKeepsAll(env, s, ch);
    case Gap(ch, gen) =>
      LightReleaseGap(env, s, ch);
      LightKeepsAll(s, ReleaseGap(env, s, ch).0, ch, ReleaseGap(env, s, ch).1);
  }

  lemma {:induction false} DigestKeepsAll(env: Env, s: Rules, job: Job, summary: Option<string>)
    ensures NoneDropped(DigestDone(env, s, job, summary).1)
  {
    hide Land, Delivered, SayDecisions, HeldFor;
    var r := Release(job.channel, job.gen, job.text, job.leadin, summary);
    LandKeepsAll(env, Delivered(s, job), job.slot, r);
    SayingKeeps(env, Land(env, Delivered(s, job), job.slot, r).0, job.channel, HeldFor(s, job));
  }

  /** A flush reads what waited. */
  lemma {:induction false} FlushKeepsAll(env: Env, s: Rules, ch: Id, queued: bool)
    ensures NoneDropped(Flush(env, s, ch).1) && NoneDropped(FlushReady(env, s, ch, queued).1)
  {
    hide CatchUp, SayDecisions, Ensure;
    if ch in s.turns {
      var s1 := CatchUp(Set(s, ch, s.turns[ch].(skipReply := true)), ch);
      SayingKeeps(env, s1.0, ch, s1.1);
      var s2 := CatchUp(s, ch);
      SayingKeeps(env, Ensure(s2.0, ch), ch, s2.1);
    }
  }

  // ---- Inputs that cancel ----------------------------------------------------

  lemma {:induction false} CancellingOnly(ch: Id, ds: seq<Decision>)
    ensures forall a :: a in Cancelling(ch, ds) ==> a.Cancelled? && a.channel == ch
  {
    if ds != [] {
      CancellingOnly(ch, ds[1..]);
    }
  }

  lemma {:induction false} CancelsOnly(s: Rules, ch: Id, turn: Option<string>, t: Option<int>)
    ensures forall a :: a in TurnStart(s, ch, turn, t).1 && a.Cancelled? ==> a.channel == ch
    ensures forall a :: a in Answered(s, ch).1 && a.Cancelled? ==> a.channel == ch
    ensures forall a :: a in Close(s, ch).1 && a.Cancelled? ==> a.channel == ch
  {
    hide CatchUp, DropHeld, Cancel, Cancelling, Waiting, IsStale, Anew, Ensure, Settled;
    DroppedAhead(Renamed(Renamed(s)), ch);
    LightDropHeld(Renamed(Renamed(s)), ch);
    CancellingOnly(ch, Waiting(DropHeld(Renamed(Renamed(s)), ch).0.turns[ch]));
    var s1 := Ensure(s, ch);
    CancellingOnly(ch, CatchUp(Set(s1, ch, Settled(s1.turns[ch])), ch).1);
    if ch in s.turns {
      CancellingOnly(ch, Waiting(s.turns[ch]));
    }
  }

  lemma {:induction false} StopsOnly(s: Rules, chs: seq<Id>)
    ensures forall a :: a in StopAll(s, chs).1 && a.Cancelled? ==> a.channel in chs
    decreases |chs|
  {
    hide CatchUp, Ensure, Cancelling;
    if chs != [] {
      var s1 := Ensure(s, chs[0]);
      var s2 := Set(s1, chs[0], s1.turns[chs[0]].(awaiting := false));
      CancellingOnly(chs[0], CatchUp(s2, chs[0]).1);
      StopsOnly(CatchUp(s2, chs[0]).0, chs[1..]);
    }
  }

  lemma {:induction false} KeepsOnly(out: seq<Action>, op: Op)
    requires NoneDropped(out)
    ensures DropsOnly(out, op)
  {
  }

  /** A decision is dropped only by a turn start, an answer, a close or a stop of its own channel. */
  lemma {:induction false} StepCancels(env: Env, s: Rules, op: Op)
    requires Sorted(s)
    ensures forall a :: a in Step(env, s, op).1 && a.Cancelled? ==> Cancels(op, a.channel)
  {
    hide Light, Sorted, Stream, TakeLeadIn, Reply, TurnStart, TurnEnd, AskFor, ToolRuns, Answered, StopAll, Flush,
        Cancels;
    hide FlushReady, TakeNewTurn, Close, SetMute, Fire, DigestDone, NoneDropped;
    match op
    case OpStream(ch, turn, d, t) =>
      LightStream(env, s, ch, turn, d, t);
      LightKeepsAll(s, Stream(env, s, ch, turn, d, t).0, ch, Stream(env, s, ch, turn, d, t).1);
      KeepsOnly(Stream(env, s, ch, turn, d, t).1, op);
    case OpLeadIn(ch, turn, text, id, t) =>
      LeadInKeepsAll(env, s, ch, turn, text, id, t);
      KeepsOnly(TakeLeadIn(env, s, ch, turn, text, id, t).1, op);
    case OpReply(ch, turn, text, before, t) =>
    case OpTurnStart(ch, turn, t) =>
      CancelsOnly(s, ch, turn, t);
      CancelsIt(op, ch);
    case OpTurnEnd(ch, turn, t) =>
      LightTurnEnd(env, s, ch, turn, t);
      LightKeepsAll(s, TurnEnd(env, s, ch, turn, t).0, ch, TurnEnd(env, s, ch, turn, t).1);
      KeepsOnly(TurnEnd(env, s, ch, turn, t).1, op);
    case OpAsk(ch, ask) =>
      AskKeepsAll(env, s, ch, ask);
      KeepsOnly(AskFor(env, s, ch, ask).1, op);
    case OpTool(ch, name, summary) =>
      LightTool(env, s, ch, name, summary);
      LightKeepsAll(s, ToolRuns(env, s, ch, name, summary).0, ch, ToolRuns(env, s, ch, name, summary).1);
      KeepsOnly(ToolRuns(env, s, ch, name, summary).1, op);
    case OpAnswered(ch) =>
      CancelsOnly(s, ch, None, None);
      CancelsIt(op, ch);
    case OpStopAll(chs) =>
      StopsOnly(s, chs);
      StopsIt(op);
    case OpFlush(ch) =>
      FlushKeepsAll(env, s, ch, false);
      KeepsOnly(Flush(env, s, ch).1, op);
    case OpFlushReady(ch, queued) =>
      FlushKeepsAll(env, s, ch, queued);
      KeepsOnly(FlushReady(env, s, ch, queued).1, op);
    case OpNewTurn(ch) =>
    case OpClose(ch) =>
      CancelsOnly(s, ch, None, None);
      CancelsIt(op, ch);
    case OpMute(level) =>
      SilencesOnly(s, level);
    case OpWhole(on) =>
    case OpConfigure(settings) =>
    case OpFire(timer, focused) =>
      FireKeepsAll(env, s, timer, focused);
      KeepsOnly(Fire(env, s, timer, focused).1, op);
    case OpDigest(job, recap) =>
      DigestKeepsAll(env, s, job, recap);
      KeepsOnly(DigestDone(env, s, job, recap).1, op);
  }

  lemma {:induction false} CancelsIt(op: Op, ch: Id)
    requires (op.OpTurnStart? && op.ch == ch) || op == OpAnswered(ch) || op == OpClose(ch)
    ensures Cancels(op, ch)
  {
  }

  lemma {:induction false} StopsIt(op: Op)
    requires op.OpStopAll?
    ensures forall ch :: ch in op.chs ==> Cancels(op, ch)
  {
  }

  lemma {:induction false} SilencesOnly(s: Rules, level: nat)
    ensures forall a :: a in SetMute(s, level).1 ==> !a.Cancelled?
  {
  }

  // ---- Every decision not cancelled is read ----------------------------------

  function ReadBy(a: Action, x: Id): multiset<nat> {
    if a.Speak? || a.Store? then One(a, x) else multiset{}
  }

  /** The decisions of `x` spoken or stored in `out`. */
  function ReadIn(out: seq<Action>, x: Id): multiset<nat> {
    if out == [] then multiset{} else ReadBy(out[0], x) + ReadIn(out[1..], x)
  }

  function DroppedBy(a: Action, x: Id): multiset<nat> {
    if a.Cancelled? then One(a, x) else multiset{}
  }

  /** The decisions of `x` dropped in `out`. */
  function DroppedIn(out: seq<Action>, x: Id): multiset<nat> {
    if out == [] then multiset{} else DroppedBy(out[0], x) + DroppedIn(out[1..], x)
  }

  lemma {:induction false} Unnumbered(a: Action, x: Id)
    requires !a.Speak? && !a.Store? && !a.Cancelled?
    ensures One(a, x) == multiset{}
  {
  }

  lemma {:induction false} OneIs(a: Action, x: Id)
    ensures One(a, x) == ReadBy(a, x) + DroppedBy(a, x)
  {
    hide One;
    if !a.Speak? && !a.Store? && !a.Cancelled? {
      Unnumbered(a, x);
    }
  }

  /** What came out was read or dropped. */
  lemma {:induction false} NumbersAre(out: seq<Action>, x: Id)
    ensures Numbers(out, x) == ReadIn(out, x) + DroppedIn(out, x)
  {
    hide One, ReadBy, DroppedBy;
    if out != [] {
      OneIs(out[0], x);
      NumbersAre(out[1..], x);
    }
  }

  lemma {:induction false} NoneOf(out: seq<Action>, x: Id)
    requires forall a :: a in out && a.Cancelled? ==> a.channel != x
    ensures DroppedIn(out, x) == multiset{}
  {
    if out != [] {
      assert out[0] in out;
      NoneOf(out[1..], x);
    }
  }

  lemma {:induction false} DroppedAdd(a: seq<Action>, b: seq<Action>, x: Id)
    ensures DroppedIn(a + b, x) == DroppedIn(a, x) + DroppedIn(b, x)
  {
    hide DroppedBy;
    if a == [] {
      assert a + b == b;
    } else {
      assert (a + b)[1..] == a[1..] + b;
      DroppedAdd(a[1..], b, x);
    }
  }

  /** A run without a turn start, answer, close or stop of `x` drops none of its decisions. */
  lemma {:induction false} RunDrops(env: Env, s: Rules, ops: seq<Op>, timers: set<Timer>, x: Id)
    requires Live(s, timers) && forall op :: op in ops ==> !Cancels(op, x)
    ensures DroppedIn(Run(env, s, ops).1, x) == multiset{}
    decreases |ops|
  {
    hide Live, Step, Outstanding, Cancels, DroppedIn;
    if ops == [] {
      NoneOf([], x);
    } else {
      var (s1, out) := Step(env, s, ops[0]);
      assert ops[0] in ops;
      LiveSorted(s, timers);
      StepLive(env, s, ops[0], timers);
      StepCancels(env, s, ops[0]);
      NoneOf(out, x);
      RunDrops(env, s1, ops[1..], Outstanding(timers, ops[0], out), x);
      DroppedAdd(out, Run(env, s1, ops[1..]).1, x);
    }
  }
}
