/** What is spoken aloud and what is only kept: the mute level decides, for every input and every run. */
module RulesSpeech {
  import opened Options
  import opened Wordings
  import D = DeltaOrders
  import opened RulesModel
  import opened RulesDecisions

  /** At mute level `level`: text with something to read is spoken at 0 and else kept, chimes play
      below 2. */
  predicate Fits(a: Action, level: nat) {
    && (a.Speak? ==> level == 0 && !Blank(a.text))
    && (a.Store? ==> level > 0 && !Blank(a.text))
    && (a.Play? ==> level < 2)
  }

  ghost predicate AllFit(out: seq<Action>, level: nat) {
    forall a :: a in out ==> Fits(a, level)
  }

  /** `r` comes of `s`: the settings stay, and what comes out is right for the mute level. */
  ghost predicate Tuned(s: Rules, r: Out) {
    r.0.settings == s.settings && AllFit(r.1, s.settings.muteLevel)
  }

  lemma {:induction false} TunedThen(s: Rules, first: Out, more: Out)
    requires Tuned(s, first) && Tuned(first.0, more)
    ensures Tuned(s, Then(first, more))
  {
    hide Fits;
  }

  /** How `text` comes out at mute level `level`: aloud, or only kept. */
  function Aloud(level: nat, ch: Id, text: string, number: Option<nat>, release: Option<nat>, kind: Kind,
      parts: seq<string>): Action {
    if level > 0 then Store(ch, text, number, release, kind, parts)
    else Speak(ch, text, number, release, kind, parts)
  }

  lemma {:induction false} SayIs(env: Env, s: Rules, ch: Id, text: string, number: Option<nat>, release: Option<nat>,
      kind: Kind, parts: seq<string>)
    requires !Blank(text)
    ensures Say(env, s, ch, text, number, release, kind, parts)
            == [Aloud(s.settings.muteLevel, ch, text, number, release, kind, parts)]
  {
    hide Blank;
  }

  // ---- What is said ----------------------------------------------------------

  lemma {:induction false} SayFits(env: Env, s: Rules, ch: Id, text: string, number: Option<nat>, release: Option<nat>,
      kind: Kind, parts: seq<string>)
    ensures AllFit(Say(env, s, ch, text, number, release, kind, parts), s.settings.muteLevel)
  {
    hide Blank;
  }

  lemma {:induction false} EachFits(env: Env, s: Rules, ch: Id, head: string, texts: seq<string>)
    ensures AllFit(SayEach(env, s, ch, head, texts), s.settings.muteLevel)
  {
    hide Say, Fits;
    if texts != [] {
      SayFits(env, s, ch, head + texts[0], None, None, Prose, [texts[0]]);
      EachFits(env, s, ch, head, texts[1..]);
    }
  }

  lemma {:induction false} DecisionsFit(env: Env, s: Rules, ch: Id, ds: seq<Decision>)
    ensures AllFit(SayDecisions(env, s, ch, ds), s.settings.muteLevel)
  {
    hide Say, Fits;
    if ds != [] {
      SayFits(env, s, ch, ds[0].text, Some(ds[0].id), None, ds[0].kind, []);
      DecisionsFit(env, s, ch, ds[1..]);
    }
  }

  lemma {:induction false} ProseFits(env: Env, s: Rules, ch: Id, held: seq<(string, bool)>)
    ensures AllFit(SayProse(env, s, ch, held), s.settings.muteLevel)
  {
    hide Say, SayEach, Fits, Joined, Parts;
    SayFits(env, s, ch, Joined(MARK, true, held), None, None, Prose, Parts(held));
    EachFits(env, s, ch, MARK, Parts(held));
  }

  lemma {:induction false} RawFits(env: Env, s: Rules, ch: Id, chunks: seq<string>)
    ensures AllFit(SayRaw(env, s, ch, chunks), s.settings.muteLevel)
  {
    hide Say, SayEach, Fits, JoinSpace;
    SayFits(env, s, ch, JoinSpace(chunks), None, None, Prose, chunks);
    EachFits(env, s, ch, "", chunks);
  }

  lemma {:induction false} ApplyFits(env: Env, s: Rules, r: Release)
    ensures AllFit(Apply(env, s, r), s.settings.muteLevel)
  {
    hide Blank;
  }

  // ---- Prose -----------------------------------------------------------------

  lemma {:induction false} FlushTuned(env: Env, s: Rules, ch: Id, n: nat)
    ensures Tuned(s, FlushUpto(env, s, ch, n)) && Tuned(s, FlushProse(env, s, ch))
  {
    hide SayProse, AllFit;
    var s1 := Ensure(s, ch);
    var held := s1.turns[ch].heldProse;
    ProseFits(env, s1, ch, held[..if n < |held| then n else |held|]);
    ProseFits(env, s1, ch, held[..if ch in s.turns then |held| else 0]);
  }

  lemma {:induction false} HoldTuned(env: Env, s: Rules, ch: Id, c: Turn, texts: seq<(string, bool)>,
      breaks: Option<nat>)
    ensures Tuned(s, Hold(env, s, ch, c, texts, breaks))
  {
    hide FlushUpto, FlushProse, Ready;
    var s1 := Set(s, ch, c.(heldProse := c.heldProse + texts));
    FlushTuned(env, s1, ch, |c.heldProse| + (if breaks.Some? then breaks.value else 0));
  }

  lemma {:induction false} AssembleTuned(env: Env, s: Rules, ch: Id, deltas: seq<D.Delta>)
    ensures Tuned(s, Assemble(env, s, ch, deltas))
  {
    hide FeedDeltas, Hold, Kept;
    if deltas != [] && !s.settings.summaries {
      var s1 := Ensure(s, ch);
      var c0 := s1.turns[ch];
      var d := FeedDeltas(env, Draft(c0.(voiced := |c0.prose|), Kept(c0), None), deltas,
          s.settings.verbosity == SkipCode);
      HoldTuned(env, s1, ch, d.c.(voiced := |d.c.prose|), d.texts, d.breaks);
    }
  }

  lemma {:induction false} GapTuned(env: Env, s: Rules, ch: Id)
    ensures Tuned(s, ReleaseGap(env, s, ch))
  {
    hide Assemble, D.Release, AllFit;
    var s1 := Ensure(s, ch);
    var (order, ready) := D.Release(s1.turns[ch].order);
    AssembleTuned(env, Set(s1, ch, s1.turns[ch].(order := order)), ch, ready);
  }

  lemma {:induction false} AcceptedTuned(env: Env, s: Rules, ch: Id, x: D.Delta)
    ensures Tuned(s, Accepted(env, s, ch, x))
  {
    hide Assemble, D.Accept;
    var s1 := Ensure(s, ch);
    var c := s1.turns[ch];
    var order := D.Accept(c.order, x).0;
    var ready := D.Accept(c.order, x).1;
    AssembleTuned(env, Set(Renamed(s1), ch, c.(order := order.(gen := s1.nextGen + 1))), ch, ready);
    AssembleTuned(env, Set(s1, ch, c.(order := order)), ch, ready);
  }

  lemma {:induction false} StreamTuned(env: Env, s: Rules, ch: Id, turn: Option<string>, x: D.Delta, t: Option<int>)
    ensures Tuned(s, Stream(env, s, ch, turn, x, t))
  {
    hide ReleaseGap, Accepted, IsStale, Noted, LeadInAgain, ReplyAgain, Fits;
    var s2 := Set(Ensure(s, ch), ch, Noted(env, Ensure(s, ch).turns[ch], x));
    GapTuned(env, s2, ch);
    AcceptedTuned(env, s2, ch, x);
    AcceptedTuned(env, ReleaseGap(env, s2, ch).0, ch, x);
  }

  lemma {:induction false} TakeReplyTuned(env: Env, s: Rules, ch: Id)
    ensures Tuned(s, TakeReply(env, s, ch))
  {
    hide Assemble, D.Release, Restarted, ReplyText;
    var s1 := Ensure(s, ch);
    var c := s1.turns[ch];
    if c.reply.Some? {
      var text := ReplyText(env, c.reply.value);
      var s3 := DropHeld(Set(s1, ch, c.(reply := None)), ch).0;
      AssembleTuned(env, Set(s3, ch, Restarted(env, s3.turns[ch], text)), ch, [D.Delta(text, 0, true)]);
    }
  }

  lemma {:induction false} ArmTuned(s: Rules, ch: Id)
    ensures Tuned(s, ArmSettle(s, ch))
  {
  }

  lemma {:induction false} EndingTuned(env: Env, s: Rules, ch: Id)
    ensures Tuned(s, Ending(env, s, ch))
  {
    hide FlushProse, ArmSettle, Kept, Tuned;
    var s1 := Ensure(s, ch);
    var s2 := Set(s1, ch, Ended(s1.turns[ch]));
    var s3 := if s.settings.summaries then s2 else HoldKept(s2, ch);
    FlushTuned(env, s3, ch, 0);
    ArmTuned(FlushProse(env, s3, ch).0, ch);
    TunedThen(s3, FlushProse(env, s3, ch), ArmSettle(FlushProse(env, s3, ch).0, ch));
    SameSettings(s, s3, Ending(env, s, ch));
  }

  lemma {:induction false} SameSettings(s: Rules, s1: Rules, r: Out)
    requires s1.settings == s.settings
    ensures Tuned(s1, r) <==> Tuned(s, r)
  {
  }

  lemma {:induction false} TurnEndTuned(env: Env, s: Rules, ch: Id, turn: Option<string>, t: Option<int>)
    ensures Tuned(s, TurnEnd(env, s, ch, turn, t))
  {
    hide ReleaseGap, TakeReply, Ending, IsStale, Fits;
    ChimeFits(s, TurnDone);
    hide Chimed;
    GapTuned(env, s, ch);
    var first := ReleaseGap(env, s, ch);
    TakeReplyTuned(env, first.0, ch);
    EndingTuned(env, TakeReply(env, first.0, ch).0, ch);
  }

  lemma {:induction false} ChimeFits(s: Rules, chime: Chime)
    ensures AllFit(Chimed(s, chime), s.settings.muteLevel)
  {
  }

  lemma {:induction false} ToolTuned(env: Env, s: Rules, ch: Id, name: string, summary: string)
    ensures Tuned(s, ToolRuns(env, s, ch, name, summary))
  {
    hide ReleaseGap, FlushProse, Say, Fits, ToolText, Settled;
    var s1 := Ensure(s, ch);
    var s2 := Set(s1, ch, Settled(s1.turns[ch]));
    var s3 := if s.whole then s2 else Set(s2, ch, Settled(s1.turns[ch]).(released := true));
    GapTuned(env, s3, ch);
    FlushTuned(env, ReleaseGap(env, s3, ch).0, ch, 0);
    SayFits(env, s, ch, ToolText(name, summary), None, None, Tool, []);
  }

  // ---- Decisions -------------------------------------------------------------

  lemma {:induction false} EnqueueTuned(env: Env, s: Rules, ch: Id, item: Decision, digesting: bool)
    ensures Tuned(s, Enqueue(env, s, ch, item, digesting))
  {
    hide FlushProse, Say, Blank;
    var s1 := Ensure(s, ch);
    FlushTuned(env, s1, ch, 0);
    SayFits(env, s1, ch, item.text, Some(item.id), None, item.kind, []);
  }

  lemma {:induction false} EnqueueAllTuned(env: Env, s: Rules, ch: Id, items: seq<Decision>, digesting: bool)
    ensures Tuned(s, EnqueueAll(env, s, ch, items, digesting))
    decreases |items|
  {
    hide Enqueue, Fits;
    if items != [] {
      var first := Enqueue(env, s, ch, items[0], digesting);
      EnqueueTuned(env, s, ch, items[0], digesting);
      EnqueueAllTuned(env, first.0, ch, items[1..], digesting);
      TunedThen(s, first, EnqueueAll(env, first.0, ch, items[1..], digesting));
    }
  }

  lemma {:induction false} WaitTuned(env: Env, s: Rules, ch: Id, id: Option<string>)
    ensures Tuned(s, ReleaseWait(env, s, ch)) && Tuned(s, WaitLeadIn(s, ch, id))
  {
    hide EnqueueAll;
    var s1 := Ensure(s, ch);
    var s2 := Set(s1, ch, s1.turns[ch].(wait := None));
    EnqueueAllTuned(env, Set(s2, ch, s2.turns[ch].(pending := [])), ch, s2.turns[ch].pending, false);
  }

  lemma {:induction false} ReadLeadInTuned(env: Env, s: Rules, ch: Id, turn: Option<string>, text: string,
      t: Option<int>)
    ensures Tuned(s, ReadLeadIn(env, s, ch, turn, text, t))
  {
    hide Stream, D.Release, AllFit, Led;
    var s0 := Ensure(if s.settings.mode == Final then DropHeld(s, ch).0 else s, ch);
    StreamTuned(env, Set(s0, ch, s0.turns[ch].(skipReply := false)), ch, turn, D.Delta(text, 0, true), t);
  }

  lemma {:induction false} LeadInTuned(env: Env, s: Rules, ch: Id, turn: Option<string>, text: string,
      id: Option<string>, t: Option<int>)
    ensures Tuned(s, TakeLeadIn(env, s, ch, turn, text, id, t))
  {
    hide ReadLeadIn, ReleaseWait, IsStale, Fits;
    ReadLeadInTuned(env, s, ch, turn, text, t);
    WaitTuned(env, s, ch, None);
    WaitTuned(env, ReadLeadIn(env, s, ch, turn, text, t).0, ch, None);
  }

  lemma {:induction false} DecidedTuned(env: Env, s: Rules, ch: Id, ask: Ask, item: Decision)
    ensures Tuned(s, Decided(env, s, ch, ask, item))
  {
    hide Enqueue, WaitLeadIn, ArmSettle, Fits, Blank;
    var s1 := Ensure(s, ch);
    var c := s1.turns[ch];
    var s2 := Set(s1, ch, c.(pending := c.pending + [item]));
    WaitTuned(env, s2, ch, ask.leadInId);
    var waited := if ask.later then WaitLeadIn(s2, ch, ask.leadInId) else (s2, []);
    ArmTuned(waited.0, ch);
    EnqueueTuned(env, s1, ch, item, false);
    EnqueueTuned(env, Set(s1, ch, c.(heldProse := [])), ch, item, false);
  }

  lemma {:induction false} NumberTuned(s: Rules, ch: Id, ask: Ask)
    ensures TakeNumber(s, ch, ask).settings == s.settings
  {
    hide D.Release, Awaits, Hints, DropsBefore;
  }

  lemma {:induction false} AskTuned(env: Env, s: Rules, ch: Id, ask: Ask)
    ensures Tuned(s, AskFor(env, s, ch, ask))
  {
    hide ReleaseGap, Decided, TakeNumber, KeptForLater, Item, Fits;
    GapTuned(env, s, ch);
    var s1 := Ensure(ReleaseGap(env, s, ch).0, ch);
    var c := s1.turns[ch];
    NumberTuned(s1, ch, ask);
    ChimeFits(s1, Chime.Choice);
    ChimeFits(s1, PermissionChime);
    hide Chimed;
    DecidedTuned(env, TakeNumber(s1, ch, ask), ch, ask, Item(s1, c, ask));
  }

  lemma {:induction false} CancellingFits(ch: Id, ds: seq<Decision>, level: nat)
    ensures AllFit(Cancelling(ch, ds), level)
  {
    if ds != [] {
      CancellingFits(ch, ds[1..], level);
    }
  }

  lemma {:induction false} CatchUpTuned(s: Rules, ch: Id)
    ensures CatchUp(s, ch).0.settings == s.settings
  {
    hide D.Release;
  }

  lemma {:induction false} CancelsTuned(s: Rules, ch: Id, turn: Option<string>, t: Option<int>)
    ensures Tuned(s, TurnStart(s, ch, turn, t)) && Tuned(s, Answered(s, ch)) && Tuned(s, Close(s, ch))
  {
    hide D.Release, Cancelling, CatchUp, Waiting, Anew, Cancel, IsStale;
    var level := s.settings.muteLevel;
    var s1 := Ensure(s, ch);
    var s2 := Set(s1, ch, Settled(s1.turns[ch]));
    CatchUpTuned(s2, ch);
    CancellingFits(ch, CatchUp(s2, ch).1, level);
    CancellingFits(ch, Waiting(DropHeld(Renamed(Renamed(s)), ch).0.turns[ch]), level);
    if ch in s.turns {
      CancellingFits(ch, Waiting(s.turns[ch]), level);
    }
  }

  lemma {:induction false} StopTuned(s: Rules, chs: seq<Id>)
    ensures Tuned(s, StopAll(s, chs))
    decreases |chs|
  {
    hide CatchUp, Cancelling, Fits;
    if chs != [] {
      var s1 := Ensure(s, chs[0]);
      var s2 := Set(s1, chs[0], s1.turns[chs[0]].(awaiting := false));
      CatchUpTuned(s2, chs[0]);
      CancellingFits(chs[0], CatchUp(s2, chs[0]).1, s.settings.muteLevel);
      StopTuned(CatchUp(s2, chs[0]).0, chs[1..]);
    }
  }

  lemma {:induction false} FlushesTuned(env: Env, s: Rules, ch: Id, queued: bool)
    ensures Tuned(s, Flush(env, s, ch))
    ensures Tuned(s, (FlushReady(env, s, ch, queued).0, FlushReady(env, s, ch, queued).1))
  {
    hide CatchUp, SayDecisions, Fits;
    if ch in s.turns {
      var first := Set(s, ch, s.turns[ch].(skipReply := true));
      CatchUpTuned(first, ch);
      DecisionsFit(env, CatchUp(first, ch).0, ch, CatchUp(first, ch).1);
      CatchUpTuned(s, ch);
      DecisionsFit(env, Ensure(CatchUp(s, ch).0, ch), ch, CatchUp(s, ch).1);
    }
  }

  // ---- Summaries and timers --------------------------------------------------

  lemma {:induction false} ServeTuned(env: Env, s: Rules)
    ensures Tuned(s, Serve(env, s))
    decreases s.parked.Keys
  {
    hide Apply;
    if s.serveSeq in s.parked {
      var s1 := s.(parked := s.parked - {s.serveSeq}, serveSeq := s.serveSeq + 1);
      ApplyFits(env, s1, s.parked[s.serveSeq]);
      ServeTuned(env, s1);
    }
  }

  lemma {:induction false} LandTuned(env: Env, s: Rules, slot: Option<nat>, r: Release)
    ensures Tuned(s, Land(env, s, slot, r))
  {
    hide Serve, Apply;
    ApplyFits(env, s, r);
    if slot.Some? {
      ServeTuned(env, s.(watched := s.watched - {slot.value}, parked := s.parked[slot.value := r]));
    }
  }

  lemma {:induction false} DispatchTuned(s: Rules, ch: Id, gen: nat, text: string, leadin: bool)
    ensures Tuned(s, (Dispatch(s, ch, gen, text, leadin).0, Dispatch(s, ch, gen, text, leadin).1))
  {
  }

  lemma {:induction false} SummarizingTuned(env: Env, s: Rules, ch: Id, leadin: bool, focused: Option<Id>)
    ensures Tuned(s, (Summarizing(env, s, ch, leadin, focused).0, Summarizing(env, s, ch, leadin, focused).1))
  {
    hide FlushProse, SayRaw, Land, Dispatch, JoinSpace, Kept, Trim;
    var s0 := Ensure(s, ch);
    var c := s0.turns[ch];
    FlushTuned(env, HoldKept(s0, ch), ch, 0);
    var s1 := Set(s0, ch, c.(voiced := |c.prose|));
    var chunks := if c.voiced <= |c.prose| then c.prose[c.voiced..] else [];
    var text := Trim(JoinSpace(chunks));
    RawFits(env, s1, ch, chunks);
    LandTuned(env, Alloc(s1), Some(s1.nextSeq), Release(ch, c.gen, text, false, None));
    DispatchTuned(s1, ch, c.gen, text, leadin);
  }

  lemma {:induction false} SettleTuned(env: Env, s: Rules, ch: Id, gen: nat, focused: Option<Id>)
    ensures Tuned(s, FireSettle(env, s, ch, gen, focused))
  {
    hide Summarizing, EnqueueAll, Fits;
    if ch in s.turns {
      var s1 := Set(s, ch, s.turns[ch].(settleArmed := false));
      var s2 := Set(s1, ch, s1.turns[ch].(pending := []));
      var items := s.turns[ch].pending;
      SummarizingTuned(env, s2, ch, items != [], focused);
      var (s3, out, digesting) := Summarizing(env, s2, ch, items != [], focused);
      EnqueueAllTuned(env, s3, ch, items, digesting);
    }
  }

  lemma {:induction false} FireTuned(env: Env, s: Rules, timer: Timer, focused: Option<Id>)
    ensures Tuned(s, Fire(env, s, timer, focused))
  {
    hide FireSettle, SayDecisions, Land, ReleaseWait, ReleaseGap, Fits;
    match timer
    case Settle(ch, gen) => SettleTuned(env, s, ch, gen, focused);
    case HoldCap(ch, id) =>
      if ch in s.turns && s.turns[ch].held.Some? {
        DecisionsFit(env, s, ch, s.turns[ch].held.value.1);
      }
    case Watchdog(k) =>
      if k in s.watched {
        LandTuned(env, s.(watched := s.watched - {k}), Some(k), s.watched[k]);
      }
    case LeadIn(ch, gen) => WaitTuned(env, s, ch, None);
    case Gap(ch, gen) => GapTuned(env, s, ch);
  }

  lemma {:induction false} DigestTuned(env: Env, s: Rules, job: Job, summary: Option<string>)
    ensures Tuned(s, DigestDone(env, s, job, summary))
  {
    hide Land, SayDecisions, Answer, Owns, Fits;
    var r := Release(job.channel, job.gen, job.text, job.leadin, summary);
    LandTuned(env, Delivered(s, job), job.slot, r);
    DecisionsFit(env, Land(env, Delivered(s, job), job.slot, r).0, job.channel, HeldFor(s, job));
  }

  // ---- Every input, every run ------------------------------------------------

  /** The mute level after an input that sets it. */
  function LevelAfter(s: Rules, op: Op): nat {
    match op
    case OpMute(level) => if level < 2 then level else 2
    case OpConfigure(settings) => settings.muteLevel
    case _ => s.settings.muteLevel
  }

  /** Whatever comes in: what is spoken aloud is spoken unmuted, what is only kept is kept muted, no chime
      plays at level 2, and nothing blank is said; only a mute and the settings set the level. */
  lemma {:induction false} MuteDecides(env: Env, s: Rules, op: Op)
    ensures var (s', out) := Step(env, s, op);
            && (forall a :: a in out && a.Speak? ==> s.settings.muteLevel == 0 && !Blank(a.text))
            && (forall a :: a in out && a.Store? ==> s.settings.muteLevel > 0 && !Blank(a.text))
            && (forall a :: a in out && a.Play? ==> s.settings.muteLevel < 2)
            && s'.settings.muteLevel == LevelAfter(s, op)
  {
    StepTuned(env, s, op);
    hide Step, Blank;
  }

  lemma {:induction false} StepTuned(env: Env, s: Rules, op: Op)
    ensures AllFit(Step(env, s, op).1, s.settings.muteLevel)
    ensures Step(env, s, op).0.settings.muteLevel == LevelAfter(s, op)
  {
    hide Fits, Stream, TakeLeadIn, Reply, TurnStart, TurnEnd, AskFor, ToolRuns, Answered, StopAll, Flush, FlushReady,
        TakeNewTurn, Close, Fire, DigestDone;
    match op
    case OpStream(ch, turn, d, t) => StreamTuned(env, s, ch, turn, d, t);
    case OpLeadIn(ch, turn, text, id, t) => LeadInTuned(env, s, ch, turn, text, id, t);
    case OpReply(ch, turn, text, before, t) => ReplyTuned(env, s, ch, turn, text, before, t);
    case OpTurnStart(ch, turn, t) => CancelsTuned(s, ch, turn, t);
    case OpTurnEnd(ch, turn, t) => TurnEndTuned(env, s, ch, turn, t);
    case OpAsk(ch, ask) => AskTuned(env, s, ch, ask);
    case OpTool(ch, name, summary) => ToolTuned(env, s, ch, name, summary);
    case OpAnswered(ch) => CancelsTuned(s, ch, None, None);
    case OpStopAll(chs) => StopTuned(s, chs);
    case OpFlush(ch) => FlushesTuned(env, s, ch, false);
    case OpFlushReady(ch, queued) => FlushesTuned(env, s, ch, queued);
    case OpNewTurn(ch) => NewTurnTuned(s, ch);
    case OpClose(ch) => CancelsTuned(s, ch, None, None);
    case OpMute(level) => SilenceFits(s, level);
    case OpWhole(on) =>
    case OpConfigure(settings) =>
    case OpFire(timer, focused) => FireTuned(env, s, timer, focused);
    case OpDigest(job, recap) => DigestTuned(env, s, job, recap);
  }

  lemma {:induction false} ReplyTuned(env: Env, s: Rules, ch: Id, turn: Option<string>, text: string,
      before: Option<string>, t: Option<int>)
    ensures Reply(env, s, ch, turn, text, before, t).settings == s.settings
  {
    hide IsStale, Trim;
  }

  lemma {:induction false} NewTurnTuned(s: Rules, ch: Id)
    ensures TakeNewTurn(s, ch).0.settings == s.settings
  {
  }

  lemma {:induction false} SilenceFits(s: Rules, level: nat)
    ensures AllFit(SetMute(s, level).1, s.settings.muteLevel)
  {
  }

  /** An input that leaves the voice on (`on`), or off. */
  predicate Keeps(op: Op, on: bool) {
    match op
    case OpMute(level) => (level == 0) == on
    case OpConfigure(settings) => (settings.muteLevel == 0) == on
    case _ => true
  }

  /** While muted nothing is spoken aloud, while unmuted nothing is only kept, in any run. */
  lemma {:induction false} MutedRunsAreSilent(env: Env, s: Rules, ops: seq<Op>, on: bool)
    requires (s.settings.muteLevel == 0) == on && forall op :: op in ops ==> Keeps(op, on)
    ensures forall a :: a in Run(env, s, ops).1 ==> if on then !a.Store? else !a.Speak?
    ensures (Run(env, s, ops).0.settings.muteLevel == 0) == on
    decreases |ops|
  {
    hide Step, Fits;
    if ops != [] {
      assert ops[0] in ops;
      StepTuned(env, s, ops[0]);
      MutedRunsAreSilent(env, Step(env, s, ops[0]).0, ops[1..], on);
      FitsLevel(Step(env, s, ops[0]).1, s.settings.muteLevel);
    }
  }

  lemma {:induction false} FitsLevel(out: seq<Action>, level: nat)
    requires AllFit(out, level)
    ensures forall a :: a in out ==> if level == 0 then !a.Store? else !a.Speak?
  {
    forall a | a in out ensures if level == 0 then !a.Store? else !a.Speak? {
      assert Fits(a, level);
    }
  }
}
