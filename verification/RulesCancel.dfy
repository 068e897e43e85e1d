/** Cancelling is final: what was minted before is never spoken afterwards, and old timers are no-ops. */
module RulesCancel {
  import opened Options
  import opened Wordings
  import D = DeltaOrders
  import opened RulesModel
  import opened RulesFrames
  import opened RulesDecisions
  import opened RulesTimers
  import opened RulesBuffer

  // ---- How generations move --------------------------------------------------

  /** One turn kept: its name, its jobs in flight and the last of them; what it holds is behind the
      last job or the one before; a gap is the open one or a new one. */
  ghost predicate KeptTurn(c: Turn, c': Turn, low: nat) {
    && c'.gen == c.gen && c'.inflight == c.inflight && c'.lastToken == c.lastToken
    && (c'.held.Some? ==> c'.held.value.0 == c.lastToken || (c.held.Some? && c'.held.value.0 == c.held.value.0))
    && (c'.order.ahead != [] ==> (c.order.ahead != [] && c'.order.gen == c.order.gen) || c'.order.gen > low)
  }

  /** One turn named afresh: it holds nothing behind a job and has none in flight. */
  ghost predicate NewTurn(c: Turn, low: nat, high: nat) {
    && low < c.gen <= high && c.inflight == 0 && c.lastToken == 0
    && (c.held.Some? ==> c.held.value.0 == 0)
    && (c.order.ahead != [] ==> c.order.gen > low)
  }

  /** No job goes out or is answered: every turn there is was kept, or is named past every name so far. */
  ghost predicate Moves(s: Rules, s': Rules) {
    && s'.nextGen >= s.nextGen && s'.nextToken == s.nextToken && s'.nextDecision >= s.nextDecision
    && forall ch :: ch in s'.turns ==>
         || (ch in s.turns && KeptTurn(s.turns[ch], s'.turns[ch], s.nextGen))
         || NewTurn(s'.turns[ch], s.nextGen, s'.nextGen)
  }

  lemma {:induction false} MovesThen(s: Rules, s1: Rules, s2: Rules)
    requires Moves(s, s1) && Moves(s1, s2)
    ensures Moves(s, s2)
  {
    forall ch | ch in s2.turns
      ensures (ch in s.turns && KeptTurn(s.turns[ch], s2.turns[ch], s.nextGen))
          || NewTurn(s2.turns[ch], s.nextGen, s2.nextGen)
    {
      TurnMoves(s, s1, s2, ch);
    }
  }

  lemma {:induction false} TurnMoves(s: Rules, s1: Rules, s2: Rules, ch: Id)
    requires Moves(s, s1) && Moves(s1, s2) && ch in s2.turns
    ensures (ch in s.turns && KeptTurn(s.turns[ch], s2.turns[ch], s.nextGen))
        || NewTurn(s2.turns[ch], s.nextGen, s2.nextGen)
  {
  }

  lemma {:induction false} MovesSame(s: Rules, s': Rules)
    requires s'.turns == s.turns && s'.nextGen >= s.nextGen && s'.nextToken == s.nextToken && s'.nextDecision >=
        s.nextDecision
    ensures Moves(s, s')
  {
  }

  lemma {:induction false} LightMoves(s: Rules, s': Rules, ch: Id, out: seq<Action>)
    requires Light(s, s', ch, out)
    ensures Moves(s, s')
  {
    hide D.Valid, AllPlain;
  }

  lemma {:induction false} EnsureMoves(s: Rules, ch: Id)
    ensures Moves(s, Ensure(s, ch))
  {
    hide Light, Moves, Ensure;
    LightEnsure(s, ch);
    LightMoves(s, Ensure(s, ch), ch, []);
  }

  lemma {:induction false} SetMoves(s: Rules, ch: Id, c: Turn)
    requires ch in s.turns && KeptTurn(s.turns[ch], c, s.nextGen)
    ensures Moves(s, Set(s, ch, c))
  {
  }

  lemma {:induction false} EnqueueMoves(env: Env, s: Rules, ch: Id, item: Decision, digesting: bool)
    ensures Moves(s, Enqueue(env, s, ch, item, digesting).0)
  {
    hide Moves, Light, FlushProse, SayDecision, Ensure, Set;
    EnsureMoves(s, ch);
    var s1 := Ensure(s, ch);
    var c := s1.turns[ch];
    var c' := c.(held := Some((c.lastToken, (if c.held.Some? then c.held.value.1 else []) + [item])));
    SetMoves(s1, ch, c');
    MovesThen(s, s1, Set(s1, ch, c'));
    LightFlush(env, s1, ch);
    LightMoves(s1, FlushProse(env, s1, ch).0, ch, FlushProse(env, s1, ch).1);
    MovesThen(s, s1, FlushProse(env, s1, ch).0);
  }

  lemma {:induction false} EnqueueAllMoves(env: Env, s: Rules, ch: Id, items: seq<Decision>, digesting: bool)
    ensures Moves(s, EnqueueAll(env, s, ch, items, digesting).0)
    decreases |items|
  {
    hide Moves, Enqueue;
    MovesSame(s, s);
    if items != [] {
      var first := Enqueue(env, s, ch, items[0], digesting).0;
      EnqueueMoves(env, s, ch, items[0], digesting);
      EnqueueAllMoves(env, first, ch, items[1..], digesting);
      MovesThen(s, first, EnqueueAll(env, first, ch, items[1..], digesting).0);
    }
  }

  lemma {:induction false} WaitMoves(env: Env, s: Rules, ch: Id)
    ensures Moves(s, ReleaseWait(env, s, ch).0)
  {
    hide Moves, Light, EnqueueAll, ArmSettle, Ensure, Set;
    EnsureMoves(s, ch);
    var s1 := Ensure(s, ch);
    var c := s1.turns[ch].(wait := None);
    SetMoves(s1, ch, c);
    var s2 := Set(s1, ch, c);
    MovesThen(s, s1, s2);
    LightArm(s2, ch);
    LightMoves(s2, ArmSettle(s2, ch).0, ch, ArmSettle(s2, ch).1);
    MovesThen(s, s2, ArmSettle(s2, ch).0);
    SetHas(s1, ch, c);
    SetMoves(s2, ch, c.(pending := []));
    var s3 := Set(s2, ch, c.(pending := []));
    MovesThen(s, s2, s3);
    EnqueueAllMoves(env, s3, ch, c.pending, false);
    MovesThen(s, s3, EnqueueAll(env, s3, ch, c.pending, false).0);
  }

  // ---- Cancelling names the turn afresh --------------------------------------

  /** Every release of `ch` minted so far is dead: `ch` is closed or named past `g`. */
  predicate Dead(s: Rules, ch: Id, g: nat) {
    g <= s.nextGen && !(ch in s.turns && s.turns[ch].gen == g)
  }

  lemma {:induction false} CancelMoves(s: Rules, ch: Id, c: Turn, low: nat)
    requires c.order.ahead == [] && low + 2 <= s.nextGen
    ensures NewTurn(Cancel(c, low + 1, low + 2), low, s.nextGen)
  {
  }

  /** `ch` was named afresh, and everything else moved as usual. */
  ghost predicate Renews(s: Rules, s': Rules, ch: Id) {
    Moves(s, s') && ch in s'.turns && s'.turns[ch].gen > s.nextGen
  }

  lemma {:induction false} RenewedDead(s: Rules, s': Rules, ch: Id, g: nat)
    requires Renews(s, s', ch) && g <= s.nextGen
    ensures Dead(s', ch, g)
  {
    hide KeptTurn, NewTurn;
  }

  lemma {:induction false} SetNew(s: Rules, s1: Rules, ch: Id, c: Turn)
    requires Moves(s, s1) && NewTurn(c, s.nextGen, s1.nextGen)
    ensures Renews(s, Set(s1, ch, c), ch)
  {
    hide KeptTurn;
  }

  lemma {:induction false} DropMoves(s: Rules, ch: Id)
    ensures var s1 := DropHeld(Renamed(Renamed(s)), ch).0;
            Moves(s, s1) && s1.nextGen >= s.nextGen + 2 && ch in s1.turns && s1.turns[ch].order.ahead == []
  {
    hide Moves, Light, DropHeld;
    var s0 := Renamed(Renamed(s));
    MovesSame(s, s0);
    LightDropHeld(s0, ch);
    DroppedAhead(s0, ch);
    var s1 := DropHeld(s0, ch).0;
    LightMoves(s0, s1, ch, []);
    LightKeeps(s0, s1, ch, []);
    MovesThen(s, s0, s1);
  }

  lemma {:induction false} CatchUpRenews(s: Rules, ch: Id)
    ensures Renews(s, CatchUp(s, ch).0, ch)
  {
    hide Moves, DropHeld, Cancel, NewTurn, Set, Renews, Waiting;
    DropMoves(s, ch);
    var s1 := DropHeld(Renamed(Renamed(s)), ch).0;
    var c := s1.turns[ch].(voiced := |s1.turns[ch].prose|);
    CancelMoves(s1, ch, c, s.nextGen);
    SetNew(s, s1, ch, Cancel(c, s.nextGen + 1, s.nextGen + 2));
  }

  lemma {:induction false} TurnStartRenews(s: Rules, ch: Id, turn: Option<string>, t: Option<int>)
    requires !IsStale(s, ch, turn, t)
    ensures Renews(s, TurnStart(s, ch, turn, t).0, ch)
  {
    hide Moves, DropHeld, NewTurn, Set, Renews, Retire, IsStale;
    DropMoves(s, ch);
    var s1 := DropHeld(Renamed(Renamed(s)), ch).0;
    var c := s1.turns[ch];
    var c1 := Anew(c, turn, t);
    CancelMoves(s1, ch, c1, s.nextGen);
    SetNew(s, s1, ch, Cancel(c1, s.nextGen + 1, s.nextGen + 2));
    hide Cancel;
  }

  lemma {:induction false} RenewsMoves(s: Rules, s1: Rules, s': Rules, ch: Id)
    requires Moves(s, s1) && Renews(s1, s', ch)
    ensures Renews(s, s', ch)
  {
    MovesThen(s, s1, s');
    MovesGen(s, s1);
    hide KeptTurn, NewTurn;
  }

  lemma {:induction false} MovesGen(s: Rules, s': Rules)
    requires Moves(s, s')
    ensures s'.nextGen >= s.nextGen && s'.nextToken == s.nextToken
  {
    hide KeptTurn, NewTurn;
  }

  lemma {:induction false} MinorKept(c: Turn, skip: bool, low: nat)
    ensures KeptTurn(c, Settled(c), low) && KeptTurn(c, c.(awaiting := false), low)
        && KeptTurn(c, c.(skipReply := skip), low)
  {
  }

  lemma {:induction false} AnsweredRenews(s: Rules, ch: Id)
    ensures Renews(s, Answered(s, ch).0, ch)
  {
    hide Renews, CatchUp, Ensure, Set, Settled, KeptTurn, Moves;
    EnsureMoves(s, ch);
    var s1 := Ensure(s, ch);
    MinorKept(s1.turns[ch], false, s1.nextGen);
    SetMoves(s1, ch, Settled(s1.turns[ch]));
    var s2 := Set(s1, ch, Settled(s1.turns[ch]));
    MovesThen(s, s1, s2);
    CatchUpRenews(s2, ch);
    RenewsMoves(s, s2, CatchUp(s2, ch).0, ch);
  }

  lemma {:induction false} RenewsIs(s: Rules, s': Rules, ch: Id)
    requires Renews(s, s', ch)
    ensures Moves(s, s')
  {
    hide KeptTurn, NewTurn;
  }

  lemma {:induction false} StopMoves(s: Rules, chs: seq<Id>)
    ensures Moves(s, StopAll(s, chs).0)
    decreases |chs|
  {
    hide Renews, CatchUp, Ensure, Set, KeptTurn, Moves;
    MovesSame(s, s);
    if chs != [] {
      EnsureMoves(s, chs[0]);
      var s1 := Ensure(s, chs[0]);
      MinorKept(s1.turns[chs[0]], false, s1.nextGen);
      SetMoves(s1, chs[0], s1.turns[chs[0]].(awaiting := false));
      var s2 := Set(s1, chs[0], s1.turns[chs[0]].(awaiting := false));
      MovesThen(s, s1, s2);
      CatchUpRenews(s2, chs[0]);
      var s3 := CatchUp(s2, chs[0]).0;
      RenewsIs(s2, s3, chs[0]);
      MovesThen(s, s2, s3);
      StopMoves(s3, chs[1..]);
      MovesThen(s, s3, StopAll(s3, chs[1..]).0);
    }
  }

  lemma {:induction false} FlushRenews(env: Env, s: Rules, ch: Id)
    requires ch in s.turns
    ensures Renews(s, Flush(env, s, ch).0, ch)
  {
    hide Renews, CatchUp, Set, KeptTurn, Moves, SayDecisions;
    MinorKept(s.turns[ch], true, s.nextGen);
    SetMoves(s, ch, s.turns[ch].(skipReply := true));
    var s1 := Set(s, ch, s.turns[ch].(skipReply := true));
    CatchUpRenews(s1, ch);
    RenewsMoves(s, s1, CatchUp(s1, ch).0, ch);
  }

  lemma {:induction false} FlushReadyRenews(env: Env, s: Rules, ch: Id, queued: bool)
    requires ch in s.turns && s.turns[ch].ended
    ensures Renews(s, FlushReady(env, s, ch, queued).0, ch)
  {
    hide CatchUp, KeptTurn, SayDecisions, Moves;
    CatchUpRenews(s, ch);
    var s1 := CatchUp(s, ch).0;
    Existing(s1, ch);
    MinorKept(s1.turns[ch], true, s1.nextGen);
    SetMoves(s1, ch, s1.turns[ch].(skipReply := true));
    MovesThen(s, s1, Set(s1, ch, s1.turns[ch].(skipReply := true)));
  }

  lemma {:induction false} CloseMoves(s: Rules, ch: Id)
    ensures Moves(s, Close(s, ch).0)
  {
    hide Waiting, Cancelling;
  }

  // ---- Asking and timers -----------------------------------------------------

  lemma {:induction false} PendedMoves(s: Rules, ch: Id, item: Decision)
    requires ch in s.turns
    ensures Moves(s, Set(s, ch, s.turns[ch].(pending := s.turns[ch].pending + [item])))
  {
    hide Moves, Set;
    SetMoves(s, ch, s.turns[ch].(pending := s.turns[ch].pending + [item]));
  }

  lemma {:induction false} ProseMoves(s: Rules, ch: Id, held: seq<(string, bool)>)
    requires ch in s.turns
    ensures Moves(s, Set(s, ch, s.turns[ch].(heldProse := held)))
  {
    hide Moves, Set;
    SetMoves(s, ch, s.turns[ch].(heldProse := held));
  }

  lemma {:induction false} DecidedMoves(env: Env, s: Rules, ch: Id, ask: Ask, item: Decision)
    requires ch in s.turns
    ensures Moves(s, Decided(env, s, ch, ask, item).0)
  {
    hide Moves, Light, Enqueue, WaitLeadIn, ArmSettle, Set, Ensure;
    Existing(s, ch);
    var c := s.turns[ch];
    PendedMoves(s, ch, item);
    var s2 := Set(s, ch, c.(pending := c.pending + [item]));
    LightWait(s2, ch, ask.leadInId);
    var waited := WaitLeadIn(s2, ch, ask.leadInId);
    LightMoves(s2, waited.0, ch, waited.1);
    MovesThen(s, s2, waited.0);
    var w := if ask.later then waited else (s2, []);
    LightArm(w.0, ch);
    LightMoves(w.0, ArmSettle(w.0, ch).0, ch, ArmSettle(w.0, ch).1);
    MovesThen(s, w.0, ArmSettle(w.0, ch).0);
    EnqueueMoves(env, s, ch, item, false);
    ProseMoves(s, ch, []);
    var s3 := Set(s, ch, c.(heldProse := []));
    EnqueueMoves(env, s3, ch, item, false);
    var s4 := Enqueue(env, s3, ch, item, false).0;
    MovesThen(s, s3, s4);
    EnsureMoves(s4, ch);
    MovesThen(s, s4, Ensure(s4, ch));
    ProseMoves(Ensure(s4, ch), ch, c.heldProse);
    MovesThen(s, Ensure(s4, ch), Set(Ensure(s4, ch), ch, Ensure(s4, ch).turns[ch].(heldProse := c.heldProse)));
  }

  lemma {:induction false} AskMoves(env: Env, s: Rules, ch: Id, ask: Ask)
    ensures Moves(s, AskFor(env, s, ch, ask).0)
  {
    hide Moves, ReleaseGap, Light, Asked, KeptForLater, TakeNumber, Decided, AskChimes, Item, Ensure, Set, KeptTurn;
    LightReleaseGap(env, s, ch);
    var first := ReleaseGap(env, s, ch);
    LightMoves(s, first.0, ch, first.1);
    EnsureMoves(first.0, ch);
    var s1 := Ensure(first.0, ch);
    MovesThen(s, first.0, s1);
    var c := s1.turns[ch];
    MinorKept(c, false, s1.nextGen);
    SetMoves(s1, ch, c.(awaiting := false));
    MovesThen(s, s1, Set(s1, ch, c.(awaiting := false)));
    TakeNumberIs(s1, ch, ask);
    var s2 := TakeNumber(s1, ch, ask);
    LightMoves(s1, s2.(nextDecision := s1.nextDecision), ch, []);
    MovesSame(s2.(nextDecision := s1.nextDecision), s2);
    MovesThen(s1, s2.(nextDecision := s1.nextDecision), s2);
    MovesThen(s, s1, s2);
    DecidedMoves(env, s2, ch, ask, Item(s1, c, ask));
    MovesThen(s, s2, Decided(env, s2, ch, ask, Item(s1, c, ask)).0);
  }

  lemma {:induction false} LeadInMoves(env: Env, s: Rules, ch: Id, turn: Option<string>, text: string,
      id: Option<string>, t: Option<int>)
    requires Sorted(s)
    ensures Moves(s, TakeLeadIn(env, s, ch, turn, text, id, t).0)
  {
    hide Moves, ReadLeadIn, ReleaseWait, Light, IsStale, Sorted;
    MovesSame(s, s);
    LightReadLeadIn(env, s, ch, turn, text, t);
    var read := ReadLeadIn(env, s, ch, turn, text, t);
    LightMoves(s, read.0, ch, read.1);
    WaitMoves(env, s, ch);
    WaitMoves(env, read.0, ch);
    MovesThen(s, read.0, ReleaseWait(env, read.0, ch).0);
  }

  lemma {:induction false} LandMoves(env: Env, s: Rules, slot: Option<nat>, r: Release)
    ensures Moves(s, Land(env, s, slot, r).0)
  {
    hide Land, Moves, Numberless;
    LandLands(env, s, slot, r);
    MovesSame(s, Land(env, s, slot, r).0);
  }

  // ---- Every input: names ----------------------------------------------------

  /** Names only ever move to fresh ones, of turns and of open gaps; decisions are numbered upwards. */
  ghost predicate Names(s: Rules, s': Rules) {
    && s'.nextGen >= s.nextGen && s'.nextDecision >= s.nextDecision
    && forall ch :: ch in s'.turns ==>
         && ((ch in s.turns && s'.turns[ch].gen == s.turns[ch].gen) || s'.turns[ch].gen > s.nextGen)
         && (s'.turns[ch].order.ahead != [] ==>
               || (ch in s.turns && s.turns[ch].order.ahead != [] && s'.turns[ch].order.gen == s.turns[ch].order.gen)
               || s'.turns[ch].order.gen > s.nextGen)
  }

  lemma {:induction false} MovesNames(s: Rules, s': Rules)
    requires Moves(s, s')
    ensures Names(s, s')
  {
  }

  lemma {:induction false} NamesThen(s: Rules, s1: Rules, s2: Rules)
    requires Names(s, s1) && Names(s1, s2)
    ensures Names(s, s2)
  {
  }

  lemma {:induction false} DispatchNames(s: Rules, ch: Id, gen: nat, text: string, leadin: bool)
    requires ch in s.turns
    ensures Names(s, Dispatch(s, ch, gen, text, leadin).0)
  {
  }

  lemma {:induction false} DeliveredNames(s: Rules, job: Job)
    ensures Names(s, Delivered(s, job))
  {
  }

  lemma {:induction false} VoicedMoves(s: Rules, ch: Id)
    requires ch in s.turns
    ensures Moves(s, Set(s, ch, s.turns[ch].(voiced := |s.turns[ch].prose|)))
    ensures Moves(s, Set(s, ch, s.turns[ch].(settleArmed := false)))
    ensures Moves(s, Set(s, ch, s.turns[ch].(pending := [])))
    ensures Moves(s, Set(s, ch, s.turns[ch].(held := None)))
  {
    hide Moves, Set;
    SetMoves(s, ch, s.turns[ch].(voiced := |s.turns[ch].prose|));
    SetMoves(s, ch, s.turns[ch].(settleArmed := false));
    SetMoves(s, ch, s.turns[ch].(pending := []));
    SetMoves(s, ch, s.turns[ch].(held := None));
  }

  lemma {:induction false} AllocMoves(s: Rules)
    ensures Moves(s, Alloc(s))
  {
    hide Moves;
    MovesSame(s, Alloc(s));
  }

  /** A recap of the turn: kept prose, a short turn, or a job. */
  lemma {:induction false} SummarizingNames(env: Env, s: Rules, ch: Id, leadin: bool, focused: Option<Id>)
    ensures Names(s, Summarizing(env, s, ch, leadin, focused).0)
  {
    hide Names, Moves, HoldKept, FlushProse, SayRaw, Land, Dispatch, Ensure, JoinSpace, Kept, Light, Set, Alloc;
    EnsureMoves(s, ch);
    var s0 := Ensure(s, ch);
    var c := s0.turns[ch];
    MovesNames(s, s0);
    LightHoldKept(s0, ch);
    LightMoves(s0, HoldKept(s0, ch), ch, []);
    MovesThen(s, s0, HoldKept(s0, ch));
    MovesNames(s, HoldKept(s0, ch));
    var flushed := FlushProse(env, HoldKept(s0, ch), ch);
    LightFlush(env, HoldKept(s0, ch), ch);
    LightMoves(HoldKept(s0, ch), flushed.0, ch, flushed.1);
    MovesThen(s, HoldKept(s0, ch), flushed.0);
    MovesNames(s, flushed.0);
    VoicedMoves(s0, ch);
    var s1 := Set(s0, ch, c.(voiced := |c.prose|));
    MovesThen(s, s0, s1);
    MovesNames(s, s1);
    var chunks := if c.voiced <= |c.prose| then c.prose[c.voiced..] else [];
    var r := Release(ch, c.gen, Trim(JoinSpace(chunks)), false, None);
    AllocMoves(s1);
    LandMoves(env, Alloc(s1), Some(s1.nextSeq), r);
    MovesThen(s1, Alloc(s1), Land(env, Alloc(s1), Some(s1.nextSeq), r).0);
    MovesThen(s, s1, Land(env, Alloc(s1), Some(s1.nextSeq), r).0);
    MovesNames(s, Land(env, Alloc(s1), Some(s1.nextSeq), r).0);
    SetHas(s0, ch, c.(voiced := |c.prose|));
    DispatchNames(s1, ch, c.gen, Trim(JoinSpace(chunks)), leadin);
    NamesThen(s, s1, Dispatch(s1, ch, c.gen, Trim(JoinSpace(chunks)), leadin).0);
  }

  lemma {:induction false} FireNames(env: Env, s: Rules, timer: Timer, focused: Option<Id>)
    ensures Names(s, Fire(env, s, timer, focused).0)
  {
    hide Names, Moves, Summarizing, EnqueueAll, ReleaseWait, ReleaseGap, Land, SayDecisions, Light, Set;
    MovesSame(s, s);
    MovesNames(s, s);
    match timer
    case Settle(ch, gen) =>
      if ch in s.turns {
        SettleNames(env, s, ch, gen, focused);
      }
    case HoldCap(ch, id) =>
      if ch in s.turns {
        VoicedMoves(s, ch);
        MovesNames(s, Set(s, ch, s.turns[ch].(held := None)));
      }
    case Watchdog(k) =>
      if k in s.watched {
        var s1 := s.(watched := s.watched - {k});
        MovesSame(s, s1);
        MovesNames(s, s1);
        LandMoves(env, s1, Some(k), s.watched[k]);
        MovesThen(s, s1, Land(env, s1, Some(k), s.watched[k]).0);
        MovesNames(s, Land(env, s1, Some(k), s.watched[k]).0);
      }
    case LeadIn(ch, gen) =>
      WaitMoves(env, s, ch);
      MovesNames(s, ReleaseWait(env, s, ch).0);
    case Gap(ch, gen) =>
      LightReleaseGap(env, s, ch);
      LightMoves(s, ReleaseGap(env, s, ch).0, ch, ReleaseGap(env, s, ch).1);
      MovesNames(s, ReleaseGap(env, s, ch).0);
  }

  lemma {:induction false} SettleNames(env: Env, s: Rules, ch: Id, gen: nat, focused: Option<Id>)
    requires ch in s.turns
    ensures Names(s, FireSettle(env, s, ch, gen, focused).0)
  {
    hide Names, Moves, Summarizing, EnqueueAll, Set;
    MovesSame(s, s);
    MovesNames(s, s);
    VoicedMoves(s, ch);
    var s1 := Set(s, ch, s.turns[ch].(settleArmed := false));
    MovesNames(s, s1);
    SetHas(s, ch, s.turns[ch].(settleArmed := false));
    VoicedMoves(s1, ch);
    var s2 := Set(s1, ch, s1.turns[ch].(pending := []));
    MovesThen(s, s1, s2);
    MovesNames(s, s2);
    var items := s.turns[ch].pending;
    SummarizingNames(env, s2, ch, items != [], focused);
    var (s3, out, digesting) := Summarizing(env, s2, ch, items != [], focused);
    NamesThen(s, s2, s3);
    EnqueueAllMoves(env, s3, ch, items, digesting);
    MovesNames(s3, EnqueueAll(env, s3, ch, items, digesting).0);
    NamesThen(s, s3, EnqueueAll(env, s3, ch, items, digesting).0);
  }

  lemma {:induction false} DigestNames(env: Env, s: Rules, job: Job, summary: Option<string>)
    ensures Names(s, DigestDone(env, s, job, summary).0)
  {
    hide Names, Moves, Land, Delivered, SayDecisions, HeldFor;
    DeliveredNames(s, job);
    var r := Release(job.channel, job.gen, job.text, job.leadin, summary);
    LandMoves(env, Delivered(s, job), job.slot, r);
    MovesNames(Delivered(s, job), Land(env, Delivered(s, job), job.slot, r).0);
    NamesThen(s, Delivered(s, job), Land(env, Delivered(s, job), job.slot, r).0);
  }

  /** Every input but a timer or an answer moves turns as `Moves` says. */
  lemma {:induction false} StepMoves(env: Env, s: Rules, op: Op)
    requires Sorted(s) && !op.OpFire? && !op.OpDigest?
    ensures Moves(s, Step(env, s, op).0)
  {
    hide Moves, Light, Sorted, Renews, Stream, TakeLeadIn, Reply, TurnStart, TurnEnd, AskFor, ToolRuns, Answered,
        StopAll, Flush;
    hide FlushReady, TakeNewTurn, Close, SetMute, IsStale;
    MovesSame(s, s);
    match op
    case OpStream(ch, turn, d, t) =>
      LightStream(env, s, ch, turn, d, t);
      LightMoves(s, Stream(env, s, ch, turn, d, t).0, ch, Stream(env, s, ch, turn, d, t).1);
    case OpLeadIn(ch, turn, text, id, t) => LeadInMoves(env, s, ch, turn, text, id, t);
    case OpReply(ch, turn, text, before, t) =>
      LightReply(env, s, ch, turn, text, before, t);
      LightMoves(s, Reply(env, s, ch, turn, text, before, t), ch, []);
    case OpTurnStart(ch, turn, t) => StartMoves(s, ch, turn, t);
    case OpTurnEnd(ch, turn, t) =>
      LightTurnEnd(env, s, ch, turn, t);
      LightMoves(s, TurnEnd(env, s, ch, turn, t).0, ch, TurnEnd(env, s, ch, turn, t).1);
    case OpAsk(ch, ask) => AskMoves(env, s, ch, ask);
    case OpTool(ch, name, summary) =>
      LightTool(env, s, ch, name, summary);
      LightMoves(s, ToolRuns(env, s, ch, name, summary).0, ch, ToolRuns(env, s, ch, name, summary).1);
    case OpAnswered(ch) =>
      AnsweredRenews(s, ch);
      RenewsIs(s, Answered(s, ch).0, ch);
    case OpStopAll(chs) => StopMoves(s, chs);
    case OpFlush(ch) => FlushMoves(env, s, ch, false);
    case OpFlushReady(ch, queued) => FlushMoves(env, s, ch, queued);
    case OpNewTurn(ch) =>
      LightNewTurn(s, ch);
      LightMoves(s, TakeNewTurn(s, ch).0, ch, []);
    case OpClose(ch) => CloseMoves(s, ch);
    case OpMute(level) => MuteMoves(s, level);
    case OpWhole(on) => MovesSame(s, s.(whole := on));
    case OpConfigure(settings) => MovesSame(s, s.(settings := settings));
  }

  lemma {:induction false} StartMoves(s: Rules, ch: Id, turn: Option<string>, t: Option<int>)
    ensures Moves(s, TurnStart(s, ch, turn, t).0)
  {
    hide Moves, Renews, TurnStart, IsStale;
    if IsStale(s, ch, turn, t) {
      StaleStart(s, ch, turn, t);
      MovesSame(s, s);
    } else {
      TurnStartRenews(s, ch, turn, t);
      RenewsIs(s, TurnStart(s, ch, turn, t).0, ch);
    }
  }

  lemma {:induction false} StaleStart(s: Rules, ch: Id, turn: Option<string>, t: Option<int>)
    requires IsStale(s, ch, turn, t)
    ensures TurnStart(s, ch, turn, t).0 == s
  {
    hide IsStale, DropHeld, Cancel, Retire, Waiting;
  }

  lemma {:induction false} FlushMoves(env: Env, s: Rules, ch: Id, queued: bool)
    ensures Moves(s, Flush(env, s, ch).0) && Moves(s, FlushReady(env, s, ch, queued).0)
  {
    hide Moves, Renews;
    MovesSame(s, s);
    if ch in s.turns {
      FlushRenews(env, s, ch);
      RenewsIs(s, Flush(env, s, ch).0, ch);
      if s.turns[ch].ended {
        FlushReadyRenews(env, s, ch, queued);
        RenewsIs(s, FlushReady(env, s, ch, queued).0, ch);
      }
    }
    hide CatchUp, SayDecisions;
  }

  lemma {:induction false} MuteMoves(s: Rules, level: nat)
    ensures Moves(s, SetMute(s, level).0)
  {
    hide Moves;
    MovesSame(s, SetMute(s, level).0);
  }

  lemma {:induction false} StepNames(env: Env, s: Rules, op: Op)
    requires Sorted(s)
    ensures Names(s, Step(env, s, op).0)
  {
    if op.OpFire? {
      hide Names, Fire;
      FireNames(env, s, op.timer, op.focused);
    } else if op.OpDigest? {
      hide Names, DigestDone;
      DigestNames(env, s, op.job, op.recap);
    } else {
      hide Names, Moves, Step;
      StepMoves(env, s, op);
      MovesNames(s, Step(env, s, op).0);
    }
  }

  // ---- Cancelled text is never spoken ----------------------------------------

  /** Nothing in `out` reads a release that was dead in `s`. */
  ghost predicate NoneDead(s: Rules, out: seq<Action>) {
    forall a :: a in out && ReleaseOf(a).Some? ==> !Dead(s, ChannelOf(a), ReleaseOf(a).value)
  }

  lemma {:induction false} ApplyAlive(env: Env, s: Rules, r: Release)
    ensures NoneDead(s, Apply(env, s, r))
  {
  }

  lemma {:induction false} ServeAlive(env: Env, s: Rules)
    ensures NoneDead(s, Serve(env, s).1)
    decreases s.parked.Keys
  {
    hide Apply, Dead;
    if s.serveSeq in s.parked {
      var r := s.parked[s.serveSeq];
      var s1 := s.(parked := s.parked - {s.serveSeq}, serveSeq := s.serveSeq + 1);
      ApplyAlive(env, s1, r);
      ServeAlive(env, s1);
      SameDead(s, s1, Apply(env, s1, r));
      SameDead(s, s1, Serve(env, s1).1);
    }
  }

  lemma {:induction false} SameDead(s: Rules, s1: Rules, out: seq<Action>)
    requires s1.turns == s.turns && s1.nextGen == s.nextGen && NoneDead(s1, out)
    ensures NoneDead(s, out)
  {
  }

  lemma {:induction false} LandAlive(env: Env, s: Rules, slot: Option<nat>, r: Release)
    ensures NoneDead(s, Land(env, s, slot, r).1)
  {
    hide Apply, Dead, Serve;
    ApplyAlive(env, s, r);
    if slot.Some? {
      var s1 := s.(watched := s.watched - {slot.value}, parked := s.parked[slot.value := r]);
      ServeAlive(env, s1);
      SameDead(s, s1, Serve(env, s1).1);
    }
  }

  /** Dead before a step is dead after it. */
  lemma {:induction false} DeadStays(s: Rules, s': Rules, ch: Id, g: nat)
    requires Names(s, s') && Dead(s, ch, g)
    ensures Dead(s', ch, g)
  {
  }

  lemma {:induction false} AliveBefore(s: Rules, s1: Rules, out: seq<Action>)
    requires Names(s, s1) && NoneDead(s1, out)
    ensures NoneDead(s, out)
  {
    hide Names;
    forall a | a in out && ReleaseOf(a).Some? ensures !Dead(s, ChannelOf(a), ReleaseOf(a).value) {
      if Dead(s, ChannelOf(a), ReleaseOf(a).value) {
        DeadStays(s, s1, ChannelOf(a), ReleaseOf(a).value);
      }
    }
  }

  lemma {:induction false} AliveAdd(s: Rules, a: seq<Action>, b: seq<Action>)
    requires NoneDead(s, a) && NoneDead(s, b)
    ensures NoneDead(s, a + b)
  {
    hide Dead;
  }

  lemma {:induction false} SilentAlive(s: Rules, out: seq<Action>)
    requires Apart(out)
    ensures NoneDead(s, out)
  {
  }

  lemma {:induction false} LightAlive(s: Rules, s': Rules, ch: Id, out: seq<Action>)
    requires Light(s, s', ch, out)
    ensures NoneDead(s, out)
  {
    hide Light, NoneDead;
    LightSays(s, s', ch, out);
    PlainApart(out);
    SilentAlive(s, out);
  }

  lemma {:induction false} SummarizingAlive(env: Env, s: Rules, ch: Id, leadin: bool, focused: Option<Id>)
    ensures NoneDead(s, Summarizing(env, s, ch, leadin, focused).1)
  {
    hide NoneDead, Names, Moves, HoldKept, FlushProse, SayRaw, Land, Dispatch, Ensure, JoinSpace, Kept, Light, Set,
        Alloc;
    NothingDead(s);
    var s0 := Ensure(s, ch);
    var c := s0.turns[ch];
    EnsureMoves(s, ch);
    LightHoldKept(s0, ch);
    var flushed := FlushProse(env, HoldKept(s0, ch), ch);
    LightFlush(env, HoldKept(s0, ch), ch);
    LightSays(HoldKept(s0, ch), flushed.0, ch, flushed.1);
    PlainApart(flushed.1);
    SilentAlive(s, flushed.1);
    VoicedMoves(s0, ch);
    var s1 := Set(s0, ch, c.(voiced := |c.prose|));
    MovesThen(s, s0, s1);
    MovesNames(s, s1);
    var chunks := if c.voiced <= |c.prose| then c.prose[c.voiced..] else [];
    var text := Trim(JoinSpace(chunks));
    RawApart(env, s1, ch, chunks);
    SilentAlive(s, SayRaw(env, s1, ch, chunks));
    var r := Release(ch, c.gen, text, false, None);
    AllocMoves(s1);
    MovesNames(s1, Alloc(s1));
    LandAlive(env, Alloc(s1), Some(s1.nextSeq), r);
    AliveBefore(s1, Alloc(s1), Land(env, Alloc(s1), Some(s1.nextSeq), r).1);
    AliveBefore(s, s1, Land(env, Alloc(s1), Some(s1.nextSeq), r).1);
    SlotAlive(s, Ticket(s1.nextSeq, ch, c.gen, text));
    AliveAdd(s, [Slotted(Ticket(s1.nextSeq, ch, c.gen, text))], Land(env, Alloc(s1), Some(s1.nextSeq), r).1);
    DispatchAlive(s, s1, ch, c.gen, text, leadin);
  }

  lemma {:induction false} NothingDead(s: Rules)
    ensures NoneDead(s, [])
  {
  }

  lemma {:induction false} SlotAlive(s: Rules, t: Ticket)
    ensures NoneDead(s, [Slotted(t)])
  {
  }

  lemma {:induction false} DispatchAlive(s: Rules, s1: Rules, ch: Id, gen: nat, text: string, leadin: bool)
    ensures NoneDead(s, Dispatch(s1, ch, gen, text, leadin).1)
  {
  }

  lemma {:induction false} SettleAlive(env: Env, s: Rules, ch: Id, gen: nat, focused: Option<Id>)
    ensures NoneDead(s, FireSettle(env, s, ch, gen, focused).1)
  {
    hide NoneDead, Names, Moves, Summarizing, EnqueueAll, Set;
    NothingDead(s);
    if ch in s.turns {
      VoicedMoves(s, ch);
      var s1 := Set(s, ch, s.turns[ch].(settleArmed := false));
      SetHas(s, ch, s.turns[ch].(settleArmed := false));
      VoicedMoves(s1, ch);
      var s2 := Set(s1, ch, s1.turns[ch].(pending := []));
      MovesThen(s, s1, s2);
      MovesNames(s, s2);
      var items := s.turns[ch].pending;
      SummarizingAlive(env, s2, ch, items != [], focused);
      var (s3, out, digesting) := Summarizing(env, s2, ch, items != [], focused);
      AliveBefore(s, s2, out);
      EnqueueAllSlots(env, s3, ch, items, digesting);
      SilentAlive(s, EnqueueAll(env, s3, ch, items, digesting).1);
      AliveAdd(s, out, EnqueueAll(env, s3, ch, items, digesting).1);
    }
  }

  lemma {:induction false} FireAlive(env: Env, s: Rules, timer: Timer, focused: Option<Id>)
    ensures NoneDead(s, Fire(env, s, timer, focused).1)
  {
    hide NoneDead, FireSettle, SayDecisions, Land, ReleaseWait, ReleaseGap, Light;
    NothingDead(s);
    match timer
    case Settle(ch, gen) => SettleAlive(env, s, ch, gen, focused);
    case HoldCap(ch, id) =>
      if ch in s.turns && s.turns[ch].held.Some? {
        SayingApart(env, s, ch, s.turns[ch].held.value.1);
        SilentAlive(s, SayDecisions(env, s, ch, s.turns[ch].held.value.1));
      }
    case Watchdog(k) =>
      if k in s.watched {
        var s1 := s.(watched := s.watched - {k});
        LandAlive(env, s1, Some(k), s.watched[k]);
        SameDead(s, s1, Land(env, s1, Some(k), s.watched[k]).1);
      }
    case LeadIn(ch, gen) =>
      WaitSlots(env, s, ch);
      SilentAlive(s, ReleaseWait(env, s, ch).1);
    case Gap(ch, gen) =>
      LightReleaseGap(env, s, ch);
      LightAlive(s, ReleaseGap(env, s, ch).0, ch, ReleaseGap(env, s, ch).1);
  }

  lemma {:induction false} DigestAlive(env: Env, s: Rules, job: Job, summary: Option<string>)
    ensures NoneDead(s, DigestDone(env, s, job, summary).1)
  {
    hide NoneDead, Names, Land, Delivered, SayDecisions, HeldFor;
    DeliveredNames(s, job);
    var r := Release(job.channel, job.gen, job.text, job.leadin, summary);
    LandAlive(env, Delivered(s, job), job.slot, r);
    var landed := Land(env, Delivered(s, job), job.slot, r);
    AliveBefore(s, Delivered(s, job), landed.1);
    SayingApart(env, landed.0, job.channel, HeldFor(s, job));
    SilentAlive(s, SayDecisions(env, landed.0, job.channel, HeldFor(s, job)));
    AliveAdd(s, landed.1, SayDecisions(env, landed.0, job.channel, HeldFor(s, job)));
  }

  lemma {:induction false} StepAlive(env: Env, s: Rules, op: Op)
    requires Sorted(s)
    ensures NoneDead(s, Step(env, s, op).1)
  {
    if op.OpFire? {
      hide NoneDead, Fire;
      FireAlive(env, s, op.timer, op.focused);
    } else if op.OpDigest? {
      hide NoneDead, DigestDone;
      DigestAlive(env, s, op.job, op.recap);
    } else {
      hide NoneDead, Step, Unslotted, ReleaseOf;
      StepSlots(env, s, op);
      SilentAlive(s, Step(env, s, op).1);
    }
  }

  /** Cancellation is final: once the releases of `ch` minted in generation `g` are dead, none is ever
      spoken or stored, whatever comes, also when the channel closes and comes back. */
  lemma {:induction false} CancelledIsSilent(env: Env, s: Rules, ops: seq<Op>, timers: set<Timer>, ch: Id, g: nat)
    requires Live(s, timers) && Dead(s, ch, g)
    ensures forall a :: a in Run(env, s, ops).1 && ChannelOf(a) == ch ==> ReleaseOf(a) != Some(g)
    decreases |ops|
  {
    hide Live, Step, Outstanding, Names, Dead, ChannelOf, ReleaseOf;
    if ops != [] {
      var (s1, out) := Step(env, s, ops[0]);
      LiveSorted(s, timers);
      StepLive(env, s, ops[0], timers);
      StepNames(env, s, ops[0]);
      StepAlive(env, s, ops[0]);
      DeadStays(s, s1, ch, g);
      CancelledIsSilent(env, s1, ops[1..], Outstanding(timers, ops[0], out), ch, g);
      assert Run(env, s, ops).1 == out + Run(env, s1, ops[1..]).1;
    }
  }

  /** A new turn, an answer, a flush or a close of `ch` kills every release of it minted before. */
  lemma {:induction false} CancelKills(env: Env, s: Rules, op: Op, ch: Id, g: nat)
    requires g <= s.nextGen
    requires match op
             case OpTurnStart(x, turn, t) => x == ch && !IsStale(s, ch, turn, t)
             case OpAnswered(x) => x == ch
             case OpFlush(x) => x == ch && ch in s.turns
             case OpFlushReady(x, _) => x == ch && ch in s.turns && s.turns[ch].ended
             case OpClose(x) => x == ch
             case _ => false
    ensures Dead(Step(env, s, op).0, ch, g)
  {
    hide Renews, TurnStart, Answered, Flush, FlushReady, IsStale, Dead;
    match op
    case OpTurnStart(_, turn, t) =>
      TurnStartRenews(s, ch, turn, t);
      RenewedDead(s, TurnStart(s, ch, turn, t).0, ch, g);
    case OpAnswered(_) =>
      AnsweredRenews(s, ch);
      RenewedDead(s, Answered(s, ch).0, ch, g);
    case OpFlush(_) =>
      FlushRenews(env, s, ch);
      RenewedDead(s, Flush(env, s, ch).0, ch, g);
    case OpFlushReady(_, queued) =>
      FlushReadyRenews(env, s, ch, queued);
      RenewedDead(s, FlushReady(env, s, ch, queued).0, ch, g);
    case OpClose(_) => ClosedDead(s, ch, g);
  }

  lemma {:induction false} ClosedDead(s: Rules, ch: Id, g: nat)
    requires g <= s.nextGen
    ensures Dead(Close(s, ch).0, ch, g)
  {
    hide Cancelling, Waiting;
  }

  /** Stop kills those of every channel it goes through. */
  lemma {:induction false} StopKills(s: Rules, chs: seq<Id>, ch: Id, g: nat)
    requires g <= s.nextGen && ch in chs
    ensures Dead(StopAll(s, chs).0, ch, g)
    decreases |chs|
  {
    hide Renews, CatchUp, Ensure, Set, KeptTurn, Moves, Dead, Names;
    EnsureMoves(s, chs[0]);
    var s1 := Ensure(s, chs[0]);
    MinorKept(s1.turns[chs[0]], false, s1.nextGen);
    SetMoves(s1, chs[0], s1.turns[chs[0]].(awaiting := false));
    var s2 := Set(s1, chs[0], s1.turns[chs[0]].(awaiting := false));
    MovesThen(s, s1, s2);
    CatchUpRenews(s2, chs[0]);
    var s3 := CatchUp(s2, chs[0]).0;
    RenewsMoves(s, s2, s3, chs[0]);
    RenewsIs(s, s3, chs[0]);
    MovesGen(s, s3);
    if ch in chs[1..] {
      StopKills(s3, chs[1..], ch, g);
    } else {
      RenewedDead(s, s3, ch, g);
      StopMoves(s3, chs[1..]);
      MovesNames(s3, StopAll(s3, chs[1..]).0);
      DeadStays(s3, StopAll(s3, chs[1..]).0, ch, g);
    }
  }

  // ---- Old gap timers --------------------------------------------------------

  /** The timer of gap `g` is not of `ch`'s open gap. */
  ghost predicate GapOver(s: Rules, ch: Id, g: nat) {
    g <= s.nextGen && !(ch in s.turns && s.turns[ch].order.ahead != [] && s.turns[ch].order.gen == g)
  }

  lemma {:induction false} GapStaysOver(s: Rules, s': Rules, ch: Id, g: nat)
    requires Names(s, s') && GapOver(s, ch, g)
    ensures GapOver(s', ch, g)
  {
  }

  lemma {:induction false} NothingHeld(env: Env, s: Rules, ch: Id)
    requires ch in s.turns && s.turns[ch].order.ahead == []
    ensures ReleaseGap(env, s, ch) == (s, [])
  {
    hide D.Release, Assemble, Set;
    D.ReleaseMovesTheName(s.turns[ch].order);
    AssembleNothing(env, s, ch);
    SetSelf(s, ch);
    SameOrder(s.turns[ch]);
    Existing(s, ch);
  }

  lemma {:induction false} SetSelf(s: Rules, ch: Id)
    requires ch in s.turns
    ensures Set(s, ch, s.turns[ch]) == s
  {
    assert s.turns[ch := s.turns[ch]] == s.turns;
  }

  lemma {:induction false} SameOrder(c: Turn)
    ensures c.(order := c.order) == c
  {
  }

  lemma {:induction false} OverFires(env: Env, s: Rules, ch: Id, g: nat, focused: Option<Id>)
    requires GapOver(s, ch, g)
    ensures Fire(env, s, Gap(ch, g), focused) == (s, [])
  {
    hide ReleaseGap, FireSettle, ReleaseWait, Land, SayDecisions, Set;
    if ch in s.turns && s.turns[ch].order.gen == g {
      NothingHeld(env, s, ch);
    }
  }

  lemma {:induction false} AssembleNothing(env: Env, s: Rules, ch: Id)
    ensures Assemble(env, s, ch, []) == (s, [])
  {
    hide FeedDeltas, Hold, ArmSettle, Kept;
  }

  /** A gap timer from before the held deltas went releases nothing, in any later state: also one of a
      channel that closed and came back, whose own count may have reached the same number. */
  lemma {:induction false} OldGapsAreDead(env: Env, s: Rules, ops: seq<Op>, timers: set<Timer>, ch: Id, g: nat,
      focused: Option<Id>)
    requires Live(s, timers) && GapOver(s, ch, g)
    ensures var s' := Run(env, s, ops).0; Fire(env, s', Gap(ch, g), focused) == (s', [])
    decreases |ops|
  {
    hide Live, Step, Outstanding, Names, GapOver, Fire;
    if ops == [] {
      OverFires(env, s, ch, g, focused);
    } else {
      var (s1, out) := Step(env, s, ops[0]);
      LiveSorted(s, timers);
      StepLive(env, s, ops[0], timers);
      StepNames(env, s, ops[0]);
      GapStaysOver(s, s1, ch, g);
      OldGapsAreDead(env, s1, ops[1..], Outstanding(timers, ops[0], out), ch, g, focused);
    }
  }
}
