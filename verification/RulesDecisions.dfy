/** No decision is lost or doubled. */
module RulesDecisions {
  import opened Options
  import opened Wordings
  import D = DeltaOrders
  import opened RulesModel
  import opened RulesFrames

  // ---- Numbers that came out, and numbers that wait --------------------------

  function NumberOf(a: Action): Option<nat> {
    match a
    case Speak(_, _, number, _, _, _) => number
    case Store(_, _, number, _, _, _) => number
    case Cancelled(_, number) => Some(number)
    case _ => None
  }

  function ChannelOf(a: Action): Id {
    match a
    case Speak(ch, _, _, _, _, _) => ch
    case Store(ch, _, _, _, _, _) => ch
    case Cancelled(ch, _) => ch
    case _ => ""
  }

  function One(a: Action, ch: Id): multiset<nat> {
    if NumberOf(a).Some? && ChannelOf(a) == ch then multiset{NumberOf(a).value} else multiset{}
  }

  /** The decisions of `ch` in `out`: spoken, stored or dropped. */
  function Numbers(out: seq<Action>, ch: Id): multiset<nat> {
    if out == [] then multiset{} else One(out[0], ch) + Numbers(out[1..], ch)
  }

  function Ids(ds: seq<Decision>): multiset<nat> {
    if ds == [] then multiset{} else multiset{ds[0].id} + Ids(ds[1..])
  }

  /** The decisions of `ch` that wait: pending, or held behind a summary. */
  function Waits(s: Rules, ch: Id): multiset<nat> {
    if ch in s.turns then Ids(Waiting(s.turns[ch])) else multiset{}
  }

  lemma {:induction false} NumbersAdd(a: seq<Action>, b: seq<Action>, ch: Id)
    ensures Numbers(a + b, ch) == Numbers(a, ch) + Numbers(b, ch)
  {
    hide One;
    if a == [] {
      assert a + b == b;
    } else {
      assert (a + b)[1..] == a[1..] + b;
      NumbersAdd(a[1..], b, ch);
    }
  }

  lemma {:induction false} IdsAdd(a: seq<Decision>, b: seq<Decision>)
    ensures Ids(a + b) == Ids(a) + Ids(b)
  {
    if a == [] {
      assert a + b == b;
    } else {
      assert (a + b)[1..] == a[1..] + b;
      IdsAdd(a[1..], b);
    }
  }

  ghost predicate Numberless(out: seq<Action>) {
    forall a :: a in out ==> NumberOf(a) == None
  }

  lemma {:induction false} NoNumbers(out: seq<Action>, ch: Id)
    requires Numberless(out)
    ensures Numbers(out, ch) == multiset{}
  {
    if out != [] {
      assert out[0] in out;
      NoNumbers(out[1..], ch);
    }
  }

  lemma {:induction false} PlainNumberless(out: seq<Action>)
    requires AllPlain(out)
    ensures Numberless(out)
  {
    forall a | a in out ensures NumberOf(a) == None {
      assert Plain(a);
    }
  }

  /** In `ch`, what came out and still waits is what waited and `more`. */
  ghost predicate Balanced(s: Rules, s': Rules, out: seq<Action>, ch: Id, more: multiset<nat>) {
    Numbers(out, ch) + Waits(s', ch) == Waits(s, ch) + more
  }

  lemma {:induction false} BalancedThen(s: Rules, s1: Rules, s2: Rules, out: seq<Action>, out2: seq<Action>, ch: Id,
                                        more: multiset<nat>, more2: multiset<nat>)
    requires Balanced(s, s1, out, ch, more) && Balanced(s1, s2, out2, ch, more2)
    ensures Balanced(s, s2, out + out2, ch, more + more2)
  {
    NumbersAdd(out, out2, ch);
    hide Numbers, Waits;
    var a, b, w, w1, w2 := Numbers(out, ch), Numbers(out2, ch), Waits(s, ch), Waits(s1, ch), Waits(s2, ch);
    Regrouped(a, b, w, w1, w2, more, more2);
  }

  lemma {:induction false} Regrouped(a: multiset<nat>, b: multiset<nat>, w: multiset<nat>, w1: multiset<nat>,
      w2: multiset<nat>,
                                     more: multiset<nat>, more2: multiset<nat>)
    requires a + w1 == w + more && b + w2 == w1 + more2
    ensures (a + b) + w2 == w + (more + more2)
  {
    assert (a + b) + w2 == a + (b + w2) == a + (w1 + more2) == (a + w1) + more2 == (w + more) + more2;
  }

  /** Nothing numbered comes out, and what waits stays. */
  lemma {:induction false} BalancedSame(s: Rules, s': Rules, out: seq<Action>, ch: Id)
    requires Numberless(out) && Waits(s', ch) == Waits(s, ch)
    ensures Balanced(s, s', out, ch, multiset{})
  {
    NoNumbers(out, ch);
  }

  lemma {:induction false} LightBalanced(s: Rules, s': Rules, ch: Id, out: seq<Action>, x: Id)
    requires Light(s, s', ch, out)
    ensures Balanced(s, s', out, x, multiset{})
  {
    hide Balanced, D.Valid;
    PlainNumberless(out);
    LightWaits(s, s', ch, out, x);
    BalancedSame(s, s', out, x);
  }

  lemma {:induction false} LightWaits(s: Rules, s': Rules, ch: Id, out: seq<Action>, x: Id)
    requires Light(s, s', ch, out)
    ensures Waits(s', x) == Waits(s, x)
  {
    hide D.Valid, AllPlain;
    if x == ch && ch in s'.turns {
      assert Waiting(s'.turns[ch]) == Waiting(Was(s, ch));
      NothingWaits();
    }
  }

  lemma {:induction false} NothingWaits()
    ensures Waiting(Begun(0)) == [] && Ids([]) == multiset{}
  {
  }

  // ---- Saying and dropping decisions -----------------------------------------

  lemma {:induction false} SaidNumbers(env: Env, s: Rules, ch: Id, ds: seq<Decision>, x: Id)
    ensures Numbers(SayDecisions(env, s, ch, ds), x) == if x == ch then Ids(ds) else multiset{}
  {
    if ds != [] {
      SaidOne(env, s, ch, ds[0], x);
      SaidNumbers(env, s, ch, ds[1..], x);
      hide Numbers, SayDecision;
      NumbersAdd(SayDecision(env, s, ch, ds[0]), SayDecisions(env, s, ch, ds[1..]), x);
    }
  }

  lemma {:induction false} SaidOne(env: Env, s: Rules, ch: Id, d: Decision, x: Id)
    ensures Numbers(SayDecision(env, s, ch, d), x) == if x == ch then multiset{d.id} else multiset{}
  {
    var out := SayDecision(env, s, ch, d);
    assert |out| == 1 && out[1..] == [];
  }

  lemma {:induction false} DroppedNumbers(ch: Id, ds: seq<Decision>, x: Id)
    ensures Numbers(Cancelling(ch, ds), x) == if x == ch then Ids(ds) else multiset{}
  {
    if ds == [] {
      EmptyNumbers(x);
    } else {
      hide Numbers;
      DroppedOne(ch, ds[0].id, x);
      DroppedNumbers(ch, ds[1..], x);
      NumbersAdd([Cancelled(ch, ds[0].id)], Cancelling(ch, ds[1..]), x);
    }
  }

  lemma {:induction false} DroppedOne(ch: Id, id: nat, x: Id)
    ensures Numbers([Cancelled(ch, id)], x) == if x == ch then multiset{id} else multiset{}
  {
    assert [Cancelled(ch, id)][1..] == [];
  }

  // ---- Enqueueing ------------------------------------------------------------

  /** Holding a decision adds it to what waits. */
  lemma {:induction false} HeldWaits(c: Turn, item: Decision)
    ensures var c' := c.(held := Some((c.lastToken, (if c.held.Some? then c.held.value.1 else []) + [item])));
            Ids(Waiting(c')) == Ids(Waiting(c)) + multiset{item.id}
  {
    var before := if c.held.Some? then c.held.value.1 else [];
    assert c.pending + (before + [item]) == Waiting(c) + [item];
    IdsAdd(Waiting(c), [item]);
    assert Ids([item]) == multiset{item.id} by { assert [item][1..] == []; }
  }

  lemma {:induction false} SetWaits(s: Rules, ch: Id, c: Turn, x: Id)
    ensures Waits(Set(s, ch, c), x) == if x == ch then Ids(Waiting(c)) else Waits(s, x)
  {
    hide Ids;
  }

  lemma {:induction false} EnqueueBalanced(env: Env, s: Rules, ch: Id, item: Decision, digesting: bool, x: Id)
    ensures var (s', out) := Enqueue(env, s, ch, item, digesting);
            Balanced(s, s', out, x, if x == ch then multiset{item.id} else multiset{})
  {
    var s1 := Ensure(s, ch);
    var c := s1.turns[ch];
    LightEnsure(s, ch);
    LightBalanced(s, s1, ch, [], x);
    if digesting || c.inflight > 0 {
      HeldWaits(c, item);
      var c' := c.(held := Some((c.lastToken, (if c.held.Some? then c.held.value.1 else []) + [item])));
      SetWaits(s1, ch, c', x);
      EmptyNumbers(x);
      ArmNumbers(HoldCap(ch, item.id), x);
      hide Ensure, Waiting, Ids, Numbers;
    } else {
      EnqueueNow(env, s, ch, item, x);
    }
  }

  lemma {:induction false} EmptyNumbers(x: Id)
    ensures Numbers([], x) == multiset{}
  {
  }

  lemma {:induction false} ArmNumbers(t: Timer, x: Id)
    ensures Numbers([Arm(t)], x) == multiset{}
  {
    assert [Arm(t)][1..] == [];
  }

  lemma {:induction false} EnqueueNow(env: Env, s: Rules, ch: Id, item: Decision, x: Id)
    requires var s1 := Ensure(s, ch); s1.turns[ch].inflight == 0
    ensures var (s', out) := Enqueue(env, s, ch, item, false);
            Balanced(s, s', out, x, if x == ch then multiset{item.id} else multiset{})
  {
    hide Light, FlushProse, SayDecision, Ensure, Balanced, Numbers, Waits;
    var s1 := Ensure(s, ch);
    var flushed := FlushProse(env, s1, ch);
    LightEnsure(s, ch);
    LightFlush(env, s1, ch);
    LightAfter(s, s1, flushed.0, ch, flushed.1);
    LightBalanced(s, flushed.0, ch, flushed.1, x);
    SaidBalanced(env, s1, flushed.0, ch, item, x);
    var more := if x == ch then multiset{item.id} else multiset{};
    BalancedThen(s, flushed.0, flushed.0, flushed.1, SayDecision(env, s1, ch, item), x, multiset{}, more);
    assert multiset{} + more == more;
  }

  lemma {:induction false} SaidBalanced(env: Env, s: Rules, s': Rules, ch: Id, item: Decision, x: Id)
    ensures Balanced(s', s', SayDecision(env, s, ch, item), x, if x == ch then multiset{item.id} else multiset{})
  {
    hide Waits, SayDecision, Numbers;
    SaidOne(env, s, ch, item, x);
  }

  function These(ch: Id, x: Id, ds: seq<Decision>): multiset<nat> {
    if x == ch then Ids(ds) else multiset{}
  }

  lemma {:induction false} TheseFirst(ch: Id, x: Id, ds: seq<Decision>)
    requires ds != []
    ensures These(ch, x, ds) == (if x == ch then multiset{ds[0].id} else multiset{}) + These(ch, x, ds[1..])
  {
  }

  lemma {:induction false} EnqueueAllBalanced(env: Env, s: Rules, ch: Id, items: seq<Decision>, digesting: bool, x: Id)
    ensures var (s', out) := EnqueueAll(env, s, ch, items, digesting); Balanced(s, s', out, x, These(ch, x, items))
    decreases |items|
  {
    if items == [] {
      EmptyNumbers(x);
    } else {
      hide Enqueue, Balanced, These;
      var first := Enqueue(env, s, ch, items[0], digesting);
      EnqueueBalanced(env, s, ch, items[0], digesting, x);
      var rest := EnqueueAll(env, first.0, ch, items[1..], digesting);
      EnqueueAllBalanced(env, first.0, ch, items[1..], digesting, x);
      BalancedThen(s, first.0, rest.0, first.1, rest.1, x, if x == ch then multiset{items[0].id}
          else multiset{}, These(ch, x, items[1..]));
      TheseFirst(ch, x, items);
    }
  }

  lemma {:induction false} PendingIds(c: Turn)
    ensures Ids(Waiting(c)) == Ids(Waiting(c.(pending := []))) + Ids(c.pending)
  {
    var rest := if c.held.Some? then c.held.value.1 else [];
    IdsAdd(c.pending, rest);
    assert Waiting(c.(pending := [])) == rest;
    hide Ids;
  }

  /** The pending decisions are taken out of the turn. */
  lemma {:induction false} PendingTaken(s: Rules, ch: Id, x: Id)
    requires ch in s.turns
    ensures Waits(s, x) == Waits(Set(s, ch, s.turns[ch].(pending := [])), x) + These(ch, x, s.turns[ch].pending)
  {
    hide Ids, Waiting;
    PendingIds(s.turns[ch]);
    SetWaits(s, ch, s.turns[ch].(pending := []), x);
  }

  /** What was taken out and enqueued again balances. */
  lemma {:induction false} RequeuedBalanced(env: Env, s: Rules, s1: Rules, ch: Id, digesting: bool, out: seq<Action>,
      x: Id)
    requires ch in s.turns && Balanced(Set(s, ch, s.turns[ch].(pending := [])), s1, out, x, multiset{})
    ensures var (s', more) := EnqueueAll(env, s1, ch, s.turns[ch].pending, digesting);
        Balanced(s, s', out + more, x, multiset{})
  {
    hide EnqueueAll, These, Numbers;
    var s0, items := Set(s, ch, s.turns[ch].(pending := [])), s.turns[ch].pending;
    PendingTaken(s, ch, x);
    EnqueueAllBalanced(env, s1, ch, items, digesting, x);
    var (s', more) := EnqueueAll(env, s1, ch, items, digesting);
    BalancedThen(s0, s1, s', out, more, x, multiset{}, These(ch, x, items));
    hide Waits, Set;
    assert multiset{} + These(ch, x, items) == These(ch, x, items);
  }

  lemma {:induction false} SameWaiting(s: Rules, ch: Id, c: Turn, x: Id)
    requires ch in s.turns && Waiting(c) == Waiting(s.turns[ch])
    ensures Waits(Set(s, ch, c), x) == Waits(s, x)
  {
    SetWaits(s, ch, c, x);
  }

  lemma {:induction false} WaitGone(c: Turn, wait: Option<Wait>)
    ensures Waiting(c.(wait := wait)) == Waiting(c)
  {
  }

  lemma {:induction false} ReleaseWaitBalanced(env: Env, s: Rules, ch: Id, x: Id)
    ensures var (s', out) := ReleaseWait(env, s, ch); Balanced(s, s', out, x, multiset{})
  {
    hide Balanced, Light, EnqueueAll, ArmSettle, Ensure, Waits, Numbers, Waiting;
    var s1 := Ensure(s, ch);
    LightEnsure(s, ch);
    LightBalanced(s, s1, ch, [], x);
    var c := s1.turns[ch].(wait := None);
    var s2 := Set(s1, ch, c);
    WaitGone(s1.turns[ch], None);
    SameWaiting(s1, ch, c, x);
    SaysNothing();
    BalancedSame(s1, s2, [], x);
    BalancedNext(s, s1, s2, [], x);
    if s.settings.summaries {
      LightArm(s2, ch);
      LightBalanced(s2, ArmSettle(s2, ch).0, ch, ArmSettle(s2, ch).1, x);
      BalancedNext(s, s2, ArmSettle(s2, ch).0, ArmSettle(s2, ch).1, x);
    } else {
      SetHas(s1, ch, c);
      var s3 := Set(s2, ch, s2.turns[ch].(pending := []));
      BalancedSame(s3, s3, [], x);
      RequeuedBalanced(env, s2, s3, ch, false, [], x);
      var (s', out) := EnqueueAll(env, s3, ch, s2.turns[ch].pending, false);
      NothingBefore(out);
      BalancedNext(s, s2, s', out, x);
    }
  }

  lemma {:induction false} SaysNothing()
    ensures Numberless([])
  {
  }

  lemma {:induction false} NoneTwice()
    ensures var none: multiset<nat> := multiset{}; none + none == none
  {
  }

  lemma {:induction false} BalancedNext(s: Rules, s1: Rules, s2: Rules, out: seq<Action>, x: Id)
    requires Balanced(s, s1, [], x, multiset{}) && Balanced(s1, s2, out, x, multiset{})
    ensures Balanced(s, s2, out, x, multiset{})
  {
    hide Balanced;
    BalancedThen(s, s1, s2, [], out, x, multiset{}, multiset{});
    NothingBefore(out);
    NoneTwice();
  }

  lemma {:induction false} BalancedBoth(s: Rules, s1: Rules, s2: Rules, out: seq<Action>, more: seq<Action>, x: Id)
    requires Balanced(s, s1, out, x, multiset{}) && Balanced(s1, s2, more, x, multiset{})
    ensures Balanced(s, s2, out + more, x, multiset{})
  {
    hide Balanced;
    BalancedThen(s, s1, s2, out, more, x, multiset{}, multiset{});
    NoneTwice();
  }

  // ---- Catching up, closing --------------------------------------------------

  /** The channel's waiting decisions come back, and none waits any more. */
  lemma {:induction false} CaughtUp(s: Rules, ch: Id, x: Id)
    ensures var (s', ds, _) := CatchUp(s, ch);
            && Waits(s, x) == Waits(s', x) + These(ch, x, ds)
            && ch in s'.turns && Waiting(s'.turns[ch]) == []
  {
    hide Light, DropHeld, Ids, Waiting;
    var s0 := Renamed(Renamed(s));
    LightDropHeld(s0, ch);
    var s1 := DropHeld(s0, ch).0;
    LightWaits(s0, s1, ch, [], x);
    CancelWaits(s1.turns[ch].(voiced := |s1.turns[ch].prose|), s.nextGen + 1, s.nextGen + 2);
    SetWaits(s1, ch, Cancel(s1.turns[ch].(voiced := |s1.turns[ch].prose|), s.nextGen + 1, s.nextGen + 2), x);
    NothingWaits();
  }

  lemma {:induction false} CancelWaits(c: Turn, gen: nat, settle: nat)
    ensures Waiting(Cancel(c, gen, settle)) == []
  {
  }

  /** Waiting decisions that leave and are dropped, or spoken, balance. */
  lemma {:induction false} DroppedBalanced(s: Rules, s': Rules, ch: Id, ds: seq<Decision>, x: Id)
    requires Waits(s, x) == Waits(s', x) + These(ch, x, ds)
    ensures Balanced(s, s', Cancelling(ch, ds), x, multiset{})
  {
    hide Waits, Numbers, Cancelling, Ids;
    DroppedNumbers(ch, ds, x);
  }

  lemma {:induction false} SpokenBalanced(env: Env, s: Rules, s': Rules, s1: Rules, ch: Id, ds: seq<Decision>, x: Id)
    requires Waits(s, x) == Waits(s', x) + These(ch, x, ds)
    ensures Balanced(s, s', SayDecisions(env, s1, ch, ds), x, multiset{})
  {
    hide Waits, Numbers, SayDecisions, Ids;
    SaidNumbers(env, s1, ch, ds, x);
  }

  lemma {:induction false} WipeNumberless(ch: Id, resume: bool)
    ensures Numberless([Wipe(ch, resume)])
  {
  }

  lemma {:induction false} TurnStartBalanced(s: Rules, ch: Id, turn: Option<string>, t: Option<int>, x: Id)
    ensures var (s', out) := TurnStart(s, ch, turn, t); Balanced(s, s', out, x, multiset{})
  {
    hide Light, DropHeld, Ids, Numbers, Balanced, IsStale, Retire, Waiting;
    if IsStale(s, ch, turn, t) {
      SaysNothing();
      BalancedSame(s, s, [], x);
    } else {
      var s0 := Renamed(Renamed(s));
      LightDropHeld(s0, ch);
      var s1 := DropHeld(s0, ch).0;
      LightWaits(s0, s1, ch, [], x);
      var c := s1.turns[ch];
      var s' := TurnStart(s, ch, turn, t).0;
      StartWaits(s', ch);
      SetWaits(s1, ch, s'.turns[ch], x);
      NothingWaits();
      hide Waits, TurnStart;
      DroppedBalanced(s, s', ch, Waiting(c), x);
      WipeNumberless(ch, true);
      BalancedSame(s', s', [Wipe(ch, true)], x);
      BalancedBoth(s, s', s', Cancelling(ch, Waiting(c)), [Wipe(ch, true)], x);
    }
  }

  lemma {:induction false} StartWaits(s: Rules, ch: Id)
    requires ch in s.turns && s.turns[ch].pending == [] && s.turns[ch].held == None
    ensures Waiting(s.turns[ch]) == []
  {
  }

  lemma {:induction false} SettledWaits(c: Turn, skip: bool)
    ensures Waiting(Settled(c)) == Waiting(c) && Waiting(c.(skipReply := skip)) == Waiting(c)
    ensures Waiting(c.(awaiting := false)) == Waiting(c)
  {
  }

  /** A minor change of the turn, then the catch-up, its decisions dropped. */
  lemma {:induction false} CaughtDropped(s: Rules, ch: Id, c: Turn, x: Id)
    requires Waiting(c) == Waiting(Ensure(s, ch).turns[ch])
    ensures var (s', ds, _) := CatchUp(Set(Ensure(s, ch), ch, c), ch);
            Balanced(s, s', Cancelling(ch, ds), x, multiset{})
  {
    hide CatchUp, Waits, Cancelling, Light, Balanced, These;
    var s1 := Ensure(s, ch);
    var s2 := Set(s1, ch, c);
    LightEnsure(s, ch);
    LightWaits(s, s1, ch, [], x);
    SameWaiting(s1, ch, c, x);
    CaughtUp(s2, ch, x);
    var (s', ds, _) := CatchUp(s2, ch);
    DroppedBalanced(s, s', ch, ds, x);
  }

  lemma {:induction false} AnsweredBalanced(s: Rules, ch: Id, x: Id)
    ensures var (s', out) := Answered(s, ch); Balanced(s, s', out, x, multiset{})
  {
    hide CatchUp, Cancelling, Balanced, Ensure, Settled, Waiting, Waits;
    var s1 := Ensure(s, ch);
    SettledWaits(s1.turns[ch], false);
    CaughtDropped(s, ch, Settled(s1.turns[ch]), x);
    var (s2, ds, _) := CatchUp(Set(s1, ch, Settled(s1.turns[ch])), ch);
    WipeNumberless(ch, false);
    BalancedSame(s2, s2, [Wipe(ch, false)], x);
    BalancedBoth(s, s2, s2, Cancelling(ch, ds), [Wipe(ch, false)], x);
  }

  lemma {:induction false} StopBalanced(s: Rules, chs: seq<Id>, x: Id)
    ensures var (s', out) := StopAll(s, chs); Balanced(s, s', out, x, multiset{})
    decreases |chs|
  {
    hide CatchUp, Cancelling, Balanced, Ensure, Waiting, Waits;
    if chs == [] {
      SaysNothing();
      BalancedSame(s, s, [], x);
    } else {
      var s1 := Ensure(s, chs[0]);
      var c := s1.turns[chs[0]].(awaiting := false);
      SettledWaits(s1.turns[chs[0]], false);
      CaughtDropped(s, chs[0], c, x);
      var (s2, ds, _) := CatchUp(Set(s1, chs[0], c), chs[0]);
      StopBalanced(s2, chs[1..], x);
      BalancedBoth(s, s2, StopAll(s2, chs[1..]).0, Cancelling(chs[0], ds), StopAll(s2, chs[1..]).1, x);
    }
  }

  lemma {:induction false} FlushBalanced(env: Env, s: Rules, ch: Id, x: Id)
    ensures var (s', out) := Flush(env, s, ch); Balanced(s, s', out, x, multiset{})
  {
    hide CatchUp, SayDecisions, Balanced, Waiting, Waits, These;
    if ch in s.turns {
      var c := s.turns[ch].(skipReply := true);
      SettledWaits(s.turns[ch], true);
      SameWaiting(s, ch, c, x);
      CaughtUp(Set(s, ch, c), ch, x);
      var (s1, ds, _) := CatchUp(Set(s, ch, c), ch);
      SpokenBalanced(env, s, s1, s1, ch, ds, x);
    } else {
      SaysNothing();
      BalancedSame(s, s, [], x);
    }
  }

  /** A flush of a session not being read: also when it reports nothing flushed, no decision waits or is lost. */
  lemma {:induction false} FlushReadyBalanced(env: Env, s: Rules, ch: Id, queued: bool, x: Id)
    ensures var (s', out, _) := FlushReady(env, s, ch, queued); Balanced(s, s', out, x, multiset{})
  {
    hide CatchUp, SayDecisions, Balanced, Waiting, Waits, Ensure, These;
    if ch in s.turns && s.turns[ch].ended {
      CaughtUp(s, ch, x);
      var (s1, ds, any) := CatchUp(s, ch);
      AnyDecisions(s, ch);
      if any || queued {
        Existing(s1, ch);
        var c := s1.turns[ch].(skipReply := true);
        SettledWaits(s1.turns[ch], true);
        SameWaiting(s1, ch, c, x);
        SpokenBalanced(env, s, Set(s1, ch, c), s1, ch, ds, x);
      } else {
        NoneOf(ch, x);
        SaysNothing();
        BalancedSame(s, s1, [], x);
      }
    } else {
      SaysNothing();
      BalancedSame(s, s, [], x);
    }
  }

  lemma {:induction false} AnyDecisions(s: Rules, ch: Id)
    ensures !CatchUp(s, ch).2 ==> CatchUp(s, ch).1 == []
  {
    hide DropHeld, Waiting;
  }

  lemma {:induction false} NoneOf(ch: Id, x: Id)
    ensures These(ch, x, []) == multiset{}
  {
  }

  lemma {:induction false} CloseBalanced(s: Rules, ch: Id, x: Id)
    ensures var (s', out) := Close(s, ch); Balanced(s, s', out, x, multiset{})
  {
    hide Cancelling, Balanced, Waiting, Ids;
    if ch in s.turns {
      DroppedBalanced(s, Close(s, ch).0, ch, Waiting(s.turns[ch]), x);
    } else {
      SaysNothing();
      BalancedSame(s, s, [], x);
    }
  }

  // ---- Summaries -------------------------------------------------------------

  /** Landing touches no turn and reads no decision. */
  ghost predicate Landing(s: Rules, s': Rules, out: seq<Action>) {
    s' == s.(parked := s'.parked, watched := s'.watched, serveSeq := s'.serveSeq) && Numberless(out)
  }

  lemma {:induction false} ApplyNumberless(env: Env, s: Rules, r: Release)
    ensures Numberless(Apply(env, s, r))
  {
  }

  lemma {:induction false} ServeLands(env: Env, s: Rules)
    ensures Landing(s, Serve(env, s).0, Serve(env, s).1)
    decreases s.parked.Keys
  {
    hide Apply;
    if s.serveSeq in s.parked {
      var r := s.parked[s.serveSeq];
      var s1 := s.(parked := s.parked - {s.serveSeq}, serveSeq := s.serveSeq + 1);
      ApplyNumberless(env, s1, r);
      ServeLands(env, s1);
    }
  }

  lemma {:induction false} LandLands(env: Env, s: Rules, slot: Option<nat>, r: Release)
    ensures Landing(s, Land(env, s, slot, r).0, Land(env, s, slot, r).1)
  {
    hide Apply, Serve;
    ApplyNumberless(env, s, r);
    if slot.Some? {
      ServeLands(env, s.(watched := s.watched - {slot.value}, parked := s.parked[slot.value := r]));
    }
  }

  lemma {:induction false} LandBalanced(s: Rules, s': Rules, out: seq<Action>, x: Id)
    requires Landing(s, s', out)
    ensures Balanced(s, s', out, x, multiset{})
  {
    hide Balanced;
    BalancedSame(s, s', out, x);
  }

  lemma {:induction false} RawNumberless(env: Env, s: Rules, ch: Id, chunks: seq<string>)
    ensures Numberless(SayRaw(env, s, ch, chunks))
  {
    hide SayEach, Say;
    EachPlain(env, s, ch, "", chunks);
    SayPlain(env, s, ch, JoinSpace(chunks), Prose, chunks);
    PlainNumberless(SayRaw(env, s, ch, chunks));
  }

  lemma {:induction false} VoicedWaits(c: Turn, token: nat, n: nat)
    ensures Waiting(c.(voiced := |c.prose|)) == Waiting(c)
    ensures Waiting(c.(lastToken := token, inflight := n)) == Waiting(c)
  {
  }

  lemma {:induction false} DispatchBalanced(s: Rules, ch: Id, gen: nat, text: string, leadin: bool, x: Id)
    requires ch in s.turns
    ensures Balanced(s, Dispatch(s, ch, gen, text, leadin).0, Dispatch(s, ch, gen, text, leadin).1, x, multiset{})
  {
    hide Balanced, Waiting, Waits;
    var s' := Dispatch(s, ch, gen, text, leadin).0;
    var c := s.turns[ch].(lastToken := s.nextToken + 1, inflight := s.turns[ch].inflight + 1);
    VoicedWaits(s.turns[ch], s.nextToken + 1, s.turns[ch].inflight + 1);
    SameWaiting(s, ch, c, x);
    SameTurns(Set(s, ch, c), s', x);
    BalancedSame(s, s', Dispatch(s, ch, gen, text, leadin).1, x);
  }

  lemma {:induction false} SameTurns(s: Rules, s': Rules, x: Id)
    requires s'.turns == s.turns
    ensures Waits(s', x) == Waits(s, x)
  {
    hide Waiting, Ids;
  }

  /** A short turn goes through the reorder buffer. */
  function ShortTurn(env: Env, s: Rules, ch: Id, gen: nat, text: string): Out {
    var (s2, out) := Land(env, Alloc(s), Some(s.nextSeq), Release(ch, gen, text, false, None));
    (s2, [Slotted(Ticket(s.nextSeq, ch, gen, text))] + out)
  }

  lemma {:induction false} ShortBalanced(env: Env, s: Rules, ch: Id, gen: nat, text: string, x: Id)
    ensures Balanced(s, ShortTurn(env, s, ch, gen, text).0, ShortTurn(env, s, ch, gen, text).1, x, multiset{})
  {
    hide Balanced, Land, Waits;
    LandLands(env, Alloc(s), Some(s.nextSeq), Release(ch, gen, text, false, None));
    SameTurns(s, ShortTurn(env, s, ch, gen, text).0, x);
    BalancedSame(s, ShortTurn(env, s, ch, gen, text).0, ShortTurn(env, s, ch, gen, text).1, x);
  }

  lemma {:induction false} SummarizingBalanced(env: Env, s: Rules, ch: Id, leadin: bool, focused: Option<Id>, x: Id)
    ensures var (s', out, _) := Summarizing(env, s, ch, leadin, focused); Balanced(s, s', out, x, multiset{})
  {
    hide Balanced, Waiting, Waits, HoldKept, FlushProse, SayRaw, Land, Dispatch, Ensure, JoinSpace, Kept, Light;
    var s0 := Ensure(s, ch);
    var c := s0.turns[ch];
    LightEnsure(s, ch);
    LightBalanced(s, s0, ch, [], x);
    SaysNothing();
    if !s.settings.summaries {
      LightHoldKept(s0, ch);
      LightAfter(s, s0, HoldKept(s0, ch), ch, []);
      LightBalanced(s, HoldKept(s0, ch), ch, [], x);
      var flushed := FlushProse(env, HoldKept(s0, ch), ch);
      LightFlush(env, HoldKept(s0, ch), ch);
      LightAfter(s, HoldKept(s0, ch), flushed.0, ch, flushed.1);
      LightBalanced(s, flushed.0, ch, flushed.1, x);
    } else {
      var chunks := if c.voiced <= |c.prose| then c.prose[c.voiced..] else [];
      var text := Trim(JoinSpace(chunks));
      var s1 := Set(s0, ch, c.(voiced := |c.prose|));
      VoicedWaits(c, 0, 0);
      SameWaiting(s0, ch, c.(voiced := |c.prose|), x);
      BalancedSame(s0, s1, [], x);
      BalancedNext(s, s0, s1, [], x);
      RawNumberless(env, s1, ch, chunks);
      BalancedSame(s1, s1, SayRaw(env, s1, ch, chunks), x);
      BalancedNext(s, s1, s1, SayRaw(env, s1, ch, chunks), x);
      ShortBalanced(env, s1, ch, c.gen, text, x);
      BalancedNext(s, s1, ShortTurn(env, s1, ch, c.gen, text).0, ShortTurn(env, s1, ch, c.gen, text).1, x);
      SetHas(s0, ch, c.(voiced := |c.prose|));
      DispatchBalanced(s1, ch, c.gen, text, leadin, x);
      var d := Dispatch(s1, ch, c.gen, text, leadin);
      BalancedNext(s, s1, d.0, d.1, x);
    }
  }

  lemma {:induction false} DigestBalanced(env: Env, s: Rules, job: Job, summary: Option<string>, x: Id)
    ensures var (s', out) := DigestDone(env, s, job, summary); Balanced(s, s', out, x, multiset{})
  {
    hide Balanced, Waits, Land, SayDecisions, These, Delivered, HeldFor;
    var r := Release(job.channel, job.gen, job.text, job.leadin, summary);
    var s1, held := Delivered(s, job), HeldFor(s, job);
    DigestTaken(s, job, x);
    var landed := Land(env, s1, job.slot, r);
    LandLands(env, s1, job.slot, r);
    SameTurns(s1, landed.0, x);
    SpokenBalanced(env, s, landed.0, landed.0, job.channel, held, x);
    Aside(s, s1, landed.0, landed.1, SayDecisions(env, landed.0, job.channel, held), x);
  }

  /** A numberless output in front changes nothing. */
  lemma {:induction false} Aside(s: Rules, s1: Rules, s': Rules, out: seq<Action>, said: seq<Action>, x: Id)
    requires Landing(s1, s', out) && Balanced(s, s', said, x, multiset{})
    ensures Balanced(s, s', out + said, x, multiset{})
  {
    NumbersAdd(out, said, x);
    NoNumbers(out, x);
    hide Waits, Numbers;
  }

  lemma {:induction false} DigestTaken(s: Rules, job: Job, x: Id)
    ensures Waits(s, x) == Waits(Delivered(s, job), x) + These(job.channel, x, HeldFor(s, job))
  {
    hide Ids;
    if job.channel in s.turns {
      var c := s.turns[job.channel];
      var c' := Delivered(s, job).turns[job.channel];
      TakenIds(c, c', HeldFor(s, job));
      SetWaits(s, job.channel, c', x);
      hide Waiting;
    } else {
      NothingWaits();
    }
  }

  lemma {:induction false} TakenIds(c: Turn, c': Turn, held: seq<Decision>)
    requires c'.pending == c.pending
    requires if c.held.Some? && c'.held == None then held == c.held.value.1 else c'.held == c.held && held == []
    ensures Ids(Waiting(c)) == Ids(Waiting(c')) + Ids(held)
  {
    NothingWaits();
    if c.held.Some? && c'.held == None {
      IdsAdd(c.pending, held);
      assert Waiting(c') == c.pending;
    }
    hide Ids;
  }

  lemma {:induction false} CapTaken(s: Rules, ch: Id, x: Id)
    requires ch in s.turns && s.turns[ch].held.Some?
    ensures Waits(s, x) == Waits(Set(s, ch, s.turns[ch].(held := None)), x) + These(ch, x, s.turns[ch].held.value.1)
  {
    var c := s.turns[ch];
    IdsAdd(c.pending, c.held.value.1);
    IdsAdd(c.pending, []);
    NothingWaits();
  }

  lemma {:induction false} SettleBalanced(env: Env, s: Rules, ch: Id, gen: nat, focused: Option<Id>, x: Id)
    ensures var (s', out) := FireSettle(env, s, ch, gen, focused); Balanced(s, s', out, x, multiset{})
  {
    hide Balanced, Waits, Summarizing, EnqueueAll, Waiting;
    SaysNothing();
    BalancedSame(s, s, [], x);
    if !(ch !in s.turns || s.turns[ch].settleGen != gen || !s.turns[ch].settleArmed) {
      var c := s.turns[ch].(settleArmed := false);
      var s1 := Set(s, ch, c);
      UnarmedWaits(s.turns[ch]);
      SameWaiting(s, ch, c, x);
      BalancedSame(s, s1, [], x);
      if s.turns[ch].wait == None {
        var s2 := Set(s1, ch, s1.turns[ch].(pending := []));
        var (s3, out, digesting) := Summarizing(env, s2, ch, s.turns[ch].pending != [], focused);
        SummarizingBalanced(env, s2, ch, s.turns[ch].pending != [], focused, x);
        RequeuedBalanced(env, s1, s3, ch, digesting, out, x);
        var (s', more) := EnqueueAll(env, s3, ch, s.turns[ch].pending, digesting);
        BalancedNext(s, s1, s', out + more, x);
      }
    }
  }

  lemma {:induction false} UnarmedWaits(c: Turn)
    ensures Waiting(c.(settleArmed := false)) == Waiting(c)
  {
  }

  lemma {:induction false} WatchdogBalanced(env: Env, s: Rules, k: nat, x: Id)
    requires k in s.watched
    ensures var s1 := s.(watched := s.watched - {k});
            var r := s.watched[k];
            Balanced(s, s1, [], x, multiset{}) && Balanced(s, Land(env, s1, Some(k), r).0, Land(env, s1, Some(k), r).1,
                x, multiset{})
  {
    hide Balanced, Land, Waits;
    var s1 := s.(watched := s.watched - {k});
    SaysNothing();
    SameTurns(s, s1, x);
    BalancedSame(s, s1, [], x);
    LandLands(env, s1, Some(k), s.watched[k]);
    LandBalanced(s1, Land(env, s1, Some(k), s.watched[k]).0, Land(env, s1, Some(k), s.watched[k]).1, x);
    BalancedNext(s, s1, Land(env, s1, Some(k), s.watched[k]).0, Land(env, s1, Some(k), s.watched[k]).1, x);
  }

  lemma {:induction false} FireBalanced(env: Env, s: Rules, timer: Timer, focused: Option<Id>, x: Id)
    ensures var (s', out) := Fire(env, s, timer, focused); Balanced(s, s', out, x, multiset{})
  {
    hide Balanced, Waits, FireSettle, SayDecisions, Land, ReleaseWait, ReleaseGap, Light, These;
    SaysNothing();
    BalancedSame(s, s, [], x);
    match timer
    case Settle(ch, gen) => SettleBalanced(env, s, ch, gen, focused, x);
    case HoldCap(ch, id) =>
      if ch in s.turns && s.turns[ch].held.Some? {
        CapTaken(s, ch, x);
        SpokenBalanced(env, s, Set(s, ch, s.turns[ch].(held := None)), s, ch, s.turns[ch].held.value.1, x);
      }
    case Watchdog(k) =>
      if k in s.watched {
        WatchdogBalanced(env, s, k, x);
      }
    case LeadIn(ch, gen) => ReleaseWaitBalanced(env, s, ch, x);
    case Gap(ch, gen) =>
      LightReleaseGap(env, s, ch);
      LightBalanced(s, ReleaseGap(env, s, ch).0, ch, ReleaseGap(env, s, ch).1, x);
  }

  // ---- Asking ----------------------------------------------------------------

  /** The decision just numbered, for its channel. */
  function Fresh(ch: Id, x: Id, id: nat): multiset<nat> {
    if x == ch then multiset{id} else multiset{}
  }

  lemma {:induction false} OneId(item: Decision)
    ensures Ids([item]) == multiset{item.id}
  {
    assert [item][1..] == [];
  }

  lemma {:induction false} PendingAddsId(c: Turn, item: Decision)
    ensures Ids(Waiting(c.(pending := c.pending + [item]))) == Ids(Waiting(c)) + multiset{item.id}
  {
    hide Waiting, Ids;
    var c' := c.(pending := c.pending + [item]);
    PendingIds(c);
    PendingIds(c');
    IdsAdd(c.pending, [item]);
    OneId(item);
    assert c'.(pending := []) == c.(pending := []);
    var rest := Ids(Waiting(c.(pending := [])));
    assert rest + (Ids(c.pending) + multiset{item.id}) == (rest + Ids(c.pending)) + multiset{item.id};
  }

  lemma {:induction false} PendingAdds(s: Rules, ch: Id, item: Decision, x: Id)
    requires ch in s.turns
    ensures var c := s.turns[ch];
            Waits(Set(s, ch, c.(pending := c.pending + [item])), x) == Waits(s, x) + Fresh(ch, x, item.id)
  {
    hide Waiting, Ids;
    PendingAddsId(s.turns[ch], item);
    SetWaits(s, ch, s.turns[ch].(pending := s.turns[ch].pending + [item]), x);
  }

  lemma {:induction false} PendedBalanced(s: Rules, ch: Id, item: Decision, x: Id)
    requires ch in s.turns
    ensures var c := s.turns[ch];
            Balanced(s, Set(s, ch, c.(pending := c.pending + [item])), [], x, Fresh(ch, x, item.id))
  {
    PendingAdds(s, ch, item, x);
    EmptyNumbers(x);
    hide Waits, Numbers, Set;
  }

  /** A step that numbers a decision, then one that does not. */
  lemma {:induction false} FreshThen(s: Rules, s1: Rules, s2: Rules, out: seq<Action>, more: seq<Action>, x: Id,
      id: multiset<nat>)
    requires Balanced(s, s1, out, x, id) && Balanced(s1, s2, more, x, multiset{})
    ensures Balanced(s, s2, out + more, x, id)
  {
    hide Balanced;
    BalancedThen(s, s1, s2, out, more, x, id, multiset{});
    NoneAdded(id);
  }

  lemma {:induction false} ThenFresh(s: Rules, s1: Rules, s2: Rules, out: seq<Action>, more: seq<Action>, x: Id,
      id: multiset<nat>)
    requires Balanced(s, s1, out, x, multiset{}) && Balanced(s1, s2, more, x, id)
    ensures Balanced(s, s2, out + more, x, id)
  {
    hide Balanced;
    BalancedThen(s, s1, s2, out, more, x, multiset{}, id);
    NoneAdded(id);
  }

  lemma {:induction false} NoneAdded(id: multiset<nat>)
    ensures id + multiset{} == id && multiset{} + id == id
  {
  }

  lemma {:induction false} ProseWaits(c: Turn, held: seq<(string, bool)>, hinted: bool)
    ensures Waiting(c.(heldProse := held)) == Waiting(c) && Waiting(c.(hinted := hinted)) == Waiting(c)
  {
  }

  /** A permission in final mode is read on its own: the held prose is put aside meanwhile. */
  lemma {:induction false} AsideBalanced(env: Env, s: Rules, ch: Id, item: Decision, x: Id)
    requires ch in s.turns
    ensures var c := s.turns[ch];
            var (s2, out) := Enqueue(env, Set(s, ch, c.(heldProse := [])), ch, item, false);
            var s3 := Ensure(s2, ch);
            Balanced(s, Set(s3, ch, s3.turns[ch].(heldProse := c.heldProse)), out, x, Fresh(ch, x, item.id))
  {
    hide Balanced, Enqueue, Ensure, Waits, Waiting, Light;
    var c := s.turns[ch];
    var s1 := Set(s, ch, c.(heldProse := []));
    ProseWaits(c, [], false);
    SameWaiting(s, ch, c.(heldProse := []), x);
    SaysNothing();
    BalancedSame(s, s1, [], x);
    EnqueueBalanced(env, s1, ch, item, false, x);
    var (s2, out) := Enqueue(env, s1, ch, item, false);
    ThenFresh(s, s1, s2, [], out, x, Fresh(ch, x, item.id));
    NothingBefore(out);
    var s3 := Ensure(s2, ch);
    LightEnsure(s2, ch);
    LightBalanced(s2, s3, ch, [], x);
    var s4 := Set(s3, ch, s3.turns[ch].(heldProse := c.heldProse));
    ProseWaits(s3.turns[ch], c.heldProse, false);
    SameWaiting(s3, ch, s3.turns[ch].(heldProse := c.heldProse), x);
    BalancedSame(s3, s4, [], x);
    BalancedNext(s2, s3, s4, [], x);
    FreshThen(s, s2, s4, out, [], x, Fresh(ch, x, item.id));
  }

  lemma {:induction false} DecidedBalanced(env: Env, s: Rules, ch: Id, ask: Ask, item: Decision, x: Id)
    requires ch in s.turns
    ensures var (s', out) := Decided(env, s, ch, ask, item); Balanced(s, s', out, x, Fresh(ch, x, item.id))
  {
    hide Balanced, Enqueue, WaitLeadIn, ArmSettle, Waits, Waiting, Light, Fresh;
    Existing(s, ch);
    var c := s.turns[ch];
    var s2 := Set(s, ch, c.(pending := c.pending + [item]));
    PendedBalanced(s, ch, item, x);
    var waited := WaitLeadIn(s2, ch, ask.leadInId);
    LightWait(s2, ch, ask.leadInId);
    LightBalanced(s2, waited.0, ch, waited.1, x);
    FreshThen(s, s2, waited.0, [], waited.1, x, Fresh(ch, x, item.id));
    NothingBefore(waited.1);
    if s.settings.summaries {
      var w := if ask.later then waited else (s2, []);
      LightArm(w.0, ch);
      LightBalanced(w.0, ArmSettle(w.0, ch).0, ch, ArmSettle(w.0, ch).1, x);
      FreshThen(s, w.0, ArmSettle(w.0, ch).0, w.1, ArmSettle(w.0, ch).1, x, Fresh(ch, x, item.id));
    } else if ask.later || c.wait.Some? {
    } else if ask.kind == Permission && s.settings.mode == Final {
      AsideBalanced(env, s, ch, item, x);
    } else {
      NowFresh(env, s, ch, item, x);
    }
  }

  lemma {:induction false} NowFresh(env: Env, s: Rules, ch: Id, item: Decision, x: Id)
    ensures Balanced(s, Enqueue(env, s, ch, item, false).0, Enqueue(env, s, ch, item, false).1, x,
        Fresh(ch, x, item.id))
  {
    hide Balanced, Enqueue;
    EnqueueBalanced(env, s, ch, item, false, x);
  }

  lemma {:induction false} AwaitsMinor(c: Turn, ask: Ask, readAll: bool, hinted: bool)
    ensures Minor(c, Awaits(c, ask, readAll)) && Minor(c, c.(awaiting := false)) && Minor(c, c.(hinted := hinted))
  {
    hide D.Valid, Shown;
  }

  /** Taking a number is a light step but for the number. */
  lemma {:induction false} TakeNumberIs(s: Rules, ch: Id, ask: Ask)
    ensures var s' := TakeNumber(s, ch, ask);
            && s'.nextDecision == s.nextDecision + 1 && Light(s, s'.(nextDecision := s.nextDecision), ch, [])
                && ch in s'.turns
  {
    hide Light, Minor, DropHeld, Awaits, DropsBefore, Hints;
    NonePlain();
    var s1 := Ensure(s, ch);
    var c1 := Awaits(s1.turns[ch], ask, !s.settings.questionStep);
    var s2 := Set(s1, ch, c1);
    AwaitsMinor(s1.turns[ch], ask, !s.settings.questionStep, false);
    LightSet(s, ch, c1, []);
    var d := if DropsBefore(s, s1.turns[ch], ask) then DropHeld(s2, ch).0 else s2;
    LightDropHeld(s2, ch);
    LightAfter(s, s2, DropHeld(s2, ch).0, ch, []);
    SetHas(s1, ch, c1);
    LightKeeps(s, d, ch, []);
    Existing(d, ch);
    AwaitsMinor(d.turns[ch], ask, true, Hints(d.turns[ch], ask, s));
    LightMinor(s, d, ch, d.turns[ch].(hinted := Hints(d.turns[ch], ask, s)), []);
  }

  /** What a light step keeps of the counters and the settings. */
  lemma {:induction false} LightKeeps(s: Rules, s': Rules, ch: Id, out: seq<Action>)
    requires Light(s, s', ch, out)
    ensures s' == s.(turns := s'.turns, nextGen := s'.nextGen) && s'.nextGen >= s.nextGen
  {
    hide TurnStep, AllPlain;
  }

  lemma {:induction false} ChimesPlain(s: Rules, c: Turn, ask: Ask)
    ensures AllPlain(AskChimes(s, c, ask))
  {
  }

  /** What an ask adds to the decisions of `x`: its number, if it takes one. */
  function AskedNow(s: Rules, s': Rules, ch: Id, x: Id): multiset<nat> {
    if x == ch && s'.nextDecision == s.nextDecision + 1 then multiset{s'.nextDecision} else multiset{}
  }

  lemma {:induction false} SameNumber(s: Rules, s': Rules, x: Id)
    requires s'.turns == s.turns
    ensures Balanced(s, s', [], x, multiset{})
  {
    hide Waiting, Ids;
    EmptyNumbers(x);
  }

  lemma {:induction false} TakeNumberBalanced(s: Rules, ch: Id, ask: Ask, x: Id)
    ensures Balanced(s, TakeNumber(s, ch, ask), [], x, multiset{})
  {
    hide Light, TakeNumber, Balanced;
    TakeNumberIs(s, ch, ask);
    var s' := TakeNumber(s, ch, ask);
    LightBalanced(s, s'.(nextDecision := s.nextDecision), ch, [], x);
    SameNumber(s'.(nextDecision := s.nextDecision), s', x);
    BalancedNext(s, s'.(nextDecision := s.nextDecision), s', [], x);
  }

  lemma {:induction false} EnqueueCounts(env: Env, s: Rules, ch: Id, item: Decision, digesting: bool)
    ensures Enqueue(env, s, ch, item, digesting).0.nextDecision == s.nextDecision
  {
    hide FlushProse, SayDecision, Light;
    LightFlush(env, Ensure(s, ch), ch);
    LightKeeps(Ensure(s, ch), FlushProse(env, Ensure(s, ch), ch).0, ch, FlushProse(env, Ensure(s, ch), ch).1);
  }

  lemma {:induction false} DecidedCounts(env: Env, s: Rules, ch: Id, ask: Ask, item: Decision)
    requires ch in s.turns
    ensures Decided(env, s, ch, ask, item).0.nextDecision == s.nextDecision
  {
    hide Enqueue, WaitLeadIn, ArmSettle, Light;
    Existing(s, ch);
    var c := s.turns[ch];
    var s2 := Set(s, ch, c.(pending := c.pending + [item]));
    LightWait(s2, ch, ask.leadInId);
    var waited := WaitLeadIn(s2, ch, ask.leadInId);
    LightKeeps(s2, waited.0, ch, waited.1);
    var w := if ask.later then waited else (s2, []);
    LightArm(w.0, ch);
    LightKeeps(w.0, ArmSettle(w.0, ch).0, ch, ArmSettle(w.0, ch).1);
    EnqueueCounts(env, s, ch, item, false);
    EnqueueCounts(env, Set(s, ch, c.(heldProse := [])), ch, item, false);
  }

  lemma {:induction false} AskBalanced(env: Env, s: Rules, ch: Id, ask: Ask, x: Id)
    ensures var (s', out) := AskFor(env, s, ch, ask); Balanced(s, s', out, x, AskedNow(s, s', ch, x))
  {
    hide Balanced, Light, ReleaseGap, Asked, KeptForLater, TakeNumber, Decided, AskChimes, Item, Minor;
    var first := ReleaseGap(env, s, ch);
    LightReleaseGap(env, s, ch);
    LightKeeps(s, first.0, ch, first.1);
    LightEnsure(first.0, ch);
    var s1 := Ensure(first.0, ch);
    LightThen(s, first.0, s1, ch, first.1, []);
    NothingBefore(first.1);
    var c := s1.turns[ch];
    if Asked(s1, c, ask) {
      AskedBalanced(env, s, s1, ch, ask, first.1, x);
    } else {
      LightBalanced(s, s1, ch, first.1, x);
      AwaitsMinor(c, ask, true, false);
      Existing(s1, ch);
      LightMinor(s, s1, ch, c.(awaiting := false), first.1);
      LightBalanced(s, Set(s1, ch, c.(awaiting := false)), ch, first.1, x);
    }
  }

  lemma {:induction false} AskedBalanced(env: Env, s: Rules, s1: Rules, ch: Id, ask: Ask, first: seq<Action>, x: Id)
    requires ch in s1.turns && Light(s, s1, ch, first) && s1.nextDecision == s.nextDecision
    ensures var c := s1.turns[ch]; var s2 := TakeNumber(s1, ch, ask);
            var (s', out) := Then((s2, first + AskChimes(s1, c, ask)), Decided(env, s2, ch, ask, Item(s1, c, ask)));
            Balanced(s, s', out, x, AskedNow(s, s', ch, x))
  {
    hide Balanced, Light, TakeNumber, Decided, AskChimes, AskText, Extras, Waits, Numbers;
    var c := s1.turns[ch];
    var s2 := TakeNumber(s1, ch, ask);
    var item := Item(s1, c, ask);
    var chimes := AskChimes(s1, c, ask);
    ChimesPlain(s1, c, ask);
    LightSaying(s1, ch, chimes);
    LightThen(s, s1, s1, ch, first, chimes);
    LightBalanced(s, s1, ch, first + chimes, x);
    TakeNumberIs(s1, ch, ask);
    TakeNumberBalanced(s1, ch, ask, x);
    BalancedBoth(s, s1, s2, first + chimes, [], x);
    NothingBefore(first + chimes);
    DecidedBalanced(env, s2, ch, ask, item, x);
    DecidedCounts(env, s2, ch, ask, item);
    var d := Decided(env, s2, ch, ask, item);
    ThenFresh(s, s2, d.0, first + chimes, d.1, x, Fresh(ch, x, item.id));
    assert item.id == s.nextDecision + 1;
  }

  lemma {:induction false} LeadInBalanced(env: Env, s: Rules, ch: Id, turn: Option<string>, text: string,
      id: Option<string>, t: Option<int>, x: Id)
    requires Sorted(s)
    ensures var (s', out) := TakeLeadIn(env, s, ch, turn, text, id, t); Balanced(s, s', out, x, multiset{})
  {
    hide Balanced, Light, ReadLeadIn, ReleaseWait, IsStale, Sorted;
    LightSame(s, ch);
    LightReadLeadIn(env, s, ch, turn, text, t);
    LightBalanced(s, s, ch, [], x);
    var read := ReadLeadIn(env, s, ch, turn, text, t);
    LightBalanced(s, read.0, ch, read.1, x);
    ReleaseWaitBalanced(env, s, ch, x);
    ReleaseWaitBalanced(env, read.0, ch, x);
    BalancedNext(s, s, ReleaseWait(env, s, ch).0, ReleaseWait(env, s, ch).1, x);
    NothingBefore(ReleaseWait(env, s, ch).1);
    BalancedBoth(s, read.0, ReleaseWait(env, read.0, ch).0, read.1, ReleaseWait(env, read.0, ch).1, x);
  }

  // ---- Every input -----------------------------------------------------------

  /** What `op` adds to the decisions of `x`. */
  function AskedBy(s: Rules, s': Rules, op: Op, x: Id): multiset<nat> {
    if op.OpAsk? then AskedNow(s, s', op.ch, x) else multiset{}
  }

  lemma {:induction false} StepBalanced(env: Env, s: Rules, op: Op, x: Id)
    requires Sorted(s)
    ensures var (s', out) := Step(env, s, op); Balanced(s, s', out, x, AskedBy(s, s', op, x))
  {
    hide Balanced, Light, Sorted, AskedNow, Stream, TakeLeadIn, Reply, TurnStart, TurnEnd, AskFor, ToolRuns, Answered,
        StopAll, Flush;
    hide FlushReady, TakeNewTurn, Close, SetMute, Fire, DigestDone;
    match op
    case OpStream(ch, turn, d, t) =>
      LightStream(env, s, ch, turn, d, t);
      LightBalanced(s, Stream(env, s, ch, turn, d, t).0, ch, Stream(env, s, ch, turn, d, t).1, x);
    case OpLeadIn(ch, turn, text, id, t) => LeadInBalanced(env, s, ch, turn, text, id, t, x);
    case OpReply(ch, turn, text, before, t) =>
      LightReply(env, s, ch, turn, text, before, t);
      LightBalanced(s, Reply(env, s, ch, turn, text, before, t), ch, [], x);
    case OpTurnStart(ch, turn, t) => TurnStartBalanced(s, ch, turn, t, x);
    case OpTurnEnd(ch, turn, t) =>
      LightTurnEnd(env, s, ch, turn, t);
      LightBalanced(s, TurnEnd(env, s, ch, turn, t).0, ch, TurnEnd(env, s, ch, turn, t).1, x);
    case OpAsk(ch, ask) => AskBalanced(env, s, ch, ask, x);
    case OpTool(ch, name, summary) =>
      LightTool(env, s, ch, name, summary);
      LightBalanced(s, ToolRuns(env, s, ch, name, summary).0, ch, ToolRuns(env, s, ch, name, summary).1, x);
    case OpAnswered(ch) => AnsweredBalanced(s, ch, x);
    case OpStopAll(chs) => StopBalanced(s, chs, x);
    case OpFlush(ch) => FlushBalanced(env, s, ch, x);
    case OpFlushReady(ch, queued) => FlushReadyBalanced(env, s, ch, queued, x);
    case OpNewTurn(ch) =>
      LightNewTurn(s, ch);
      LightBalanced(s, TakeNewTurn(s, ch).0, ch, [], x);
    case OpClose(ch) => CloseBalanced(s, ch, x);
    case OpMute(level) => MuteBalanced(s, level, x);
    case OpWhole(on) => SameNumber(s, s.(whole := on), x);
    case OpConfigure(settings) => SameNumber(s, s.(settings := settings), x);
    case OpFire(timer, focused) => FireBalanced(env, s, timer, focused, x);
    case OpDigest(job, recap) => DigestBalanced(env, s, job, recap, x);
  }

  lemma {:induction false} MuteBalanced(s: Rules, level: nat, x: Id)
    ensures Balanced(s, SetMute(s, level).0, SetMute(s, level).1, x, multiset{})
  {
    SameTurns(s, SetMute(s, level).0, x);
    BalancedSame(s, SetMute(s, level).0, SetMute(s, level).1, x);
  }

  // ---- Runs ------------------------------------------------------------------

  function Run(env: Env, s: Rules, ops: seq<Op>): Out
    decreases |ops|
  {
    if ops == [] then (s, []) else
      var first := Step(env, s, ops[0]);
      Then(first, Run(env, first.0, ops[1..]))
  }

  /** The numbers given to decisions of `x` during a run. */
  function Asks(env: Env, s: Rules, ops: seq<Op>, x: Id): multiset<nat>
    decreases |ops|
  {
    if ops == [] then multiset{} else
      var s1 := Step(env, s, ops[0]).0;
      AskedBy(s, s1, ops[0], x) + Asks(env, s1, ops[1..], x)
  }
}
