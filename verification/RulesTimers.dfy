/** Everything that waits has a timer that will let it go, and firing the timers ends. */
module RulesTimers {
  import opened Options
  import opened Wordings
  import D = DeltaOrders
  import opened RulesModel
  import opened RulesFrames
  import opened RulesDecisions

  /** The timers asked for in `out`. */
  function Arms(out: seq<Action>): set<Timer> {
    set a | a in out && a.Arm? :: a.timer
  }

  lemma {:induction false} ArmsAdd(a: seq<Action>, b: seq<Action>)
    ensures Arms(a + b) == Arms(a) + Arms(b)
  {
    forall t | t in Arms(a) + Arms(b) ensures t in Arms(a + b) {
      assert Arm(t) in a + b;
    }
  }

  /** What waits in a turn has its timer among `timers`: the settle window, the late lead-in, each
      decision held behind a summary, the deltas held for their order. */
  ghost predicate CoreAt(c: Turn, ch: Id, timers: set<Timer>) {
    && (c.settleArmed ==> Settle(ch, c.settleGen) in timers)
    && (c.wait.Some? ==> LeadIn(ch, c.wait.value.gen) in timers)
    && (c.held.Some? ==> forall d :: d in c.held.value.1 ==> HoldCap(ch, d.id) in timers)
    && (c.order.ahead != [] ==> Gap(ch, c.order.gen) in timers)
    && D.Valid(c.order)
  }

  /** Pending decisions wait for the settle window or for their lead-in. */
  predicate PendAt(c: Turn) {
    c.pending != [] ==> c.settleArmed || c.wait.Some?
  }

  ghost predicate Core(s: Rules, timers: set<Timer>) {
    && (forall ch :: ch in s.turns ==> CoreAt(s.turns[ch], ch, timers))
    && (forall k :: k in s.watched ==> Watchdog(k) in timers)
  }

  ghost predicate Pend(s: Rules) {
    forall ch :: ch in s.turns ==> PendAt(s.turns[ch])
  }

  ghost predicate Live(s: Rules, timers: set<Timer>) {
    Core(s, timers) && Pend(s)
  }

  lemma {:induction false} CoreMore(s: Rules, timers: set<Timer>, more: set<Timer>)
    requires Core(s, timers)
    ensures Core(s, timers + more)
  {
    hide D.Valid;
  }

  lemma {:induction false} CoreSorted(s: Rules, timers: set<Timer>)
    requires Core(s, timers)
    ensures Sorted(s)
  {
    hide D.Valid;
  }

  /** A change of one turn. */
  lemma {:induction false} CoreSet(s: Rules, ch: Id, c: Turn, timers: set<Timer>, more: set<Timer>)
    requires Core(s, timers) && CoreAt(c, ch, timers + more)
    ensures Core(Set(s, ch, c), timers + more)
  {
    hide CoreAt;
    CoreMore(s, timers, more);
  }

  lemma {:induction false} PendSet(s: Rules, ch: Id, c: Turn)
    requires Pend(s) && PendAt(c)
    ensures Pend(Set(s, ch, c))
  {
    hide PendAt;
  }

  /** All but `ch`'s turn; then that too. */
  ghost predicate CoreBut(s: Rules, ch: Id, timers: set<Timer>) {
    && (forall x :: x in s.turns && x != ch ==> CoreAt(s.turns[x], x, timers))
    && (forall k :: k in s.watched ==> Watchdog(k) in timers)
  }

  lemma {:induction false} CoreSetBut(s: Rules, ch: Id, c: Turn, timers: set<Timer>)
    requires CoreBut(s, ch, timers) && CoreAt(c, ch, timers)
    ensures Core(Set(s, ch, c), timers)
  {
    hide CoreAt;
  }

  lemma {:induction false} StepCore(c: Turn, c': Turn, ch: Id, low: nat, out: seq<Action>, timers: set<Timer>)
    requires CoreAt(c, ch, timers) && TurnStep(c, c', ch, low, out)
    ensures CoreAt(c', ch, timers + Arms(out))
    ensures PendAt(c) ==> PendAt(c')
  {
    hide D.Valid;
    if c'.settleArmed {
      ArmsIn(out, Settle(ch, c'.settleGen));
    }
    if c'.wait.Some? {
      ArmsIn(out, LeadIn(ch, c'.wait.value.gen));
    }
    ArmsIn(out, Gap(ch, c'.order.gen));
  }

  lemma {:induction false} ArmsIn(out: seq<Action>, t: Timer)
    ensures Arm(t) in out ==> t in Arms(out)
  {
  }

  lemma {:induction false} FreshCore(ch: Id, timers: set<Timer>)
    ensures CoreAt(Begun(0), ch, timers) && PendAt(Begun(0))
  {
  }

  lemma {:induction false} LightLive(s: Rules, s': Rules, ch: Id, out: seq<Action>, timers: set<Timer>)
    requires Core(s, timers) && Light(s, s', ch, out)
    ensures Core(s', timers + Arms(out))
    ensures Pend(s) ==> Pend(s')
  {
    hide CoreAt, PendAt, TurnStep, AllPlain, Arms;
    CoreMore(s, timers, Arms(out));
    if ch in s'.turns {
      FreshCore(ch, timers);
      StepCore(Was(s, ch), s'.turns[ch], ch, s.nextGen, out, timers);
    }
  }

  /** A light step that arms nothing. */
  lemma {:induction false} QuietLive(s: Rules, s': Rules, ch: Id, timers: set<Timer>)
    requires Core(s, timers) && Light(s, s', ch, [])
    ensures Core(s', timers)
    ensures Pend(s) ==> Pend(s')
  {
    hide Core, Light, Pend;
    LightLive(s, s', ch, [], timers);
    NoArms(timers);
  }

  lemma {:induction false} NoArms(timers: set<Timer>)
    ensures timers + Arms([]) == timers
  {
  }

  lemma {:induction false} ArmsThen(timers: set<Timer>, out: seq<Action>, more: seq<Action>)
    ensures timers + Arms(out) + Arms(more) == timers + Arms(out + more)
  {
    ArmsAdd(out, more);
    hide Arms;
  }

  // ---- Enqueueing ------------------------------------------------------------

  lemma {:induction false} HoldCore(c: Turn, ch: Id, item: Decision, timers: set<Timer>)
    requires CoreAt(c, ch, timers)
    ensures CoreAt(c.(held := Some((c.lastToken, (if c.held.Some? then c.held.value.1 else []) + [item]))), ch,
                   timers + Arms([Arm(HoldCap(ch, item.id))]))
    ensures PendAt(c) ==>
              PendAt(c.(held := Some((c.lastToken, (if c.held.Some? then c.held.value.1 else []) + [item]))))
  {
    hide D.Valid;
    ArmsIn([Arm(HoldCap(ch, item.id))], HoldCap(ch, item.id));
  }

  lemma {:induction false} SayingArms(env: Env, s: Rules, ch: Id, ds: seq<Decision>)
    ensures Arms(SayDecisions(env, s, ch, ds)) == {}
    ensures forall d: Decision :: Arms(SayDecision(env, s, ch, d)) == {}
  {
    if ds != [] {
      SayingArms(env, s, ch, ds[1..]);
      ArmsAdd(SayDecision(env, s, ch, ds[0]), SayDecisions(env, s, ch, ds[1..]));
    }
  }

  lemma {:induction false} EnqueueLive(env: Env, s: Rules, ch: Id, item: Decision, digesting: bool, timers: set<Timer>)
    requires Core(s, timers)
    ensures var (s', out) := Enqueue(env, s, ch, item, digesting);
            Core(s', timers + Arms(out)) && (Pend(s) ==> Pend(s'))
  {
    hide Core, Pend, Light, FlushProse, SayDecision, Arms, CoreAt, PendAt, Set;
    var s1 := Ensure(s, ch);
    var c := s1.turns[ch];
    LightEnsure(s, ch);
    QuietLive(s, s1, ch, timers);
    if digesting || c.inflight > 0 {
      CoreOf(s1, ch, timers);
      HoldCore(c, ch, item, timers);
      var c' := c.(held := Some((c.lastToken, (if c.held.Some? then c.held.value.1 else []) + [item])));
      CoreSet(s1, ch, c', timers, Arms([Arm(HoldCap(ch, item.id))]));
      if Pend(s) {
        PendOf(s1, ch);
        PendSet(s1, ch, c');
      }
    } else {
      LightFlush(env, s1, ch);
      var flushed := FlushProse(env, s1, ch);
      LightLive(s1, flushed.0, ch, flushed.1, timers);
      SayingArms(env, s1, ch, []);
      ArmsAdd(flushed.1, SayDecision(env, s1, ch, item));
      assert timers + Arms(flushed.1) == timers + (Arms(flushed.1) + {});
    }
  }

  lemma {:induction false} CoreOf(s: Rules, ch: Id, timers: set<Timer>)
    requires Core(s, timers) && ch in s.turns
    ensures CoreAt(s.turns[ch], ch, timers)
  {
    hide CoreAt;
  }

  lemma {:induction false} PendOf(s: Rules, ch: Id)
    requires Pend(s) && ch in s.turns
    ensures PendAt(s.turns[ch])
  {
    hide PendAt;
  }

  lemma {:induction false} EnqueueAllLive(env: Env, s: Rules, ch: Id, items: seq<Decision>, digesting: bool,
      timers: set<Timer>)
    requires Core(s, timers)
    ensures var (s', out) := EnqueueAll(env, s, ch, items, digesting);
            Core(s', timers + Arms(out)) && (Pend(s) ==> Pend(s'))
    decreases |items|
  {
    hide Core, Pend, Enqueue, Arms;
    if items == [] {
      NoArms(timers);
    } else {
      var first := Enqueue(env, s, ch, items[0], digesting);
      EnqueueLive(env, s, ch, items[0], digesting, timers);
      EnqueueAllLive(env, first.0, ch, items[1..], digesting, timers + Arms(first.1));
      ArmsThen(timers, first.1, EnqueueAll(env, first.0, ch, items[1..], digesting).1);
    }
  }

  lemma {:induction false} ReleaseWaitLive(env: Env, s: Rules, ch: Id, timers: set<Timer>)
    requires CoreBut(s, ch, timers) && OthersPend(s, ch)
    requires ch in s.turns ==> CoreAt(s.turns[ch].(wait := None), ch, timers)
    ensures var (s', out) := ReleaseWait(env, s, ch); Live(s', timers + Arms(out))
  {
    hide Core, Pend, Light, EnqueueAll, ArmSettle, Arms, CoreAt, PendAt, Set;
    var s1 := Ensure(s, ch);
    var c := s1.turns[ch].(wait := None);
    FreshWait(s, ch, timers);
    var s2 := Set(s1, ch, c);
    EnsureBut(s, ch, timers);
    CoreSetBut(s1, ch, c, timers);
    SetHas(s1, ch, c);
    if s.settings.summaries {
      LightArm(s2, ch);
      LightLive(s2, ArmSettle(s2, ch).0, ch, ArmSettle(s2, ch).1, timers);
      ArmedPend(s1, ch, c);
    } else {
      var c' := c.(pending := []);
      EmptiedCore(c, ch, timers);
      CoreSetBut(s1, ch, c', timers);
      SetTwice(s1, ch, c, c');
      EmptiedPend(s1, ch, c');
      var s3 := Set(s2, ch, s2.turns[ch].(pending := []));
      EnqueueAllLive(env, s3, ch, s2.turns[ch].pending, false, timers);
    }
  }

  /** Every channel but `ch` has its pending decisions timed. */
  ghost predicate OthersPend(s: Rules, ch: Id) {
    forall x :: x in s.turns && x != ch ==> PendAt(s.turns[x])
  }

  lemma {:induction false} FreshWait(s: Rules, ch: Id, timers: set<Timer>)
    requires ch in s.turns ==> CoreAt(s.turns[ch].(wait := None), ch, timers)
    ensures CoreAt(Ensure(s, ch).turns[ch].(wait := None), ch, timers)
  {
  }

  lemma {:induction false} EnsureBut(s: Rules, ch: Id, timers: set<Timer>)
    requires CoreBut(s, ch, timers) && OthersPend(s, ch)
    ensures CoreBut(Ensure(s, ch), ch, timers) && OthersPend(Ensure(s, ch), ch)
  {
    hide CoreAt, PendAt;
  }

  lemma {:induction false} EmptiedCore(c: Turn, ch: Id, timers: set<Timer>)
    requires CoreAt(c, ch, timers)
    ensures CoreAt(c.(pending := []), ch, timers)
  {
    hide D.Valid;
  }

  lemma {:induction false} EmptiedPend(s: Rules, ch: Id, c: Turn)
    requires OthersPend(s, ch) && c.pending == []
    ensures Pend(Set(s, ch, c))
  {
  }

  lemma {:induction false} SetTwice(s: Rules, ch: Id, c: Turn, c': Turn)
    ensures Set(Set(s, ch, c), ch, c') == Set(s, ch, c')
  {
  }

  lemma {:induction false} ArmedPend(s: Rules, ch: Id, c: Turn)
    requires OthersPend(s, ch)
    ensures Pend(ArmSettle(Set(s, ch, c), ch).0)
  {
  }

  // ---- Catching up, closing --------------------------------------------------

  /** A cancelled turn waits for nothing. */
  lemma {:induction false} CancelledCore(c: Turn, gen: nat, settle: nat, ch: Id, timers: set<Timer>)
    requires c.order.ahead == []
    ensures CoreAt(Cancel(c, gen, settle), ch, timers) && PendAt(Cancel(c, gen, settle))
  {
  }

  lemma {:induction false} RenamedLive(s: Rules, timers: set<Timer>)
    ensures Core(s, timers) ==> Core(Renamed(s), timers)
    ensures Pend(s) ==> Pend(Renamed(s))
  {
    hide CoreAt, PendAt;
  }

  lemma {:induction false} CatchUpLive(s: Rules, ch: Id, timers: set<Timer>)
    requires Live(s, timers)
    ensures Live(CatchUp(s, ch).0, timers)
  {
    hide Core, Pend, Light, DropHeld, Set, CoreAt, PendAt, Cancel, Waiting;
    RenamedLive(s, timers);
    RenamedLive(Renamed(s), timers);
    var s0 := Renamed(Renamed(s));
    LightDropHeld(s0, ch);
    var s1 := DropHeld(s0, ch).0;
    QuietLive(s0, s1, ch, timers);
    DroppedAhead(s0, ch);
    var c := s1.turns[ch].(voiced := |s1.turns[ch].prose|);
    CancelledCore(c, s.nextGen + 1, s.nextGen + 2, ch, timers);
    assert timers + {} == timers;
    CoreSet(s1, ch, Cancel(c, s.nextGen + 1, s.nextGen + 2), timers, {});
    PendSet(s1, ch, Cancel(c, s.nextGen + 1, s.nextGen + 2));
  }

  lemma {:induction false} TurnStartLive(s: Rules, ch: Id, turn: Option<string>, t: Option<int>, timers: set<Timer>)
    requires Live(s, timers)
    ensures Live(TurnStart(s, ch, turn, t).0, timers)
  {
    hide Core, Pend, Light, DropHeld, Set, CoreAt, PendAt, IsStale, Retire;
    if !IsStale(s, ch, turn, t) {
      RenamedLive(s, timers);
      RenamedLive(Renamed(s), timers);
      var s0 := Renamed(Renamed(s));
      LightDropHeld(s0, ch);
      var s1 := DropHeld(s0, ch).0;
      QuietLive(s0, s1, ch, timers);
      DroppedAhead(s0, ch);
      var c := s1.turns[ch];
      var c1 := Anew(c, turn, t);
      CancelledCore(c1, s.nextGen + 1, s.nextGen + 2, ch, timers);
      assert timers + {} == timers;
      CoreSet(s1, ch, Cancel(c1, s.nextGen + 1, s.nextGen + 2), timers, {});
      PendSet(s1, ch, Cancel(c1, s.nextGen + 1, s.nextGen + 2));
      hide Cancel;
    }
  }

  /** Fields that no timer is about. */
  ghost predicate SameWork(c: Turn, c': Turn) {
    c' == c.(awaiting := c'.awaiting, questions := c'.questions, skipReply := c'.skipReply, heldProse := c'.heldProse,
             hinted := c'.hinted, voiced := c'.voiced, lastToken := c'.lastToken, inflight := c'.inflight)
  }

  lemma {:induction false} SameWorkLive(s: Rules, ch: Id, c: Turn, timers: set<Timer>)
    requires Live(s, timers) && ch in s.turns && SameWork(s.turns[ch], c)
    ensures Live(Set(s, ch, c), timers)
  {
    hide Core, Pend, Set, D.Valid;
    CoreOf(s, ch, timers);
    PendOf(s, ch);
    SameWorkAt(s.turns[ch], c, ch, timers);
    CoreSet(s, ch, c, timers, {});
    assert timers + {} == timers;
    PendSet(s, ch, c);
  }

  lemma {:induction false} SameWorkAt(c: Turn, c': Turn, ch: Id, timers: set<Timer>)
    requires CoreAt(c, ch, timers) && PendAt(c) && SameWork(c, c')
    ensures CoreAt(c', ch, timers + {}) && PendAt(c')
  {
    hide D.Valid;
  }

  lemma {:induction false} EnsureLive(s: Rules, ch: Id, timers: set<Timer>)
    requires Live(s, timers)
    ensures Live(Ensure(s, ch), timers)
  {
    hide Core, Pend, Light, Ensure;
    LightEnsure(s, ch);
    QuietLive(s, Ensure(s, ch), ch, timers);
  }

  lemma {:induction false} Works(c: Turn, skip: bool)
    ensures SameWork(c, Settled(c)) && SameWork(c, c.(awaiting := false)) && SameWork(c, c.(skipReply := skip))
  {
  }

  lemma {:induction false} AnsweredLive(s: Rules, ch: Id, timers: set<Timer>)
    requires Live(s, timers)
    ensures Live(Answered(s, ch).0, timers)
  {
    hide Live, Set, Ensure, CatchUp, Settled, SameWork;
    EnsureLive(s, ch, timers);
    var s1 := Ensure(s, ch);
    Works(s1.turns[ch], false);
    SameWorkLive(s1, ch, Settled(s1.turns[ch]), timers);
    CatchUpLive(Set(s1, ch, Settled(s1.turns[ch])), ch, timers);
  }

  lemma {:induction false} StopLive(s: Rules, chs: seq<Id>, timers: set<Timer>)
    requires Live(s, timers)
    ensures Live(StopAll(s, chs).0, timers)
    decreases |chs|
  {
    hide Live, Set, Ensure, CatchUp, SameWork;
    if chs != [] {
      EnsureLive(s, chs[0], timers);
      var s1 := Ensure(s, chs[0]);
      Works(s1.turns[chs[0]], false);
      SameWorkLive(s1, chs[0], s1.turns[chs[0]].(awaiting := false), timers);
      CatchUpLive(Set(s1, chs[0], s1.turns[chs[0]].(awaiting := false)), chs[0], timers);
      StopLive(CatchUp(Set(s1, chs[0], s1.turns[chs[0]].(awaiting := false)), chs[0]).0, chs[1..], timers);
    }
  }

  lemma {:induction false} FlushLive(env: Env, s: Rules, ch: Id, queued: bool, timers: set<Timer>)
    requires Live(s, timers)
    ensures Live(Flush(env, s, ch).0, timers) && Live(FlushReady(env, s, ch, queued).0, timers)
  {
    hide Live, Set, Ensure, CatchUp, SameWork, SayDecisions;
    if ch in s.turns {
      Works(s.turns[ch], true);
      SameWorkLive(s, ch, s.turns[ch].(skipReply := true), timers);
      CatchUpLive(Set(s, ch, s.turns[ch].(skipReply := true)), ch, timers);
      CatchUpLive(s, ch, timers);
      var s1 := CatchUp(s, ch).0;
      EnsureLive(s1, ch, timers);
      var s2 := Ensure(s1, ch);
      Works(s2.turns[ch], true);
      SameWorkLive(s2, ch, s2.turns[ch].(skipReply := true), timers);
    }
  }

  lemma {:induction false} CloseLive(s: Rules, ch: Id, timers: set<Timer>)
    requires Live(s, timers)
    ensures Live(Close(s, ch).0, timers)
  {
    hide CoreAt, PendAt;
  }

  // ---- Summaries -------------------------------------------------------------

  /** Landing only ever takes slots off the watch list. */
  lemma {:induction false} ServeWatched(env: Env, s: Rules)
    ensures Serve(env, s).0.watched == s.watched && Arms(Serve(env, s).1) == {}
    decreases s.parked.Keys
  {
    hide Apply;
    if s.serveSeq in s.parked {
      var r := s.parked[s.serveSeq];
      var s1 := s.(parked := s.parked - {s.serveSeq}, serveSeq := s.serveSeq + 1);
      var first := [Served(Ticket(s.serveSeq, r.channel, r.gen, r.text))] + Apply(env, s1, r);
      ApplyArms(env, s1, r);
      ArmsAdd([Served(Ticket(s.serveSeq, r.channel, r.gen, r.text))], Apply(env, s1, r));
      ServeWatched(env, s1);
      ArmsAdd(first, Serve(env, s1).1);
    }
  }

  lemma {:induction false} ApplyArms(env: Env, s: Rules, r: Release)
    ensures Arms(Apply(env, s, r)) == {}
  {
  }

  lemma {:induction false} LandLive(env: Env, s: Rules, slot: Option<nat>, r: Release, timers: set<Timer>)
    ensures var (s', out) := Land(env, s, slot, r);
            Arms(out) == {} && (Core(s, timers) ==> Core(s', timers)) && (Pend(s) ==> Pend(s'))
  {
    hide CoreAt, PendAt, Apply, Serve, Arms, Landing;
    LandLands(env, s, slot, r);
    LandSame(s, Land(env, s, slot, r).0, Land(env, s, slot, r).1);
    ApplyArms(env, s, r);
    NoArms({});
    if slot.Some? {
      ServeWatched(env, s.(watched := s.watched - {slot.value}, parked := s.parked[slot.value := r]));
    }
  }

  lemma {:induction false} LandSame(s: Rules, s': Rules, out: seq<Action>)
    requires Landing(s, s', out)
    ensures s'.turns == s.turns && s'.settings == s.settings && s'.nextDecision == s.nextDecision
  {
    hide Numberless;
  }

  lemma {:induction false} AllocLive(s: Rules, timers: set<Timer>)
    ensures Core(s, timers) ==> Core(Alloc(s), timers)
    ensures Pend(s) ==> Pend(Alloc(s))
  {
    hide CoreAt, PendAt;
  }

  lemma {:induction false} RawArms(env: Env, s: Rules, ch: Id, chunks: seq<string>)
    ensures Arms(SayRaw(env, s, ch, chunks)) == {}
  {
    hide SayEach;
    EachArms(env, s, ch, "", chunks);
  }

  lemma {:induction false} EachArms(env: Env, s: Rules, ch: Id, head: string, texts: seq<string>)
    ensures Arms(SayEach(env, s, ch, head, texts)) == {}
  {
    if texts != [] {
      EachArms(env, s, ch, head, texts[1..]);
      ArmsAdd(Say(env, s, ch, head + texts[0], None, None, Prose, [texts[0]]), SayEach(env, s, ch, head, texts[1..]));
    }
  }

  lemma {:induction false} DispatchLive(s: Rules, ch: Id, gen: nat, text: string, leadin: bool, timers: set<Timer>)
    requires Live(s, timers) && ch in s.turns
    ensures Live(Dispatch(s, ch, gen, text, leadin).0, timers + Arms(Dispatch(s, ch, gen, text, leadin).1))
  {
    hide Live, SameWork, CoreAt, PendAt, Set;
    var c := s.turns[ch].(lastToken := s.nextToken + 1, inflight := s.turns[ch].inflight + 1);
    TokenWork(s.turns[ch], s.nextToken + 1, s.turns[ch].inflight + 1);
    SameWorkLive(s, ch, c, timers);
    var s1 := Set(s, ch, c).(nextToken := s.nextToken + 1);
    var (s', out, _) := Dispatch(s, ch, gen, text, leadin);
    DispatchIs(s, ch, gen, text, leadin);
    WatchedLive(Set(s, ch, c), s', timers, Arms(out));
  }

  lemma {:induction false} TokenWork(c: Turn, token: nat, n: nat)
    ensures SameWork(c, c.(lastToken := token, inflight := n)) && SameWork(c, c.(voiced := |c.prose|))
  {
  }

  lemma {:induction false} DispatchIs(s: Rules, ch: Id, gen: nat, text: string, leadin: bool)
    requires ch in s.turns
    ensures var c := s.turns[ch].(lastToken := s.nextToken + 1, inflight := s.turns[ch].inflight + 1);
            var (s', out, _) := Dispatch(s, ch, gen, text, leadin);
            && s'.turns == Set(s, ch, c).turns
            && (forall k :: k in s'.watched ==> k in s.watched || Watchdog(k) in Arms(out))
  {
    var out := Dispatch(s, ch, gen, text, leadin).1;
    ArmsIn(out, Watchdog(s.nextSeq));
    if !leadin {
      assert out[1] == Arm(Watchdog(s.nextSeq));
    }
    hide Arms;
  }

  lemma {:induction false} WatchedLive(s: Rules, s': Rules, timers: set<Timer>, more: set<Timer>)
    requires Live(s, timers) && s'.turns == s.turns
    requires forall k :: k in s'.watched ==> k in s.watched || Watchdog(k) in more
    ensures Live(s', timers + more)
  {
    hide CoreAt, PendAt;
    CoreMore(s, timers, more);
  }

  lemma {:induction false} SummarizingLive(env: Env, s: Rules, ch: Id, leadin: bool, focused: Option<Id>,
      timers: set<Timer>)
    requires Live(s, timers)
    ensures var (s', out, _) := Summarizing(env, s, ch, leadin, focused); Live(s', timers + Arms(out))
  {
    hide Core, Pend, Set, HoldKept, FlushProse, SayRaw, Land, Dispatch, Ensure, JoinSpace, Kept, Light, Arms, SameWork;
    EnsureLive(s, ch, timers);
    var s0 := Ensure(s, ch);
    var c := s0.turns[ch];
    NoArms(timers);
    if !s.settings.summaries {
      LightHoldKept(s0, ch);
      QuietLive(s0, HoldKept(s0, ch), ch, timers);
      var flushed := FlushProse(env, HoldKept(s0, ch), ch);
      LightFlush(env, HoldKept(s0, ch), ch);
      LightLive(HoldKept(s0, ch), flushed.0, ch, flushed.1, timers);
    } else {
      var chunks := if c.voiced <= |c.prose| then c.prose[c.voiced..] else [];
      var text := Trim(JoinSpace(chunks));
      var s1 := Set(s0, ch, c.(voiced := |c.prose|));
      TokenWork(c, 0, 0);
      SameWorkLive(s0, ch, c.(voiced := |c.prose|), timers);
      RawArms(env, s1, ch, chunks);
      assert timers + {} == timers && timers + ({} + {}) == timers;
      AllocLive(s1, timers);
      var r := Release(ch, c.gen, text, false, None);
      LandLive(env, Alloc(s1), Some(s1.nextSeq), r, timers);
      ArmsAdd([Slotted(Ticket(s1.nextSeq, ch, c.gen, text))], Land(env, Alloc(s1), Some(s1.nextSeq), r).1);
      SlotArms(Ticket(s1.nextSeq, ch, c.gen, text));
      SetHas(s0, ch, c.(voiced := |c.prose|));
      DispatchLive(s1, ch, c.gen, text, leadin, timers);
    }
  }

  lemma {:induction false} SlotArms(t: Ticket)
    ensures Arms([Slotted(t)]) == {}
  {
  }

  lemma {:induction false} AnswerAt(c: Turn, owner: bool, gen: nat, ch: Id, timers: set<Timer>)
    requires CoreAt(c, ch, timers) && PendAt(c)
    ensures CoreAt(Answer(c, owner, gen), ch, timers + {}) && PendAt(Answer(c, owner, gen))
  {
    hide D.Valid;
  }

  lemma {:induction false} DeliveredLive(s: Rules, job: Job, timers: set<Timer>)
    requires Live(s, timers)
    ensures Live(Delivered(s, job), timers)
  {
    hide Core, Pend, CoreAt, PendAt, Set, Answer, Owns;
    if job.channel in s.turns {
      CoreOf(s, job.channel, timers);
      PendOf(s, job.channel);
      var c := Answer(s.turns[job.channel], Owns(s, job), job.gen);
      AnswerAt(s.turns[job.channel], Owns(s, job), job.gen, job.channel, timers);
      CoreSet(s, job.channel, c, timers, {});
      assert timers + {} == timers;
      PendSet(s, job.channel, c);
    }
  }

  lemma {:induction false} DigestLive(env: Env, s: Rules, job: Job, summary: Option<string>, timers: set<Timer>)
    requires Live(s, timers)
    ensures var (s', out) := DigestDone(env, s, job, summary); Live(s', timers) && Arms(out) == {}
  {
    hide Core, Pend, Delivered, Land, SayDecisions, HeldFor, Arms;
    DeliveredLive(s, job, timers);
    var r := Release(job.channel, job.gen, job.text, job.leadin, summary);
    LandLive(env, Delivered(s, job), job.slot, r, timers);
    var landed := Land(env, Delivered(s, job), job.slot, r);
    SayingArms(env, landed.0, job.channel, HeldFor(s, job));
    ArmsAdd(landed.1, SayDecisions(env, landed.0, job.channel, HeldFor(s, job)));
  }

  // ---- Asking ----------------------------------------------------------------

  lemma {:induction false} PendedCore(c: Turn, item: Decision, ch: Id, timers: set<Timer>)
    requires CoreAt(c, ch, timers)
    ensures CoreAt(c.(pending := c.pending + [item]), ch, timers)
  {
    hide D.Valid;
  }

  lemma {:induction false} SetPends(s: Rules, ch: Id, c: Turn)
    requires Pend(s)
    ensures OthersPend(Set(s, ch, c), ch)
  {
    hide PendAt;
  }

  /** A decision that goes behind its lead-in, or behind the settle window, is timed. */
  lemma {:induction false} WaitPends(s: Rules, ch: Id, id: Option<string>)
    requires ch in s.turns && OthersPend(s, ch)
    ensures Pend(WaitLeadIn(s, ch, id).0)
  {
  }

  lemma {:induction false} ArmPends(s: Rules, ch: Id)
    requires OthersPend(s, ch)
    ensures Pend(ArmSettle(s, ch).0)
  {
  }

  lemma {:induction false} PendsOthers(s: Rules, ch: Id)
    requires Pend(s)
    ensures OthersPend(s, ch)
  {
    hide PendAt;
  }

  lemma {:induction false} PendingLive(env: Env, s: Rules, ch: Id, ask: Ask, item: Decision, timers: set<Timer>)
    requires Live(s, timers) && ch in s.turns && (s.settings.summaries || ask.later || s.turns[ch].wait.Some?)
    ensures var (s', out) := Decided(env, s, ch, ask, item); Live(s', timers + Arms(out))
  {
    hide Core, Pend, OthersPend, Light, WaitLeadIn, ArmSettle, Set, Arms, CoreAt, Enqueue;
    Existing(s, ch);
    var c := s.turns[ch];
    var s2 := Set(s, ch, c.(pending := c.pending + [item]));
    CoreOf(s, ch, timers);
    PendedCore(c, item, ch, timers);
    assert timers + {} == timers;
    CoreSet(s, ch, c.(pending := c.pending + [item]), timers, {});
    SetPends(s, ch, c.(pending := c.pending + [item]));
    SetHas(s, ch, c.(pending := c.pending + [item]));
    var waited := WaitLeadIn(s2, ch, ask.leadInId);
    LightWait(s2, ch, ask.leadInId);
    LightLive(s2, waited.0, ch, waited.1, timers);
    WaitPends(s2, ch, ask.leadInId);
    if s.settings.summaries {
      var w := if ask.later then waited else (s2, []);
      NoArms(timers);
      PendsOthers(waited.0, ch);
      var armed := ArmSettle(w.0, ch);
      LightArm(w.0, ch);
      LightLive(w.0, armed.0, ch, armed.1, timers + Arms(w.1));
      ArmPends(w.0, ch);
      ArmsThen(timers, w.1, armed.1);
    }
  }

  lemma {:induction false} ProseWork(c: Turn, held: seq<(string, bool)>)
    ensures SameWork(c, c.(heldProse := held))
  {
  }

  lemma {:induction false} EnqueuedLive(env: Env, s: Rules, ch: Id, item: Decision, timers: set<Timer>)
    requires Live(s, timers)
    ensures var (s', out) := Enqueue(env, s, ch, item, false); Live(s', timers + Arms(out))
  {
    hide Core, Pend, Enqueue;
    EnqueueLive(env, s, ch, item, false, timers);
  }

  lemma {:induction false} AsideLive(env: Env, s: Rules, ch: Id, item: Decision, timers: set<Timer>)
    requires Live(s, timers) && ch in s.turns
    ensures var c := s.turns[ch];
            var (s2, out) := Enqueue(env, Set(s, ch, c.(heldProse := [])), ch, item, false);
            var s3 := Ensure(s2, ch);
            Live(Set(s3, ch, s3.turns[ch].(heldProse := c.heldProse)), timers + Arms(out))
  {
    hide Live, Enqueue, Ensure, Set, SameWork;
    var c := s.turns[ch];
    ProseWork(c, []);
    SameWorkLive(s, ch, c.(heldProse := []), timers);
    var s1 := Set(s, ch, c.(heldProse := []));
    EnqueuedLive(env, s1, ch, item, timers);
    var (s2, out) := Enqueue(env, s1, ch, item, false);
    EnsureLive(s2, ch, timers + Arms(out));
    var s3 := Ensure(s2, ch);
    ProseWork(s3.turns[ch], c.heldProse);
    SameWorkLive(s3, ch, s3.turns[ch].(heldProse := c.heldProse), timers + Arms(out));
  }

  lemma {:induction false} DecidedLive(env: Env, s: Rules, ch: Id, ask: Ask, item: Decision, timers: set<Timer>)
    requires Live(s, timers) && ch in s.turns
    ensures var (s', out) := Decided(env, s, ch, ask, item); Live(s', timers + Arms(out))
  {
    if s.settings.summaries || ask.later || s.turns[ch].wait.Some? {
      hide Live, Decided;
      PendingLive(env, s, ch, ask, item, timers);
    } else {
      hide Live, Enqueue, Set, WaitLeadIn, ArmSettle;
      Existing(s, ch);
      AsideLive(env, s, ch, item, timers);
      EnqueuedLive(env, s, ch, item, timers);
    }
  }

  lemma {:induction false} LightLives(s: Rules, s': Rules, ch: Id, out: seq<Action>, timers: set<Timer>)
    requires Live(s, timers) && Light(s, s', ch, out)
    ensures Live(s', timers + Arms(out))
  {
    hide Core, Pend, Light;
    LightLive(s, s', ch, out, timers);
  }

  lemma {:induction false} NumberLive(s: Rules, n: nat, timers: set<Timer>)
    requires Live(s, timers)
    ensures Live(s.(nextDecision := n), timers)
  {
    hide CoreAt, PendAt;
  }

  lemma {:induction false} AskLive(env: Env, s: Rules, ch: Id, ask: Ask, timers: set<Timer>)
    requires Live(s, timers)
    ensures var (s', out) := AskFor(env, s, ch, ask); Live(s', timers + Arms(out))
  {
    hide Live, Light, ReleaseGap, Asked, KeptForLater, TakeNumber, Decided, AskChimes, Item, Minor, Arms;
    var first := ReleaseGap(env, s, ch);
    LightReleaseGap(env, s, ch);
    LightEnsure(first.0, ch);
    var s1 := Ensure(first.0, ch);
    LightThen(s, first.0, s1, ch, first.1, []);
    NothingBefore(first.1);
    LightLives(s, s1, ch, first.1, timers);
    var c := s1.turns[ch];
    if Asked(s1, c, ask) {
      AskedLive(env, s, s1, ch, ask, first.1, timers);
    } else {
      AwaitsMinor(c, ask, true, false);
      Existing(s1, ch);
      LightMinor(s, s1, ch, c.(awaiting := false), first.1);
      LightLives(s, Set(s1, ch, c.(awaiting := false)), ch, first.1, timers);
    }
  }

  lemma {:induction false} AskedLive(env: Env, s: Rules, s1: Rules, ch: Id, ask: Ask, first: seq<Action>,
      timers: set<Timer>)
    requires ch in s1.turns && Light(s, s1, ch, first) && Live(s, timers)
    ensures var c := s1.turns[ch]; var s2 := TakeNumber(s1, ch, ask);
            var (s', out) := Then((s2, first + AskChimes(s1, c, ask)), Decided(env, s2, ch, ask, Item(s1, c, ask)));
            Live(s', timers + Arms(out))
  {
    hide Live, Light, TakeNumber, Decided, AskChimes, Item, Arms;
    var c := s1.turns[ch];
    var s2 := TakeNumber(s1, ch, ask);
    var chimes := AskChimes(s1, c, ask);
    ChimesPlain(s1, c, ask);
    LightSaying(s1, ch, chimes);
    LightThen(s, s1, s1, ch, first, chimes);
    TakeNumberIs(s1, ch, ask);
    LightThen(s, s1, s2.(nextDecision := s1.nextDecision), ch, first + chimes, []);
    NothingBefore(first + chimes);
    LightLives(s, s2.(nextDecision := s1.nextDecision), ch, first + chimes, timers);
    NumberLive(s2.(nextDecision := s1.nextDecision), s2.nextDecision, timers + Arms(first + chimes));
    DecidedLive(env, s2, ch, ask, Item(s1, c, ask), timers + Arms(first + chimes));
    ArmsThen(timers, first + chimes, Decided(env, s2, ch, ask, Item(s1, c, ask)).1);
  }

  lemma {:induction false} WaitGoneAt(c: Turn, ch: Id, timers: set<Timer>)
    requires CoreAt(c, ch, timers)
    ensures CoreAt(c.(wait := None), ch, timers)
  {
    hide D.Valid;
  }

  lemma {:induction false} LiveBut(s: Rules, ch: Id, timers: set<Timer>)
    requires Live(s, timers)
    ensures CoreBut(s, ch, timers) && OthersPend(s, ch)
    ensures ch in s.turns ==> CoreAt(s.turns[ch], ch, timers) && CoreAt(s.turns[ch].(wait := None), ch, timers)
  {
    hide PendAt, CoreAt;
    if ch in s.turns {
      WaitGoneAt(s.turns[ch], ch, timers);
    }
  }

  lemma {:induction false} WaitedLive(env: Env, s: Rules, ch: Id, timers: set<Timer>)
    requires Live(s, timers)
    ensures var (s', out) := ReleaseWait(env, s, ch); Live(s', timers + Arms(out))
  {
    hide Live, CoreBut, OthersPend, CoreAt, ReleaseWait;
    LiveBut(s, ch, timers);
    ReleaseWaitLive(env, s, ch, timers);
  }

  lemma {:induction false} LeadInLive(env: Env, s: Rules, ch: Id, turn: Option<string>, text: string,
      id: Option<string>, t: Option<int>,
                                      timers: set<Timer>)
    requires Live(s, timers) && Sorted(s)
    ensures var (s', out) := TakeLeadIn(env, s, ch, turn, text, id, t); Live(s', timers + Arms(out))
  {
    hide Live, Light, ReadLeadIn, ReleaseWait, IsStale, Sorted, Arms;
    NoArms(timers);
    LightReadLeadIn(env, s, ch, turn, text, t);
    var read := ReadLeadIn(env, s, ch, turn, text, t);
    LightLives(s, read.0, ch, read.1, timers);
    WaitedLive(env, s, ch, timers);
    WaitedLive(env, read.0, ch, timers + Arms(read.1));
    ArmsThen(timers, read.1, ReleaseWait(env, read.0, ch).1);
    NothingBefore(ReleaseWait(env, s, ch).1);
  }

  // ---- Firing ----------------------------------------------------------------

  /** `t` gone, what is not its own still has its timer. */
  lemma {:induction false} OthersKeep(s: Rules, ch: Id, timers: set<Timer>, t: Timer)
    requires Live(s, timers) && (t.Watchdog? || t.channel == ch)
    ensures forall x :: x in s.turns && (t.Watchdog? || x != ch) ==> CoreAt(s.turns[x], x, timers - {t})
    ensures forall k :: k in s.watched && t != Watchdog(k) ==> Watchdog(k) in timers - {t}
  {
    hide D.Valid, PendAt;
  }

  lemma {:induction false} SettleGone(c: Turn, ch: Id, timers: set<Timer>, gen: nat)
    requires CoreAt(c, ch, timers)
    ensures CoreAt(c.(settleArmed := false), ch, timers - {Settle(ch, gen)})
    ensures c.settleGen != gen || !c.settleArmed ==> CoreAt(c, ch, timers - {Settle(ch, gen)})
  {
    hide D.Valid;
  }

  lemma {:induction false} CapGone(c: Turn, ch: Id, timers: set<Timer>, id: nat)
    requires CoreAt(c, ch, timers)
    ensures CoreAt(c.(held := None), ch, timers - {HoldCap(ch, id)})
    ensures !(c.held.Some? && exists d :: d in c.held.value.1 && d.id == id) ==>
              CoreAt(c, ch, timers - {HoldCap(ch, id)})
  {
    hide D.Valid;
  }

  lemma {:induction false} LeadInGone(c: Turn, ch: Id, timers: set<Timer>, gen: nat)
    requires CoreAt(c, ch, timers)
    ensures CoreAt(c.(wait := None), ch, timers - {LeadIn(ch, gen)})
    ensures !(c.wait.Some? && c.wait.value.gen == gen) ==> CoreAt(c, ch, timers - {LeadIn(ch, gen)})
  {
    hide D.Valid;
  }

  lemma {:induction false} GapGone(c: Turn, ch: Id, timers: set<Timer>, gen: nat)
    requires CoreAt(c, ch, timers)
    ensures CoreAt(c.(order := D.Release(c.order).0), ch, timers - {Gap(ch, gen)})
    ensures c.order.gen != gen ==> CoreAt(c, ch, timers - {Gap(ch, gen)})
  {
    hide D.Valid, D.Release;
    ReleasedOrder(c.order);
  }

  lemma {:induction false} CoreAll(s: Rules, ch: Id, timers: set<Timer>)
    requires CoreBut(s, ch, timers) && (ch in s.turns ==> CoreAt(s.turns[ch], ch, timers))
    ensures Core(s, timers)
  {
    hide CoreAt;
  }

  lemma {:induction false} SettleLive(env: Env, s: Rules, ch: Id, gen: nat, focused: Option<Id>, timers: set<Timer>)
    requires Live(s, timers)
    ensures var (s', out) := FireSettle(env, s, ch, gen, focused); Live(s', timers - {Settle(ch, gen)} + Arms(out))
  {
    hide Core, CoreAt, Pend, OthersPend, Summarizing, EnqueueAll, Arms, Set;
    var rest := timers - {Settle(ch, gen)};
    OthersKeep(s, ch, timers, Settle(ch, gen));
    LiveBut(s, ch, timers);
    NoArms(rest);
    if ch in s.turns {
      SettleGone(s.turns[ch], ch, timers, gen);
    }
    if ch !in s.turns || s.turns[ch].settleGen != gen || !s.turns[ch].settleArmed {
      CoreAll(s, ch, rest);
    } else {
      var c := s.turns[ch].(settleArmed := false);
      var s1 := Set(s, ch, c);
      CoreSetBut(s, ch, c, rest);
      if s.turns[ch].wait.Some? {
        PendSet(s, ch, c);
      } else {
        SetHas(s, ch, c);
        var c' := c.(pending := []);
        EmptiedCore(c, ch, rest);
        CoreSetBut(s, ch, c', rest);
        SetTwice(s, ch, c, c');
        EmptiedPend(s, ch, c');
        SettledLive(env, Set(s, ch, c'), ch, s.turns[ch].pending, focused, rest);
      }
    }
  }

  lemma {:induction false} SettledLive(env: Env, s: Rules, ch: Id, items: seq<Decision>, focused: Option<Id>,
      timers: set<Timer>)
    requires Live(s, timers)
    ensures var (s2, out, digesting) := Summarizing(env, s, ch, items != [], focused);
            var (s', more) := EnqueueAll(env, s2, ch, items, digesting);
            Live(s', timers + Arms(out + more))
  {
    hide Core, Pend, Summarizing, EnqueueAll, Arms;
    SummarizingLive(env, s, ch, items != [], focused, timers);
    var (s2, out, digesting) := Summarizing(env, s, ch, items != [], focused);
    EnqueueAllLive(env, s2, ch, items, digesting, timers + Arms(out));
    ArmsThen(timers, out, EnqueueAll(env, s2, ch, items, digesting).1);
  }

  lemma {:induction false} CapLive(env: Env, s: Rules, ch: Id, id: nat, timers: set<Timer>)
    requires Live(s, timers)
    ensures var (s', out) := Fire(env, s, HoldCap(ch, id), None); Live(s', timers - {HoldCap(ch, id)} + Arms(out))
  {
    hide Core, CoreAt, Pend, OthersPend, Arms, Set, SayDecisions;
    var rest := timers - {HoldCap(ch, id)};
    OthersKeep(s, ch, timers, HoldCap(ch, id));
    LiveBut(s, ch, timers);
    NoArms(rest);
    if ch in s.turns {
      CapGone(s.turns[ch], ch, timers, id);
      var c := s.turns[ch].(held := None);
      if s.turns[ch].held.Some? && (exists d :: d in s.turns[ch].held.value.1 && d.id == id) {
        CoreSetBut(s, ch, c, rest);
        PendOf(s, ch);
        PendSet(s, ch, c);
        SayingArms(env, s, ch, s.turns[ch].held.value.1);
        assert rest + {} == rest;
      } else {
        CoreAll(s, ch, rest);
      }
    } else {
      CoreAll(s, ch, rest);
    }
  }

  lemma {:induction false} WatchdogLive(env: Env, s: Rules, k: nat, timers: set<Timer>)
    requires Live(s, timers)
    ensures var (s', out) := Fire(env, s, Watchdog(k), None); Live(s', timers - {Watchdog(k)} + Arms(out))
  {
    hide CoreAt, PendAt, Arms, Land;
    var rest := timers - {Watchdog(k)};
    OthersKeep(s, "", timers, Watchdog(k));
    NoArms(rest);
    if k in s.watched {
      var s1 := s.(watched := s.watched - {k});
      LandLive(env, s1, Some(k), s.watched[k], rest);
      assert rest + {} == rest;
    }
  }

  lemma {:induction false} LateLive(env: Env, s: Rules, ch: Id, gen: nat, timers: set<Timer>)
    requires Live(s, timers)
    ensures var (s', out) := Fire(env, s, LeadIn(ch, gen), None); Live(s', timers - {LeadIn(ch, gen)} + Arms(out))
  {
    hide Core, CoreAt, Pend, OthersPend, Arms, ReleaseWait;
    var rest := timers - {LeadIn(ch, gen)};
    OthersKeep(s, ch, timers, LeadIn(ch, gen));
    LiveBut(s, ch, timers);
    NoArms(rest);
    if ch in s.turns {
      LeadInGone(s.turns[ch], ch, timers, gen);
    }
    if ch in s.turns && s.turns[ch].wait.Some? && s.turns[ch].wait.value.gen == gen {
      ReleaseWaitLive(env, s, ch, rest);
    } else {
      CoreAll(s, ch, rest);
    }
  }

  lemma {:induction false} GapLive(env: Env, s: Rules, ch: Id, gen: nat, timers: set<Timer>)
    requires Live(s, timers)
    ensures var (s', out) := Fire(env, s, Gap(ch, gen), None); Live(s', timers - {Gap(ch, gen)} + Arms(out))
  {
    hide Core, CoreAt, Pend, PendAt, OthersPend, Arms, Assemble, Set, Light, D.Release;
    var rest := timers - {Gap(ch, gen)};
    OthersKeep(s, ch, timers, Gap(ch, gen));
    LiveBut(s, ch, timers);
    NoArms(rest);
    if ch in s.turns {
      GapGone(s.turns[ch], ch, timers, gen);
    }
    if ch in s.turns && s.turns[ch].order.gen == gen {
      Existing(s, ch);
      var c := s.turns[ch];
      var c' := c.(order := D.Release(c.order).0);
      CoreSetBut(s, ch, c', rest);
      PendOf(s, ch);
      OrderPend(c, D.Release(c.order).0);
      PendSet(s, ch, c');
      var s1 := Set(s, ch, c');
      LightAssemble(env, s1, ch, D.Release(c.order).1);
      var a := Assemble(env, s1, ch, D.Release(c.order).1);
      LightLive(s1, a.0, ch, a.1, rest);
    } else {
      CoreAll(s, ch, rest);
    }
  }

  lemma {:induction false} OrderPend(c: Turn, order: D.Order)
    ensures PendAt(c.(order := order)) <==> PendAt(c)
  {
  }

  /** Firing a timer: everything that waits then has its timer among the others and those asked for. */
  lemma {:induction false} FireLive(env: Env, s: Rules, timer: Timer, focused: Option<Id>, timers: set<Timer>)
    requires Live(s, timers)
    ensures var (s', out) := Fire(env, s, timer, focused); Live(s', timers - {timer} + Arms(out))
  {
    hide Live, FireSettle, Land, ReleaseWait, ReleaseGap, SayDecisions;
    match timer
    case Settle(ch, gen) => SettleLive(env, s, ch, gen, focused, timers);
    case HoldCap(ch, id) => CapLive(env, s, ch, id, timers);
    case Watchdog(k) => WatchdogLive(env, s, k, timers);
    case LeadIn(ch, gen) => LateLive(env, s, ch, gen, timers);
    case Gap(ch, gen) => GapLive(env, s, ch, gen, timers);
  }

  // ---- Every input -----------------------------------------------------------

  /** The timers outstanding after an input: the one fired is gone, those asked for are there. */
  function Outstanding(timers: set<Timer>, op: Op, out: seq<Action>): set<Timer> {
    (if op.OpFire? then timers - {op.timer} else timers) + Arms(out)
  }

  lemma {:induction false} SettingsLive(s: Rules, s': Rules, timers: set<Timer>)
    requires Live(s, timers) && s'.turns == s.turns && s'.watched == s.watched
    ensures Live(s', timers)
  {
    hide CoreAt, PendAt;
  }

  lemma {:induction false} MoreLive(s: Rules, timers: set<Timer>, more: set<Timer>)
    requires Live(s, timers)
    ensures Live(s, timers + more)
  {
    hide PendAt;
    CoreMore(s, timers, more);
  }

  lemma {:induction false} LiveSorted(s: Rules, timers: set<Timer>)
    requires Live(s, timers)
    ensures Sorted(s)
  {
    hide PendAt;
    CoreSorted(s, timers);
  }

  lemma {:induction false} StepLive(env: Env, s: Rules, op: Op, timers: set<Timer>)
    requires Live(s, timers)
    ensures var (s', out) := Step(env, s, op); Live(s', Outstanding(timers, op, out))
  {
    hide Live, Light, Sorted, Arms, Stream, TakeLeadIn, Reply, TurnStart, TurnEnd, AskFor, ToolRuns, Answered, StopAll,
        Flush;
    hide FlushReady, TakeNewTurn, Close, SetMute, Fire, DigestDone;
    LiveSorted(s, timers);
    match op
    case OpStream(ch, turn, d, t) =>
      LightStream(env, s, ch, turn, d, t);
      LightLives(s, Stream(env, s, ch, turn, d, t).0, ch, Stream(env, s, ch, turn, d, t).1, timers);
    case OpLeadIn(ch, turn, text, id, t) => LeadInLive(env, s, ch, turn, text, id, t, timers);
    case OpReply(ch, turn, text, before, t) =>
      LightReply(env, s, ch, turn, text, before, t);
      LightLives(s, Reply(env, s, ch, turn, text, before, t), ch, [], timers);
    case OpTurnStart(ch, turn, t) =>
      TurnStartLive(s, ch, turn, t, timers);
      MoreLive(TurnStart(s, ch, turn, t).0, timers, Arms(TurnStart(s, ch, turn, t).1));
    case OpTurnEnd(ch, turn, t) =>
      LightTurnEnd(env, s, ch, turn, t);
      LightLives(s, TurnEnd(env, s, ch, turn, t).0, ch, TurnEnd(env, s, ch, turn, t).1, timers);
    case OpAsk(ch, ask) => AskLive(env, s, ch, ask, timers);
    case OpTool(ch, name, summary) =>
      LightTool(env, s, ch, name, summary);
      LightLives(s, ToolRuns(env, s, ch, name, summary).0, ch, ToolRuns(env, s, ch, name, summary).1, timers);
    case OpAnswered(ch) =>
      AnsweredLive(s, ch, timers);
      MoreLive(Answered(s, ch).0, timers, Arms(Answered(s, ch).1));
    case OpStopAll(chs) =>
      StopLive(s, chs, timers);
      MoreLive(StopAll(s, chs).0, timers, Arms(StopAll(s, chs).1));
    case OpFlush(ch) =>
      FlushLive(env, s, ch, false, timers);
      MoreLive(Flush(env, s, ch).0, timers, Arms(Flush(env, s, ch).1));
    case OpFlushReady(ch, queued) =>
      FlushLive(env, s, ch, queued, timers);
      MoreLive(FlushReady(env, s, ch, queued).0, timers, Arms(FlushReady(env, s, ch, queued).1));
    case OpNewTurn(ch) =>
      LightNewTurn(s, ch);
      LightLives(s, TakeNewTurn(s, ch).0, ch, [], timers);
    case OpClose(ch) =>
      CloseLive(s, ch, timers);
      MoreLive(Close(s, ch).0, timers, Arms(Close(s, ch).1));
    case OpMute(level) =>
      MuteLive(s, level, timers);
      MoreLive(SetMute(s, level).0, timers, Arms(SetMute(s, level).1));
    case OpWhole(on) =>
      SettingsLive(s, s.(whole := on), timers);
      NoArms(timers);
    case OpConfigure(settings) =>
      SettingsLive(s, s.(settings := settings), timers);
      NoArms(timers);
    case OpFire(timer, focused) => FireLive(env, s, timer, focused, timers);
    case OpDigest(job, recap) =>
      DigestLive(env, s, job, recap, timers);
      MoreLive(DigestDone(env, s, job, recap).0, timers, Arms(DigestDone(env, s, job, recap).1));
  }

  lemma {:induction false} MuteLive(s: Rules, level: nat, timers: set<Timer>)
    requires Live(s, timers)
    ensures Live(SetMute(s, level).0, timers)
  {
    hide Live;
    SettingsLive(s, SetMute(s, level).0, timers);
  }

  // ---- Runs ------------------------------------------------------------------

  function TimersAfter(env: Env, s: Rules, ops: seq<Op>, timers: set<Timer>): set<Timer>
    decreases |ops|
  {
    if ops == [] then timers else
      var (s1, out) := Step(env, s, ops[0]);
      TimersAfter(env, s1, ops[1..], Outstanding(timers, ops[0], out))
  }

  /** After every run from the start: each pending decision waits for a settle window or a lead-in
      whose timer is outstanding, each held one has its cap outstanding, each open gap its own timer,
      each watched slot its watchdog. */
  lemma {:induction false} AlwaysTimed(env: Env, s: Rules, ops: seq<Op>, timers: set<Timer>)
    requires Live(s, timers)
    ensures Live(Run(env, s, ops).0, TimersAfter(env, s, ops, timers))
    decreases |ops|
  {
    hide Live, Step, Outstanding;
    if ops != [] {
      StepLive(env, s, ops[0], timers);
      var (s1, out) := Step(env, s, ops[0]);
      AlwaysTimed(env, s1, ops[1..], Outstanding(timers, ops[0], out));
    }
  }

  lemma {:induction false} StartLive(settings: Settings)
    ensures Live(Start(settings), {})
  {
  }

  /** In every run, and for every channel, the decisions that came out and those still waiting are exactly
      those that waited before and those asked during the run. */
  lemma {:induction false} NumbersConserved(env: Env, s: Rules, ops: seq<Op>, timers: set<Timer>, x: Id)
    requires Live(s, timers)
    ensures var (s', out) := Run(env, s, ops);
            Numbers(out, x) + Waits(s', x) == Waits(s, x) + Asks(env, s, ops, x)
    decreases |ops|
  {
    hide Live, Step, Outstanding, Balanced, AskedBy;
    if ops == [] {
      EmptyNumbers(x);
      hide Waits, Numbers;
    } else {
      LiveSorted(s, timers);
      StepLive(env, s, ops[0], timers);
      StepBalanced(env, s, ops[0], x);
      var (s1, out) := Step(env, s, ops[0]);
      NumbersConserved(env, s1, ops[1..], Outstanding(timers, ops[0], out), x);
      var (s2, more) := Run(env, s1, ops[1..]);
      SaysBalanced(s1, s2, more, x, Asks(env, s1, ops[1..], x));
      BalancedThen(s, s1, s2, out, more, x, AskedBy(s, s1, ops[0], x), Asks(env, s1, ops[1..], x));
      BalancedSays(s, s2, out + more, x, Asks(env, s, ops, x));
    }
  }

  lemma {:induction false} SaysBalanced(s: Rules, s': Rules, out: seq<Action>, x: Id, more: multiset<nat>)
    requires Numbers(out, x) + Waits(s', x) == Waits(s, x) + more
    ensures Balanced(s, s', out, x, more)
  {
  }

  lemma {:induction false} BalancedSays(s: Rules, s': Rules, out: seq<Action>, x: Id, more: multiset<nat>)
    requires Balanced(s, s', out, x, more)
    ensures Numbers(out, x) + Waits(s', x) == Waits(s, x) + more
  {
  }

  // ---- Firing ends -----------------------------------------------------------

  function Level(t: Timer): nat {
    match t
    case LeadIn(_, _) => 2
    case Gap(_, _) => 2
    case Settle(_, _) => 1
    case _ => 0
  }

  function AtLevel(timers: set<Timer>, n: nat): set<Timer> {
    set t | t in timers && Level(t) == n
  }

  ghost predicate Below(out: seq<Action>, n: nat) {
    forall t :: Arm(t) in out ==> Level(t) < n
  }

  lemma {:induction false} BelowAdd(a: seq<Action>, b: seq<Action>, n: nat)
    requires Below(a, n) && Below(b, n)
    ensures Below(a + b, n)
  {
  }

  lemma {:induction false} EachBelow(env: Env, s: Rules, ch: Id, head: string, texts: seq<string>)
    ensures Below(SayEach(env, s, ch, head, texts), 0)
  {
    if texts != [] {
      EachBelow(env, s, ch, head, texts[1..]);
    }
  }

  lemma {:induction false} FlushBelow(env: Env, s: Rules, ch: Id, n: nat)
    ensures Below(FlushUpto(env, s, ch, n).1, 0) && Below(FlushProse(env, s, ch).1, 0)
  {
    var s1 := Ensure(s, ch);
    var c := s1.turns[ch];
    var k := if n < |c.heldProse| then n else |c.heldProse|;
    EachBelow(env, s1, ch, MARK, Parts(c.heldProse[..k]));
    EachBelow(env, s1, ch, MARK, Parts(c.heldProse[..|c.heldProse|]));
    hide SayEach, Joined, Parts;
  }

  lemma {:induction false} BelowUp(out: seq<Action>, n: nat, m: nat)
    requires Below(out, n) && n <= m
    ensures Below(out, m)
  {
  }

  /** Assembling asks for settle windows at most. */
  lemma {:induction false} AssembleBelow(env: Env, s: Rules, ch: Id, deltas: seq<D.Delta>)
    ensures Below(Assemble(env, s, ch, deltas).1, 2)
  {
    hide FeedDeltas, Kept, FlushUpto, FlushProse, Ready, Below;
    NoneBelow(2);
    if deltas != [] {
      var s1 := Ensure(s, ch);
      var c0 := s1.turns[ch];
      var kept := if s.settings.summaries then [] else Kept(c0);
      var d := FeedDeltas(env, Draft(if s.settings.summaries then c0 else c0.(voiced := |c0.prose|), kept, None),
          deltas,
                          s.settings.verbosity == SkipCode);
      if s.settings.summaries {
        ArmBelow(Set(s1, ch, d.c), ch);
      } else {
        HoldBelow(env, s1, ch, d.c.(voiced := |d.c.prose|), d.texts, d.breaks);
      }
      hide Hold, ArmSettle;
    }
  }

  lemma {:induction false} HoldBelow(env: Env, s: Rules, ch: Id, c: Turn, texts: seq<(string, bool)>,
      breaks: Option<nat>)
    ensures Below(Hold(env, s, ch, c, texts, breaks).1, 2)
  {
    hide FlushUpto, FlushProse, Ready, Below;
    NoneBelow(2);
    var s1 := Set(s, ch, c.(heldProse := c.heldProse + texts));
    var upto := |c.heldProse| + (if breaks.Some? then breaks.value else 0);
    FlushBelow(env, s1, ch, upto);
    BelowUp(FlushProse(env, s1, ch).1, 0, 2);
    BelowUp(FlushUpto(env, s1, ch, upto).1, 0, 2);
  }

  lemma {:induction false} ArmBelow(s: Rules, ch: Id)
    ensures Below(ArmSettle(s, ch).1, 2)
  {
  }

  lemma {:induction false} NoneBelow(n: nat)
    ensures Below([], n)
  {
  }

  /** Enqueueing asks for hold caps at most. */
  lemma {:induction false} EnqueueBelow(env: Env, s: Rules, ch: Id, items: seq<Decision>, digesting: bool)
    ensures Below(EnqueueAll(env, s, ch, items, digesting).1, 1)
    decreases |items|
  {
    hide FlushProse, Below, Enqueue;
    NoneBelow(1);
    if items != [] {
      var first := Enqueue(env, s, ch, items[0], digesting);
      OneBelow(env, s, ch, items[0], digesting);
      EnqueueBelow(env, first.0, ch, items[1..], digesting);
      BelowAdd(first.1, EnqueueAll(env, first.0, ch, items[1..], digesting).1, 1);
    }
  }

  lemma {:induction false} OneBelow(env: Env, s: Rules, ch: Id, item: Decision, digesting: bool)
    ensures Below(Enqueue(env, s, ch, item, digesting).1, 1)
  {
    hide FlushProse;
    FlushBelow(env, Ensure(s, ch), ch, 0);
  }

  lemma {:induction false} DispatchBelow(s: Rules, ch: Id, gen: nat, text: string, leadin: bool)
    ensures Below(Dispatch(s, ch, gen, text, leadin).1, 1)
  {
  }

  lemma {:induction false} SlotBelow(t: Ticket, out: seq<Action>, n: nat)
    requires Below(out, n)
    ensures Below([Slotted(t)] + out, n)
  {
  }

  lemma {:induction false} SummarizingBelow(env: Env, s: Rules, ch: Id, leadin: bool, focused: Option<Id>)
    ensures Below(Summarizing(env, s, ch, leadin, focused).1, 1)
  {
    hide FlushProse, HoldKept, Kept, SayRaw, Land, JoinSpace, Below, Dispatch, Alloc, Arms, Ensure, Set;
    NoneBelow(1);
    var s0 := Ensure(s, ch);
    var c := s0.turns[ch];
    var chunks := if c.voiced <= |c.prose| then c.prose[c.voiced..] else [];
    var text := Trim(JoinSpace(chunks));
    var s1 := Set(s0, ch, c.(voiced := |c.prose|));
    FlushBelow(env, HoldKept(s0, ch), ch, 0);
    BelowUp(FlushProse(env, HoldKept(s0, ch), ch).1, 0, 1);
    RawArms(env, s1, ch, chunks);
    NotArmed(SayRaw(env, s1, ch, chunks));
    BelowUp(SayRaw(env, s1, ch, chunks), 0, 1);
    var landed := Land(env, Alloc(s1), Some(s1.nextSeq), Release(ch, c.gen, text, false, None));
    LandLive(env, Alloc(s1), Some(s1.nextSeq), Release(ch, c.gen, text, false, None), {});
    NotArmed(landed.1);
    BelowUp(landed.1, 0, 1);
    SlotBelow(Ticket(s1.nextSeq, ch, c.gen, text), landed.1, 1);
    DispatchBelow(s1, ch, c.gen, text, leadin);
  }

  lemma {:induction false} NotArmed(out: seq<Action>)
    requires Arms(out) == {}
    ensures Below(out, 0)
  {
    forall t ensures Arm(t) !in out {
      ArmsIn(out, t);
    }
  }

  /** A timer that fires asks only for timers of lower levels. */
  lemma {:induction false} FireBelow(env: Env, s: Rules, timer: Timer, focused: Option<Id>)
    ensures Below(Fire(env, s, timer, focused).1, Level(timer))
  {
    hide Below, Summarizing, EnqueueAll, Land, SayDecisions, Assemble, ArmSettle;
    NoneBelow(Level(timer));
    match timer
    case Settle(ch, gen) => SettleBelow(env, s, ch, gen, focused);
    case HoldCap(ch, id) =>
      if ch in s.turns && s.turns[ch].held.Some? {
        SayingArms(env, s, ch, s.turns[ch].held.value.1);
        NotArmed(SayDecisions(env, s, ch, s.turns[ch].held.value.1));
      }
    case Watchdog(k) =>
      if k in s.watched {
        LandLive(env, s.(watched := s.watched - {k}), Some(k), s.watched[k], {});
        NotArmed(Land(env, s.(watched := s.watched - {k}), Some(k), s.watched[k]).1);
      }
    case LeadIn(ch, gen) => WaitBelow(env, s, ch);
    case Gap(ch, gen) => GapBelow(env, s, ch);
  }

  lemma {:induction false} SettleBelow(env: Env, s: Rules, ch: Id, gen: nat, focused: Option<Id>)
    ensures Below(FireSettle(env, s, ch, gen, focused).1, 1)
  {
    hide Below, Summarizing, EnqueueAll, Set;
    NoneBelow(1);
    if !(ch !in s.turns || s.turns[ch].settleGen != gen || !s.turns[ch].settleArmed) {
      var s1 := Set(s, ch, s.turns[ch].(settleArmed := false));
      SetHas(s, ch, s.turns[ch].(settleArmed := false));
      var s2 := Set(s1, ch, s1.turns[ch].(pending := []));
      var items := s.turns[ch].pending;
      SummarizingBelow(env, s2, ch, items != [], focused);
      var (s3, out, digesting) := Summarizing(env, s2, ch, items != [], focused);
      EnqueueBelow(env, s3, ch, items, digesting);
      BelowAdd(out, EnqueueAll(env, s3, ch, items, digesting).1, 1);
    }
  }

  lemma {:induction false} WaitBelow(env: Env, s: Rules, ch: Id)
    ensures Below(ReleaseWait(env, s, ch).1, 2)
  {
    hide Below, EnqueueAll, ArmSettle, Ensure;
    var s1 := Ensure(s, ch);
    var s2 := Set(s1, ch, s1.turns[ch].(wait := None));
    ArmBelow(s2, ch);
    var s3 := Set(s2, ch, s2.turns[ch].(pending := []));
    EnqueueBelow(env, s3, ch, s2.turns[ch].pending, false);
    BelowUp(EnqueueAll(env, s3, ch, s2.turns[ch].pending, false).1, 1, 2);
  }

  lemma {:induction false} GapBelow(env: Env, s: Rules, ch: Id)
    ensures Below(ReleaseGap(env, s, ch).1, 2)
  {
    hide Below, Assemble, Ensure, D.Release;
    var s1 := Ensure(s, ch);
    var c := s1.turns[ch];
    AssembleBelow(env, Set(s1, ch, c.(order := D.Release(c.order).0)), ch, D.Release(c.order).1);
  }

  /** Replacing a timer by ones of lower levels lowers the counts, highest level first. */
  lemma {:induction false} LevelsFall(timers: set<Timer>, t: Timer, out: seq<Action>)
    requires t in timers && Below(out, Level(t))
    ensures var after := timers - {t} + Arms(out);
            && |AtLevel(after, Level(t))| < |AtLevel(timers, Level(t))|
            && (Level(t) < 2 ==> AtLevel(after, 2) == AtLevel(timers, 2))
            && (Level(t) < 1 ==> AtLevel(after, 1) == AtLevel(timers, 1))
  {
    var after := timers - {t} + Arms(out);
    forall a | a in Arms(out) ensures Level(a) < Level(t) {
      assert Arm(a) in out;
    }
    assert AtLevel(after, Level(t)) == AtLevel(timers, Level(t)) - {t};
  }

  /** Fire every outstanding timer, in whatever order `next` picks, with no new message. */
  ghost function FireAll(env: Env, s: Rules, timers: set<Timer>, next: set<Timer> -> Timer,
      focus: Timer -> Option<Id>): Out
    requires forall ts: set<Timer> :: ts != {} ==> next(ts) in ts
    decreases |AtLevel(timers, 2)|, |AtLevel(timers, 1)|, |AtLevel(timers, 0)|
  {
    if timers == {} then (s, []) else
      var t := next(timers);
      var fired := Fire(env, s, t, focus(t));
      FireBelow(env, s, t, focus(t));
      LevelsFall(timers, t, fired.1);
      Then(fired, FireAll(env, fired.0, timers - {t} + Arms(fired.1), next, focus))
  }

  /** Firing all timers leaves no decision pending or held, no delta held for its order and no slot
      watched. */
  lemma {:induction false} NothingWaitsOn(env: Env, s: Rules, timers: set<Timer>, next: set<Timer> -> Timer,
      focus: Timer -> Option<Id>)
    requires Live(s, timers) && forall ts: set<Timer> :: ts != {} ==> next(ts) in ts
    ensures var s' := FireAll(env, s, timers, next, focus).0;
            && Live(s', {}) && s'.watched == map[]
            && forall ch :: ch in s'.turns ==>
                 var c := s'.turns[ch];
                 c.pending == [] && (c.held.Some? ==>
                     c.held.value.1 == []) && c.order.ahead == [] && c.wait == None && !c.settleArmed
    decreases |AtLevel(timers, 2)|, |AtLevel(timers, 1)|, |AtLevel(timers, 0)|
  {
    hide Live, Fire, Arms, Below, AtLevel;
    if timers == {} {
      NothingLeft(s);
    } else {
      var t := next(timers);
      var fired := Fire(env, s, t, focus(t));
      FireBelow(env, s, t, focus(t));
      LevelsFall(timers, t, fired.1);
      FireLive(env, s, t, focus(t), timers);
      NothingWaitsOn(env, fired.0, timers - {t} + Arms(fired.1), next, focus);
    }
  }

  lemma {:induction false} NoneOrSome(ds: seq<Decision>)
    ensures ds == [] || exists d :: d in ds
  {
    if ds != [] {
      assert ds[0] in ds;
    }
  }

  lemma {:induction false} NothingLeft(s: Rules)
    requires Live(s, {})
    ensures s.watched == map[]
    ensures forall ch :: ch in s.turns ==>
              var c := s.turns[ch];
              c.pending == [] && (c.held.Some? ==>
                  c.held.value.1 == []) && c.order.ahead == [] && c.wait == None && !c.settleArmed
  {
    forall ch | ch in s.turns
      ensures var c := s.turns[ch];
              c.pending == [] && (c.held.Some? ==>
                  c.held.value.1 == []) && c.order.ahead == [] && c.wait == None && !c.settleArmed
    {
      var c := s.turns[ch];
      assert CoreAt(c, ch, {}) && PendAt(c);
      if c.held.Some? {
        NoneOrSome(c.held.value.1);
      }
    }
  }
}
