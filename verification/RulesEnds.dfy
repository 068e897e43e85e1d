/** When every timer has fired: all decisions were read and every slot was served. */
module RulesEnds {
  import opened Options
  import opened RulesModel
  import opened RulesDecisions
  import opened RulesTimers
  import opened RulesBuffer
  import opened RulesDropped
  import opened RulesOnce

  ghost predicate Fires(ops: seq<Op>) {
    forall op :: op in ops ==> op.OpFire?
  }

  /** Firing all timers is a run of firings, after which none is outstanding. */
  lemma {:induction false} FireAllIsRun(env: Env, s: Rules, timers: set<Timer>, next: set<Timer> -> Timer,
      focus: Timer -> Option<Id>)
    returns (ops: seq<Op>)
    requires forall ts: set<Timer> :: ts != {} ==> next(ts) in ts
    ensures Fires(ops) && Run(env, s, ops) == FireAll(env, s, timers, next, focus)
        && TimersAfter(env, s, ops, timers) == {}
    decreases |AtLevel(timers, 2)|, |AtLevel(timers, 1)|, |AtLevel(timers, 0)|
  {
    hide Fire, Arms, Below, AtLevel;
    ops := [];
    if timers != {} {
      var t := next(timers);
      var fired := Fire(env, s, t, focus(t));
      FireBelow(env, s, t, focus(t));
      LevelsFall(timers, t, fired.1);
      var rest := FireAllIsRun(env, fired.0, timers - {t} + Arms(fired.1), next, focus);
      ops := [OpFire(t, focus(t))] + rest;
      assert ops[1..] == rest;
    }
  }

  lemma {:induction false} FiresAnswer(env: Env, s: Rules, ops: seq<Op>, issued: set<Job>)
    requires Fires(ops)
    ensures Answering(env, s, ops, issued)
    decreases |ops|
  {
    hide Step, IssuedIn;
    if ops != [] {
      assert ops[0] in ops;
      FiresAnswer(env, Step(env, s, ops[0]).0, ops[1..], issued + IssuedIn(Step(env, s, ops[0]).1));
    }
  }

  lemma {:induction false} FiresAskNothing(env: Env, s: Rules, ops: seq<Op>, x: Id)
    requires Fires(ops)
    ensures Asks(env, s, ops, x) == multiset{}
    decreases |ops|
  {
    hide Step;
    if ops != [] {
      assert ops[0] in ops;
      FiresAskNothing(env, Step(env, s, ops[0]).0, ops[1..], x);
    }
  }

  lemma {:induction false} FiresCancelNothing(ops: seq<Op>, x: Id)
    requires Fires(ops)
    ensures forall op :: op in ops ==> !Cancels(op, x)
  {
  }

  lemma {:induction false} NoneWaits(s: Rules, x: Id)
    requires forall ch :: ch in s.turns ==>
               s.turns[ch].pending == [] && (s.turns[ch].held.Some? ==> s.turns[ch].held.value.1 == [])
    ensures Waits(s, x) == multiset{}
  {
  }

  /** Firing all timers, whatever their order and whatever the focus, ends: nothing waits any more, every
      decision that waited was spoken or stored, and every slot given out was served. */
  lemma {:induction false} FiredAll(env: Env, s: Rules, timers: set<Timer>, next: set<Timer> -> Timer,
      focus: Timer -> Option<Id>, slotted: seq<Ticket>, served: seq<Ticket>, issued: set<Job>)
    requires Live(s, timers) && Book(s, slotted, served, issued)
    requires forall ts: set<Timer> :: ts != {} ==> next(ts) in ts
    ensures var (s', out) := FireAll(env, s, timers, next, focus);
            && (forall x ::
                  ReadIn(out, x) == Waits(s, x) && DroppedIn(out, x) == multiset{} && Waits(s', x) == multiset{})
            && (forall ch :: ch in s'.turns ==>
                  s'.turns[ch].order.ahead == [] && s'.turns[ch].wait == None && !s'.turns[ch].settleArmed)
            && s'.serveSeq == s'.nextSeq && s'.parked == map[] && s'.watched == map[]
            && served + ServedIn(out) == slotted + SlottedIn(out)
  {
    hide Live, Book, Run, FireAll, Asks, ReadIn, DroppedIn, Waits, Cancels, Answering, SlottedIn, ServedIn, IssuedIn,
        Fires;
    var ops := FireAllIsRun(env, s, timers, next, focus);
    var (s', out) := Run(env, s, ops);
    NothingWaitsOn(env, s, timers, next, focus);
    forall x ensures ReadIn(out, x) == Waits(s, x) && DroppedIn(out, x) == multiset{} && Waits(s', x) == multiset{} {
      FiresCancelNothing(ops, x);
      FiresAskNothing(env, s, ops, x);
      NotCancelledIsRead(env, s, ops, timers, x);
      RunDrops(env, s, ops, timers, x);
      NoneWaits(s', x);
      assert ReadIn(out, x) + multiset{} == ReadIn(out, x) && Waits(s, x) + multiset{} == Waits(s, x);
    }
    FiresAnswer(env, s, ops, issued);
    RunBook(env, s, ops, timers, slotted, served, issued);
    AllServed(s', slotted + SlottedIn(out), served + ServedIn(out), issued + IssuedIn(out));
    NoneParked(s', slotted + SlottedIn(out), served + ServedIn(out), issued + IssuedIn(out));
  }

  lemma {:induction false} NoneParked(s: Rules, slotted: seq<Ticket>, served: seq<Ticket>, issued: set<Job>)
    requires Book(s, slotted, served, issued) && s.serveSeq == s.nextSeq
    ensures s.parked == map[]
  {
    BookSays(s, slotted, served, issued);
    hide Book;
    forall k ensures k !in s.parked {
    }
  }

  lemma {:induction false} ReadAdd(a: seq<Action>, b: seq<Action>, x: Id)
    ensures ReadIn(a + b, x) == ReadIn(a, x) + ReadIn(b, x)
  {
    hide ReadBy;
    if a == [] {
      assert a + b == b;
    } else {
      assert (a + b)[1..] == a[1..] + b;
      ReadAdd(a[1..], b, x);
    }
  }

  /** So whatever comes from the start on: once all timers that are then outstanding have fired, every
      decision ever asked was read or dropped by an input that cancels, and the slots served are all the
      slots given out, in order. */
  lemma {:induction false} EverythingSettles(env: Env, settings: Settings, ops: seq<Op>, next: set<Timer> -> Timer,
      focus: Timer -> Option<Id>)
    requires Answering(env, Start(settings), ops, {})
    requires forall ts: set<Timer> :: ts != {} ==> next(ts) in ts
    ensures var (s, out) := Run(env, Start(settings), ops);
            var (s', more) := FireAll(env, s, TimersAfter(env, Start(settings), ops, {}), next, focus);
            && (forall x :: ReadIn(out + more, x) + DroppedIn(out, x) == Asks(env, Start(settings), ops, x))
            && s'.serveSeq == s'.nextSeq && ServedIn(out + more) == SlottedIn(out + more)
  {
    hide Live, Book, Run, FireAll, Asks, ReadIn, DroppedIn, Waits, Answering, SlottedIn, ServedIn, IssuedIn, Start,
        TimersAfter;
    StartLive(settings);
    StartBook(settings);
    var s0 := Start(settings);
    var (s, out) := Run(env, s0, ops);
    var timers := TimersAfter(env, s0, ops, {});
    AlwaysTimed(env, s0, ops, {});
    RunBook(env, s0, ops, {}, [], [], {});
    assert [] + SlottedIn(out) == SlottedIn(out) && [] + ServedIn(out) == ServedIn(out);
    FiredAll(env, s, timers, next, focus, SlottedIn(out), ServedIn(out), {} + IssuedIn(out));
    var more := FireAll(env, s, timers, next, focus).1;
    TicketsAdd(out, more);
    forall x ensures ReadIn(out + more, x) + DroppedIn(out, x) == Asks(env, s0, ops, x) {
      ReadAdd(out, more, x);
      DecisionsConserved(env, s0, ops, {}, x);
      StartsEmpty(settings, x);
      Settles(ReadIn(out, x), DroppedIn(out, x), Waits(s, x), Asks(env, s0, ops, x));
    }
  }

  lemma {:induction false} Settles(read: multiset<nat>, dropped: multiset<nat>, waits: multiset<nat>,
      asked: multiset<nat>)
    requires read + dropped + waits == multiset{} + asked
    ensures (read + waits) + dropped == asked
  {
    assert (read + waits) + dropped == read + dropped + waits;
  }

  lemma {:induction false} StartsEmpty(settings: Settings, x: Id)
    ensures Waits(Start(settings), x) == multiset{}
  {
  }
}
