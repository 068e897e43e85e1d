/** Each decision is asked once and is then in exactly one place. */
module RulesOnce {
  import opened RulesModel
  import opened RulesDecisions
  import opened RulesTimers
  import opened RulesDropped
  import opened RulesCancel

  lemma {:induction false} NamesNumbers(s: Rules, s': Rules)
    requires Names(s, s')
    ensures s'.nextDecision >= s.nextDecision
  {
  }

  /** A run numbers each decision once, past the last number before it. */
  lemma {:induction false} AskedOnce(env: Env, s: Rules, ops: seq<Op>, timers: set<Timer>, x: Id)
    requires Live(s, timers)
    ensures forall n :: Asks(env, s, ops, x)[n] <= 1 && (n in Asks(env, s, ops, x) ==> n > s.nextDecision)
    decreases |ops|
  {
    hide Live, Step, Outstanding, Names;
    if ops != [] {
      LiveSorted(s, timers);
      StepLive(env, s, ops[0], timers);
      StepNames(env, s, ops[0]);
      NamesNumbers(s, Step(env, s, ops[0]).0);
      var (s1, out) := Step(env, s, ops[0]);
      AskedOnce(env, s1, ops[1..], Outstanding(timers, ops[0], out), x);
      var now, later := AskedBy(s, s1, ops[0], x), Asks(env, s1, ops[1..], x);
      assert Asks(env, s, ops, x) == now + later;
      hide Asks;
    }
  }

  /** No decision is lost or doubled: in every run, and for every channel, the decisions spoken or stored,
      those dropped and those still waiting are exactly those that waited before and those asked during
      the run. */
  lemma {:induction false} DecisionsConserved(env: Env, s: Rules, ops: seq<Op>, timers: set<Timer>, x: Id)
    requires Live(s, timers)
    ensures var (s', out) := Run(env, s, ops);
            ReadIn(out, x) + DroppedIn(out, x) + Waits(s', x) == Waits(s, x) + Asks(env, s, ops, x)
  {
    hide Live, Run, Asks, Numbers, ReadIn, DroppedIn, Waits;
    NumbersConserved(env, s, ops, timers, x);
    NumbersAre(Run(env, s, ops).1, x);
  }

  /** Without a turn start, an answer, a close or a stop of the channel, each of them was read or waits. */
  lemma {:induction false} NotCancelledIsRead(env: Env, s: Rules, ops: seq<Op>, timers: set<Timer>, x: Id)
    requires Live(s, timers) && forall op :: op in ops ==> !Cancels(op, x)
    ensures var (s', out) := Run(env, s, ops);
            ReadIn(out, x) + Waits(s', x) == Waits(s, x) + Asks(env, s, ops, x)
  {
    hide Live, Run, Asks, ReadIn, DroppedIn, Waits, Cancels;
    DecisionsConserved(env, s, ops, timers, x);
    RunDrops(env, s, ops, timers, x);
    var (s', out) := Run(env, s, ops);
    assert ReadIn(out, x) + multiset{} == ReadIn(out, x);
  }

  /** From the start, each decision asked in a channel is in exactly one place: it was read once, or dropped
      once, or it waits; and it was dropped only if some input cancelled what waits in its channel. */
  lemma {:induction false} EachDecisionOnce(env: Env, settings: Settings, ops: seq<Op>, x: Id, n: nat)
    ensures var s := Start(settings); var (s', out) := Run(env, s, ops);
            && ReadIn(out, x)[n] + DroppedIn(out, x)[n] + Waits(s', x)[n] == Asks(env, s, ops, x)[n] <= 1
            && ((forall op :: op in ops ==> !Cancels(op, x)) ==> DroppedIn(out, x)[n] == 0)
  {
    hide Live, Run, Asks, ReadIn, DroppedIn, Cancels;
    StartLive(settings);
    var s := Start(settings);
    DecisionsConserved(env, s, ops, {}, x);
    AskedOnce(env, s, ops, {}, x);
    var (s', out) := Run(env, s, ops);
    if forall op :: op in ops ==> !Cancels(op, x) {
      RunDrops(env, s, ops, {}, x);
    }
    assert Waits(s, x) == multiset{};
    hide Waits;
    assert (ReadIn(out, x) + DroppedIn(out, x) + Waits(s', x))[n] == (multiset{} + Asks(env, s, ops, x))[n];
  }
}
