/** The summary jobs not answered yet: how many a turn waits for, and which decisions wait behind them. */
module RulesJobs {
  import opened Options
  import opened Wordings
  import opened RulesModel
  import opened RulesFrames
  import opened RulesDecisions
  import opened RulesTimers
  import opened RulesBuffer
  import opened RulesCancel

  /** The jobs of `ch`'s generation `gen` among `jobs`. */
  function Mine(jobs: set<Job>, ch: Id, gen: nat): set<Job> {
    set j | j in jobs && j.channel == ch && j.gen == gen
  }

  /** Tokens tell the jobs apart and are not of the future. */
  ghost predicate Told(s: Rules, jobs: set<Job>) {
    && (forall j :: j in jobs ==> 1 <= j.token <= s.nextToken && j.gen <= s.nextGen)
    && (forall i, j :: i in jobs && j in jobs && i.token == j.token ==> i == j)
  }

  /** The turn counts its own unanswered jobs; one it knows as its last, or holds decisions behind, is
      of its own generation. */
  ghost predicate Counted(c: Turn, ch: Id, jobs: set<Job>) {
    && |Mine(jobs, ch, c.gen)| == c.inflight
    && (forall j :: j in jobs && j.channel == ch && j.token == c.lastToken ==> j.gen == c.gen)
    && (forall j :: j in jobs && j.channel == ch && c.held.Some? && j.token == c.held.value.0 ==> j.gen == c.gen)
  }

  /** `jobs` are those that went out and were not answered. */
  ghost predicate Work(s: Rules, jobs: set<Job>) {
    Told(s, jobs) && forall ch :: ch in s.turns ==> Counted(s.turns[ch], ch, jobs)
  }

  lemma {:induction false} StartWork(settings: Settings)
    ensures Work(Start(settings), {})
  {
  }

  // ---- No job goes out or is answered ----------------------------------------

  lemma {:induction false} KeptCounted(c: Turn, c': Turn, ch: Id, low: nat, jobs: set<Job>)
    requires Counted(c, ch, jobs) && KeptTurn(c, c', low)
    ensures Counted(c', ch, jobs)
  {
    hide Mine;
  }

  lemma {:induction false} NewCounted(s: Rules, c: Turn, ch: Id, high: nat, jobs: set<Job>)
    requires Told(s, jobs) && NewTurn(c, s.nextGen, high)
    ensures Counted(c, ch, jobs)
  {
    assert Mine(jobs, ch, c.gen) == {};
  }

  lemma {:induction false} WorkMoves(s: Rules, s': Rules, jobs: set<Job>)
    requires Work(s, jobs) && Moves(s, s')
    ensures Work(s', jobs)
  {
    hide KeptTurn, NewTurn, Counted;
    forall ch | ch in s'.turns ensures Counted(s'.turns[ch], ch, jobs) {
      if ch in s.turns && KeptTurn(s.turns[ch], s'.turns[ch], s.nextGen) {
        KeptCounted(s.turns[ch], s'.turns[ch], ch, s.nextGen, jobs);
      } else {
        NewCounted(s, s'.turns[ch], ch, s'.nextGen, jobs);
      }
    }
  }

  ghost predicate NoJobs(out: seq<Action>) {
    forall a :: a in out ==> !a.Summarize?
  }

  lemma {:induction false} NoneIssued(out: seq<Action>)
    requires NoJobs(out)
    ensures IssuedIn(out) == {}
  {
  }

  lemma {:induction false} ApartNone(out: seq<Action>)
    requires Unslotted(out)
    ensures IssuedIn(out) == {}
  {
  }

  lemma {:induction false} WorkKept(s: Rules, s': Rules, out: seq<Action>, jobs: set<Job>)
    requires Work(s, jobs) && Moves(s, s') && IssuedIn(out) == {}
    ensures Work(s', jobs + IssuedIn(out))
  {
    hide Work, Moves, IssuedIn;
    WorkMoves(s, s', jobs);
    assert jobs + {} == jobs;
  }

  lemma {:induction false} WorkThen(s: Rules, out: seq<Action>, more: seq<Action>, jobs: set<Job>)
    requires Work(s, jobs + IssuedIn(out) + IssuedIn(more))
    ensures Work(s, jobs + IssuedIn(out + more))
  {
    hide Work, IssuedIn;
    IssuedAdd(out, more);
    assert jobs + IssuedIn(out) + IssuedIn(more) == jobs + (IssuedIn(out) + IssuedIn(more));
  }

  // ---- A job goes out --------------------------------------------------------

  /** `job` joins: the turn counts it and knows it as its last. */
  lemma {:induction false} JobCounted(c: Turn, job: Job, jobs: set<Job>, high: nat)
    requires Counted(c, job.channel, jobs) && job.gen == c.gen && job !in jobs
    requires forall j :: j in jobs ==> j.token != job.token
    ensures Counted(c.(lastToken := job.token, inflight := c.inflight + 1), job.channel, jobs + {job})
  {
    assert Mine(jobs + {job}, job.channel, c.gen) == Mine(jobs, job.channel, c.gen) + {job};
  }

  lemma {:induction false} OtherCounted(c: Turn, ch: Id, job: Job, jobs: set<Job>)
    requires Counted(c, ch, jobs) && job.channel != ch
    ensures Counted(c, ch, jobs + {job}) && Counted(c, ch, jobs - {job})
  {
    assert Mine(jobs + {job}, ch, c.gen) == Mine(jobs, ch, c.gen);
    assert Mine(jobs - {job}, ch, c.gen) == Mine(jobs, ch, c.gen);
  }

  lemma {:induction false} JobOut(s: Rules, s': Rules, job: Job, jobs: set<Job>)
    requires Work(s, jobs) && job.channel in s.turns && job.gen == s.turns[job.channel].gen <= s.nextGen
    requires job.token == s.nextToken + 1 && s'.nextToken == job.token && s'.nextGen == s.nextGen
    requires var c := s.turns[job.channel];
             s'.turns == s.turns[job.channel := c.(lastToken := job.token, inflight := c.inflight + 1)]
    ensures Work(s', jobs + {job})
  {
    hide Counted;
    JobCounted(s.turns[job.channel], job, jobs, s.nextGen);
    forall ch | ch in s'.turns && ch != job.channel ensures Counted(s'.turns[ch], ch, jobs + {job}) {
      OtherCounted(s.turns[ch], ch, job, jobs);
    }
  }

  lemma {:induction false} DispatchOut(s: Rules, ch: Id, gen: nat, text: string, leadin: bool)
    requires ch in s.turns
    ensures var (s', out, _) := Dispatch(s, ch, gen, text, leadin);
            var c := s.turns[ch];
            var job := Job(s.nextToken + 1, ch, gen, text, leadin, if leadin then None else Some(s.nextSeq));
            && s'.nextToken == job.token && s'.nextGen == s.nextGen && IssuedIn(out) == {job}
            && s'.turns == s.turns[ch := c.(lastToken := job.token, inflight := c.inflight + 1)]
  {
    Existing(s, ch);
    hide Ensure;
    var job := Job(s.nextToken + 1, ch, gen, text, leadin, if leadin then None else Some(s.nextSeq));
    var out := Dispatch(s, ch, gen, text, leadin).1;
    assert Summarize(job) in out by {
      if leadin {
        assert out[0] == Summarize(job);
      } else {
        assert out[2] == Summarize(job);
      }
    }
  }

  /** No name is of the future. */
  ghost predicate Named(s: Rules) {
    forall ch :: ch in s.turns ==> s.turns[ch].gen <= s.nextGen
  }

  lemma {:induction false} MovesNamed(s: Rules, s': Rules)
    requires Moves(s, s') && Named(s)
    ensures Named(s')
  {
  }

  lemma {:induction false} MoreNamed(s: Rules, s': Rules)
    requires Named(s) && s'.nextGen >= s.nextGen
    requires forall ch :: ch in s'.turns ==> ch in s.turns && s'.turns[ch].gen == s.turns[ch].gen
    ensures Named(s')
  {
  }

  lemma {:induction false} DispatchWork(s: Rules, ch: Id, text: string, leadin: bool, jobs: set<Job>)
    requires Work(s, jobs) && Named(s) && ch in s.turns
    ensures var (s', out, _) := Dispatch(s, ch, s.turns[ch].gen, text, leadin);
            Work(s', jobs + IssuedIn(out)) && Named(s')
  {
    hide Work, Dispatch, IssuedIn;
    var gen := s.turns[ch].gen;
    var s' := Dispatch(s, ch, gen, text, leadin).0;
    DispatchOut(s, ch, gen, text, leadin);
    JobOut(s, s', Job(s.nextToken + 1, ch, gen, text, leadin, if leadin then None else Some(s.nextSeq)), jobs);
    MoreNamed(s, s');
  }

  // ---- A job is answered -----------------------------------------------------

  lemma {:induction false} AnswerCounted(c: Turn, job: Job, jobs: set<Job>, owned: bool)
    requires Counted(c, job.channel, jobs) && job in jobs
    ensures Counted(Answer(c, owned, job.gen), job.channel, jobs - {job})
  {
    var ch := job.channel;
    if c.gen == job.gen {
      assert job in Mine(jobs, ch, c.gen);
      assert Mine(jobs - {job}, ch, c.gen) == Mine(jobs, ch, c.gen) - {job};
    } else {
      assert Mine(jobs - {job}, ch, c.gen) == Mine(jobs, ch, c.gen);
    }
  }

  lemma {:induction false} DeliveredWork(s: Rules, job: Job, jobs: set<Job>)
    requires Work(s, jobs) && job in jobs && Named(s)
    ensures Work(Delivered(s, job), jobs - {job}) && Named(Delivered(s, job))
  {
    hide Counted;
    var s' := Delivered(s, job);
    forall ch | ch in s'.turns ensures Counted(s'.turns[ch], ch, jobs - {job}) {
      if ch == job.channel {
        AnswerCounted(s.turns[ch], job, jobs, Owns(s, job));
      } else {
        OtherCounted(s.turns[ch], ch, job, jobs);
      }
    }
  }

  // ---- Every input -----------------------------------------------------------

  lemma {:induction false} ServeJobless(env: Env, s: Rules)
    ensures NoJobs(Serve(env, s).1)
    decreases s.parked.Keys
  {
    hide Apply;
    if s.serveSeq in s.parked {
      var s1 := s.(parked := s.parked - {s.serveSeq}, serveSeq := s.serveSeq + 1);
      ApplyUnslotted(env, s1, s.parked[s.serveSeq]);
      ServeJobless(env, s1);
    }
  }

  lemma {:induction false} LandJobless(env: Env, s: Rules, slot: Option<nat>, r: Release)
    ensures IssuedIn(Land(env, s, slot, r).1) == {}
  {
    hide Serve, Apply, IssuedIn;
    NoneIssued([]);
    ApplyUnslotted(env, s, r);
    ApartNone(Apply(env, s, r));
    if slot.Some? {
      var s1 := s.(watched := s.watched - {slot.value}, parked := s.parked[slot.value := r]);
      ServeJobless(env, s1);
      NoneIssued(Serve(env, s1).1);
    }
  }

  lemma {:induction false} SlotJobless(t: Ticket, out: seq<Action>)
    requires IssuedIn(out) == {}
    ensures IssuedIn([Slotted(t)] + out) == {}
  {
    IssuedAdd([Slotted(t)], out);
    NoneIssued([Slotted(t)]);
    hide IssuedIn;
  }

  lemma {:induction false} LightJobless(s: Rules, s': Rules, ch: Id, out: seq<Action>)
    requires Light(s, s', ch, out)
    ensures IssuedIn(out) == {}
  {
    hide Light, IssuedIn;
    LightSays(s, s', ch, out);
    PlainApart(out);
    ApartNone(out);
  }

  /** A recap of the turn: only a dispatch issues a job. */
  lemma {:induction false} SummarizingWork(env: Env, s: Rules, ch: Id, leadin: bool, focused: Option<Id>,
      jobs: set<Job>)
    requires Work(s, jobs) && Named(s)
    ensures var (s', out, _) := Summarizing(env, s, ch, leadin, focused); Work(s', jobs + IssuedIn(out)) && Named(s')
  {
    hide Work, Named, Moves, HoldKept, FlushProse, SayRaw, Land, Dispatch, Ensure, JoinSpace, Kept, Light, Set, Alloc,
        IssuedIn, Unslotted;
    NoneIssued([]);
    EnsureMoves(s, ch);
    var s0 := Ensure(s, ch);
    var c := s0.turns[ch];
    WorkKept(s, s0, [], jobs);
    MovesNamed(s, s0);
    if !s.settings.summaries {
      LightHoldKept(s0, ch);
      LightMoves(s0, HoldKept(s0, ch), ch, []);
      MovesThen(s, s0, HoldKept(s0, ch));
      WorkKept(s, HoldKept(s0, ch), [], jobs);
      MovesNamed(s, HoldKept(s0, ch));
      var flushed := FlushProse(env, HoldKept(s0, ch), ch);
      LightFlush(env, HoldKept(s0, ch), ch);
      LightMoves(HoldKept(s0, ch), flushed.0, ch, flushed.1);
      LightJobless(HoldKept(s0, ch), flushed.0, ch, flushed.1);
      MovesThen(s, HoldKept(s0, ch), flushed.0);
      WorkKept(s, flushed.0, flushed.1, jobs);
      MovesNamed(s, flushed.0);
    } else {
      var s1 := Set(s0, ch, c.(voiced := |c.prose|));
      var chunks := if c.voiced <= |c.prose| then c.prose[c.voiced..] else [];
      var text := Trim(JoinSpace(chunks));
      VoicedMoves(s0, ch);
      MovesThen(s, s0, s1);
      MovesNamed(s, s1);
      RawApart(env, s1, ch, chunks);
      ApartNone(SayRaw(env, s1, ch, chunks));
      WorkKept(s, s1, SayRaw(env, s1, ch, chunks), jobs);
      WorkMoves(s, s1, jobs);
      var r := Release(ch, c.gen, text, false, None);
      var landed := Land(env, Alloc(s1), Some(s1.nextSeq), r);
      AllocMoves(s1);
      LandMoves(env, Alloc(s1), Some(s1.nextSeq), r);
      LandJobless(env, Alloc(s1), Some(s1.nextSeq), r);
      SlotJobless(Ticket(s1.nextSeq, ch, c.gen, text), landed.1);
      MovesThen(s1, Alloc(s1), landed.0);
      MovesThen(s, s1, landed.0);
      MovesNamed(s, landed.0);
      WorkKept(s, landed.0, [Slotted(Ticket(s1.nextSeq, ch, c.gen, text))] + landed.1, jobs);
      SetHas(s0, ch, c.(voiced := |c.prose|));
      DispatchWork(s1, ch, text, leadin, jobs);
    }
  }

  lemma {:induction false} EnqueueAllJobless(env: Env, s: Rules, ch: Id, items: seq<Decision>, digesting: bool)
    ensures IssuedIn(EnqueueAll(env, s, ch, items, digesting).1) == {}
  {
    hide EnqueueAll, IssuedIn, Unslotted;
    EnqueueAllSlots(env, s, ch, items, digesting);
    ApartNone(EnqueueAll(env, s, ch, items, digesting).1);
  }

  lemma {:induction false} SettleWork(env: Env, s: Rules, ch: Id, gen: nat, focused: Option<Id>, jobs: set<Job>)
    requires Work(s, jobs) && Named(s)
    ensures var (s', out) := FireSettle(env, s, ch, gen, focused); Work(s', jobs + IssuedIn(out)) && Named(s')
  {
    hide Work, Named, Moves, Summarizing, EnqueueAll, Set, IssuedIn;
    NoneIssued([]);
    MovesSame(s, s);
    WorkKept(s, s, [], jobs);
    if ch in s.turns {
      VoicedMoves(s, ch);
      var s1 := Set(s, ch, s.turns[ch].(settleArmed := false));
      WorkKept(s, s1, [], jobs);
      MovesNamed(s, s1);
      SetHas(s, ch, s.turns[ch].(settleArmed := false));
      VoicedMoves(s1, ch);
      var s2 := Set(s1, ch, s1.turns[ch].(pending := []));
      MovesThen(s, s1, s2);
      WorkMoves(s, s2, jobs);
      MovesNamed(s, s2);
      var items := s.turns[ch].pending;
      SummarizingWork(env, s2, ch, items != [], focused, jobs);
      var (s3, out, digesting) := Summarizing(env, s2, ch, items != [], focused);
      var rest := EnqueueAll(env, s3, ch, items, digesting);
      EnqueueAllMoves(env, s3, ch, items, digesting);
      EnqueueAllJobless(env, s3, ch, items, digesting);
      WorkKept(s3, rest.0, rest.1, jobs + IssuedIn(out));
      MovesNamed(s3, rest.0);
      WorkThen(rest.0, out, rest.1, jobs);
    }
  }

  lemma {:induction false} FireWork(env: Env, s: Rules, timer: Timer, focused: Option<Id>, jobs: set<Job>)
    requires Work(s, jobs) && Named(s)
    ensures var (s', out) := Fire(env, s, timer, focused); Work(s', jobs + IssuedIn(out)) && Named(s')
  {
    if timer.Settle? {
      hide Work, Named, FireSettle;
      SettleWork(env, s, timer.channel, timer.gen, focused, jobs);
    } else {
      hide Work, Named, Moves, Fire, IssuedIn;
      FireMoves(env, s, timer, focused);
      var fired := Fire(env, s, timer, focused);
      WorkKept(s, fired.0, fired.1, jobs);
      MovesNamed(s, fired.0);
    }
  }

  lemma {:induction false} FireMoves(env: Env, s: Rules, timer: Timer, focused: Option<Id>)
    requires !timer.Settle?
    ensures Moves(s, Fire(env, s, timer, focused).0) && IssuedIn(Fire(env, s, timer, focused).1) == {}
  {
    hide Moves, EnqueueAll, ReleaseWait, ReleaseGap, Land, SayDecisions, Light, Set, IssuedIn, Unslotted, SlotsSame;
    NoneIssued([]);
    MovesSame(s, s);
    match timer
    case HoldCap(ch, id) =>
      if ch in s.turns && s.turns[ch].held.Some? {
        VoicedMoves(s, ch);
        SayingApart(env, s, ch, s.turns[ch].held.value.1);
        ApartNone(SayDecisions(env, s, ch, s.turns[ch].held.value.1));
      }
    case Watchdog(k) =>
      if k in s.watched {
        var s1 := s.(watched := s.watched - {k});
        MovesSame(s, s1);
        LandMoves(env, s1, Some(k), s.watched[k]);
        LandJobless(env, s1, Some(k), s.watched[k]);
        MovesThen(s, s1, Land(env, s1, Some(k), s.watched[k]).0);
      }
    case LeadIn(ch, gen) =>
      WaitMoves(env, s, ch);
      WaitSlots(env, s, ch);
      ApartNone(ReleaseWait(env, s, ch).1);
    case Gap(ch, gen) =>
      LightReleaseGap(env, s, ch);
      LightMoves(s, ReleaseGap(env, s, ch).0, ch, ReleaseGap(env, s, ch).1);
      LightJobless(s, ReleaseGap(env, s, ch).0, ch, ReleaseGap(env, s, ch).1);
  }

  lemma {:induction false} DigestWork(env: Env, s: Rules, job: Job, summary: Option<string>, jobs: set<Job>)
    requires Work(s, jobs) && Named(s) && job in jobs
    ensures var (s', out) := DigestDone(env, s, job, summary); Work(s', jobs - {job} + IssuedIn(out)) && Named(s')
  {
    hide Work, Named, Moves, Land, Delivered, SayDecisions, HeldFor, IssuedIn, Unslotted;
    DeliveredWork(s, job, jobs);
    var s1 := Delivered(s, job);
    var r := Release(job.channel, job.gen, job.text, job.leadin, summary);
    var landed := Land(env, s1, job.slot, r);
    LandMoves(env, s1, job.slot, r);
    LandJobless(env, s1, job.slot, r);
    WorkKept(s1, landed.0, landed.1, jobs - {job});
    MovesNamed(s1, landed.0);
    var said := SayDecisions(env, landed.0, job.channel, HeldFor(s, job));
    SayingApart(env, landed.0, job.channel, HeldFor(s, job));
    ApartNone(said);
    assert jobs - {job} + IssuedIn(landed.1) + {} == jobs - {job} + IssuedIn(landed.1);
    WorkThen(landed.0, landed.1, said, jobs - {job});
  }

  /** The jobs not answered after a step: an answer takes one away, a dispatch adds one. */
  function Unanswered(jobs: set<Job>, op: Op, out: seq<Action>): set<Job> {
    (if op.OpDigest? then jobs - {op.job} else jobs) + IssuedIn(out)
  }

  lemma {:induction false} StepWork(env: Env, s: Rules, op: Op, jobs: set<Job>)
    requires Sorted(s) && Work(s, jobs) && Named(s) && Answers(op, jobs)
    ensures var (s', out) := Step(env, s, op); Work(s', Unanswered(jobs, op, out)) && Named(s')
  {
    if op.OpFire? {
      hide Work, Named, Fire, IssuedIn;
      FireWork(env, s, op.timer, op.focused, jobs);
    } else if op.OpDigest? {
      hide Work, Named, DigestDone, IssuedIn;
      DigestWork(env, s, op.job, op.recap, jobs);
    } else {
      hide Work, Named, Moves, Step, IssuedIn, Unslotted;
      StepMoves(env, s, op);
      StepSlots(env, s, op);
      ApartNone(Step(env, s, op).1);
      WorkKept(s, Step(env, s, op).0, Step(env, s, op).1, jobs);
      MovesNamed(s, Step(env, s, op).0);
    }
  }

  /** Every job is answered at most once, after it went out. */
  ghost predicate AnsweringOnce(env: Env, s: Rules, ops: seq<Op>, jobs: set<Job>)
    decreases |ops|
  {
    ops != [] ==>
      && Answers(ops[0], jobs)
      && var (s1, out) := Step(env, s, ops[0]); AnsweringOnce(env, s1, ops[1..], Unanswered(jobs, ops[0], out))
  }

  /** The jobs not answered after a run. */
  function JobsAfter(env: Env, s: Rules, ops: seq<Op>, jobs: set<Job>): set<Job>
    decreases |ops|
  {
    if ops == [] then jobs else
      var (s1, out) := Step(env, s, ops[0]);
      JobsAfter(env, s1, ops[1..], Unanswered(jobs, ops[0], out))
  }

  lemma {:induction false} RunWork(env: Env, s: Rules, ops: seq<Op>, timers: set<Timer>, jobs: set<Job>)
    requires Live(s, timers) && Work(s, jobs) && Named(s) && AnsweringOnce(env, s, ops, jobs)
    ensures Work(Run(env, s, ops).0, JobsAfter(env, s, ops, jobs))
    decreases |ops|
  {
    hide Live, Work, Named, Step, Outstanding, Answers, Unanswered;
    if ops != [] {
      LiveSorted(s, timers);
      StepLive(env, s, ops[0], timers);
      StepWork(env, s, ops[0], jobs);
      var (s1, out) := Step(env, s, ops[0]);
      RunWork(env, s1, ops[1..], Outstanding(timers, ops[0], out), Unanswered(jobs, ops[0], out));
    }
  }

  /** In every run each turn's count in flight is the number of its unanswered jobs of its current
      generation, and an unanswered job of an older generation owns no decision held. */
  lemma {:induction false} InFlightIsUnanswered(env: Env, settings: Settings, ops: seq<Op>, ch: Id)
    requires AnsweringOnce(env, Start(settings), ops, {})
    ensures var s, jobs := Run(env, Start(settings), ops).0, JobsAfter(env, Start(settings), ops, {});
            ch in s.turns ==>
              && s.turns[ch].inflight == |Mine(jobs, ch, s.turns[ch].gen)|
              && forall j :: j in jobs && j.channel == ch && j.gen != s.turns[ch].gen ==> HeldFor(s, j) == []
  {
    hide Live, Run, JobsAfter, AnsweringOnce, Start, Mine, Told;
    StartLive(settings);
    StartWork(settings);
    StartNamed(settings);
    RunWork(env, Start(settings), ops, {}, {});
  }

  lemma {:induction false} StartNamed(settings: Settings)
    ensures Named(Start(settings))
  {
  }

  /** So a late answer to a cancelled job changes nothing of its channel and says nothing there. */
  lemma {:induction false} StaleAnswer(env: Env, s: Rules, job: Job, summary: Option<string>, jobs: set<Job>)
    requires Work(s, jobs) && job in jobs && job.channel in s.turns && s.turns[job.channel].gen != job.gen
    ensures var (s', out) := DigestDone(env, s, job, summary);
            && s'.turns == s.turns
            && (job.slot == None ==> out == [])
  {
    hide Land, Work, Delivered, HeldFor, Apply;
    StaleDelivered(s, job, jobs);
    var s1 := Delivered(s, job);
    var r := Release(job.channel, job.gen, job.text, job.leadin, summary);
    LandTurns(env, s1, job.slot, r);
    if job.slot == None {
      StaleLands(env, s1, r);
    }
  }

  lemma {:induction false} StaleLands(env: Env, s: Rules, r: Release)
    requires !(r.channel in s.turns && s.turns[r.channel].gen == r.gen)
    ensures Land(env, s, None, r) == (s, [])
  {
    hide Serve;
  }

  lemma {:induction false} StaleDelivered(s: Rules, job: Job, jobs: set<Job>)
    requires Work(s, jobs) && job in jobs && job.channel in s.turns && s.turns[job.channel].gen != job.gen
    ensures Delivered(s, job).turns == s.turns && HeldFor(s, job) == []
  {
    hide Work, Owns, Set, Answer;
    StaleOwns(s, job, jobs);
    SetSelf(s, job.channel);
    SameAnswer(s.turns[job.channel], job.gen);
  }

  lemma {:induction false} SameAnswer(c: Turn, gen: nat)
    requires c.gen != gen
    ensures Answer(c, false, gen) == c
  {
  }

  lemma {:induction false} StaleOwns(s: Rules, job: Job, jobs: set<Job>)
    requires Work(s, jobs) && job in jobs && job.channel in s.turns && s.turns[job.channel].gen != job.gen
    ensures !Owns(s, job)
  {
    hide Told, Mine;
  }

  lemma {:induction false} LandTurns(env: Env, s: Rules, slot: Option<nat>, r: Release)
    ensures Land(env, s, slot, r).0.turns == s.turns
  {
    hide Land, Numberless;
    LandLands(env, s, slot, r);
  }
}
