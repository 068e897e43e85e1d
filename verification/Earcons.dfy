/**
 The two threads that play earcons, as a state machine over their steps. A caller asks for an
 earcon under the schedule's lock, so callers come one at a time; the earcon thread takes the
 waiting jobs from its inbox. Between any two steps of one the other may take any number. A mute
 also takes the lock. Earcons are numbered in the order the schedule admitted them.
 */
module Earcons {

  datatype Job = Job(number: nat, epoch: nat)

  // Where the caller holding the lock is; `Free`: nobody holds it.
  datatype Caller =
    | Free
    | Admitted(number: nat, due: bool)  // the schedule gave it a start, `due` when that is now
    | Playing(number: nat)              // it plays at once
    | Waiting(number: nat)              // it has to wait: the thread must exist
    | Counting(number: nat)             // about to count it as deferred
    | Sending(number: nat)              // counted, about to send it

  datatype Thread =
    | Receiving
    | Received(job: Job)   // taken from the inbox, not looked at yet
    | Sleeping(job: Job)   // kept, waiting for its start
    | Sounding(job: Job)   // kept again, about to play
    | Uncounting           // played or dropped, still counted

  datatype State = State(
    admitted: nat,
    caller: Caller,
    thread: Thread,
    inbox: seq<Job>,
    deferred: nat,
    started: bool,       // the earcon thread exists
    epoch: nat,
    muteLevel: nat,
    muting: nat,         // mutes that stored their level and have not started their epoch yet
    sounded: seq<nat>,
    dropped: seq<nat>)

  const START := State(0, Free, Receiving, [], 0, false, 0, 0, 0, [], [])

  datatype Act =
    | Admit(due: bool)
    | LookAtDeferred
    | PlayNow
    | EnsureThread(spawns: bool)
    | CountUp
    | Send
    | SetMuteLevel(level: nat)
    | NewEpoch
    | Receive
    | CheckFirst
    | Wake
    | Sound
    | CountDown

  predicate Enabled(s: State, a: Act) {
    match a
    case Admit(_) => s.caller.Free?
    case LookAtDeferred => s.caller.Admitted?
    case PlayNow => s.caller.Playing?
    case EnsureThread(_) => s.caller.Waiting?
    case CountUp => s.caller.Counting?
    case Send => s.caller.Sending?
    case SetMuteLevel(_) => true
    case NewEpoch => s.caller.Free? && s.muting > 0
    case Receive => s.thread.Receiving? && s.inbox != []
    case CheckFirst => s.thread.Received?
    case Wake => s.thread.Sleeping?
    case Sound => s.thread.Sounding?
    case CountDown => s.thread.Uncounting?
  }

  predicate Muted(s: State, j: Job) {
    s.muteLevel >= 2 || s.epoch != j.epoch
  }

  function Next(s: State, a: Act): State
    requires Enabled(s, a)
  {
    match a
    case Admit(due) => s.(admitted := s.admitted + 1, caller := Admitted(s.admitted, due))
    case LookAtDeferred =>
      s.(caller := if s.caller.due && s.deferred == 0 then Playing(s.caller.number) else Waiting(s.caller.number))
    case PlayNow => s.(sounded := s.sounded + [s.caller.number], caller := Free)
    case EnsureThread(spawns) =>
      if s.started then s.(caller := Counting(s.caller.number))
      else if spawns then s.(started := true, caller := Counting(s.caller.number))
      else s.(caller := Playing(s.caller.number))
    case CountUp => s.(deferred := s.deferred + 1, caller := Sending(s.caller.number))
    case Send => s.(inbox := s.inbox + [Job(s.caller.number, s.epoch)], caller := Free)
    case SetMuteLevel(level) => s.(muteLevel := level, muting := if level >= 2 then s.muting + 1 else s.muting)
    case NewEpoch => s.(epoch := s.epoch + 1, muting := s.muting - 1)
    case Receive => s.(thread := Received(s.inbox[0]), inbox := s.inbox[1..])
    case CheckFirst =>
      if Muted(s, s.thread.job) then s.(dropped := s.dropped + [s.thread.job.number], thread := Uncounting)
      else s.(thread := Sleeping(s.thread.job))
    case Wake =>
      if Muted(s, s.thread.job) then s.(dropped := s.dropped + [s.thread.job.number], thread := Uncounting)
      else s.(thread := Sounding(s.thread.job))
    case Sound => s.(sounded := s.sounded + [s.thread.job.number], thread := Uncounting)
    case CountDown => s.(deferred := if s.deferred > 0 then s.deferred - 1 else 0, thread := Receiving)
  }

  // ---- The earcons on their way --------------------------------------------

  function Numbers(jobs: seq<Job>): (r: seq<nat>)
    ensures |r| == |jobs|
    ensures forall i :: 0 <= i < |r| ==> r[i] == jobs[i].number
  {
    if jobs == [] then [] else [jobs[0].number] + Numbers(jobs[1..])
  }

  function InThread(t: Thread): seq<nat> {
    if t.Received? || t.Sleeping? || t.Sounding? then [t.job.number] else []
  }

  function InCaller(c: Caller): seq<nat> {
    if c.Free? then [] else [c.number]
  }

  /** Admitted, neither played nor dropped, in the order they will be. */
  function OnTheWay(s: State): seq<nat> {
    InThread(s.thread) + Numbers(s.inbox) + InCaller(s.caller)
  }

  /** The earcons sounded and those to come, in one line. */
  function Line(s: State): seq<nat> {
    s.sounded + OnTheWay(s)
  }

  ghost predicate Below(ns: seq<nat>, bound: nat) {
    forall i :: 0 <= i < |ns| ==> ns[i] < bound
  }

  ghost predicate Rising(ns: seq<nat>) {
    forall i, j :: 0 <= i < j < |ns| ==> ns[i] < ns[j]
  }

  function UpTo(n: nat): multiset<nat> {
    if n == 0 then multiset{} else UpTo(n - 1) + multiset{n - 1}
  }

  function Count(b: bool): nat {
    if b then 1 else 0
  }

  ghost predicate Inv(s: State) {
    && s.deferred == |s.inbox| + Count(!s.thread.Receiving?) + Count(s.caller.Sending?)
    && (!s.started ==> s.inbox == [] && s.thread.Receiving? && !s.caller.Counting? && !s.caller.Sending?)
    && (s.caller.Playing? ==> s.inbox == [] && s.thread.Receiving?)
    && Rising(Line(s)) && Below(Line(s), s.admitted)
    && multiset(Line(s)) + multiset(s.dropped) == UpTo(s.admitted)
  }

  // ---- Every step keeps the order ------------------------------------------

  lemma {:induction false} NumbersOfMore(jobs: seq<Job>, j: Job)
    ensures Numbers(jobs + [j]) == Numbers(jobs) + [j.number]
  {
  }

  lemma {:induction false} LineOfPlaying(s: State)
    requires Enabled(s, PlayNow) && s.inbox == [] && s.thread.Receiving?
    ensures Line(Next(s, PlayNow)) == Line(s)
  {
    assert OnTheWay(s) == [s.caller.number];
    assert OnTheWay(Next(s, PlayNow)) == [];
  }

  lemma {:induction false} LineOfSending(s: State)
    requires Enabled(s, Send)
    ensures Line(Next(s, Send)) == Line(s)
  {
    NumbersOfMore(s.inbox, Job(s.caller.number, s.epoch));
    hide Numbers;
    assert OnTheWay(Next(s, Send)) == OnTheWay(s);
  }

  lemma {:induction false} LineOfReceiving(s: State)
    requires Enabled(s, Receive)
    ensures Line(Next(s, Receive)) == Line(s)
  {
    assert Numbers(s.inbox) == [s.inbox[0].number] + Numbers(s.inbox[1..]);
    assert OnTheWay(Next(s, Receive)) == OnTheWay(s);
  }

  lemma {:induction false} LineOfThread(s: State)
    requires s.thread.Received? || s.thread.Sleeping? || s.thread.Sounding?
    ensures var t := s.(sounded := s.sounded + [s.thread.job.number], thread := Uncounting);
            Line(t) == Line(s)
    ensures var k := |s.sounded|; var t := s.(dropped := s.dropped + [s.thread.job.number], thread := Uncounting);
            k < |Line(s)| && Line(s)[k] == s.thread.job.number && Line(t) == Line(s)[..k] + Line(s)[k + 1..]
  {
    var rest := Numbers(s.inbox) + InCaller(s.caller);
    hide Numbers, InCaller;
    assert OnTheWay(s) == [s.thread.job.number] + rest;
    assert OnTheWay(s.(thread := Uncounting)) == rest;
  }

  lemma {:induction false} LineOfAdmitting(s: State, due: bool)
    requires Enabled(s, Admit(due))
    ensures Line(Next(s, Admit(due))) == Line(s) + [s.admitted]
  {
    hide Numbers;
    assert OnTheWay(Next(s, Admit(due))) == OnTheWay(s) + [s.admitted];
  }

  predicate Drops(s: State, a: Act)
    requires Enabled(s, a)
  {
    (a.CheckFirst? || a.Wake?) && Muted(s, s.thread.job)
  }

  /** A step appends to the line, takes one earcon out of it, or leaves it. */
  lemma {:induction false} LineAfter(s: State, a: Act)
    requires Enabled(s, a) && (s.caller.Playing? ==> s.inbox == [] && s.thread.Receiving?)
    ensures a.Admit? ==> Line(Next(s, a)) == Line(s) + [s.admitted]
    ensures Drops(s, a) ==>
              var k := |s.sounded|;
              && k < |Line(s)| && Next(s, a).dropped == s.dropped + [Line(s)[k]]
              && Line(Next(s, a)) == Line(s)[..k] + Line(s)[k + 1..]
    ensures !a.Admit? && !Drops(s, a) ==> Line(Next(s, a)) == Line(s)
  {
    hide Line;
    match a
    case Admit(due) => LineOfAdmitting(s, due);
    case PlayNow => LineOfPlaying(s);
    case Send => LineOfSending(s);
    case Receive => LineOfReceiving(s);
    case Sound => LineOfThread(s);
    case CheckFirst => LineOfThread(s); SameLine(s, Next(s, a));
    case Wake => LineOfThread(s); SameLine(s, Next(s, a));
    case _ => SameLine(s, Next(s, a));
  }

  lemma {:induction false} SameLine(s: State, t: State)
    ensures (&& s.sounded == t.sounded && s.inbox == t.inbox
             && InThread(s.thread) == InThread(t.thread) && InCaller(s.caller) == InCaller(t.caller))
            ==> Line(s) == Line(t)
  {
  }

  lemma {:induction false} CountsKept(s: State, a: Act)
    requires Inv(s) && Enabled(s, a)
    ensures var t := Next(s, a);
            && t.deferred == |t.inbox| + Count(!t.thread.Receiving?) + Count(t.caller.Sending?)
            && (!t.started ==> t.inbox == [] && t.thread.Receiving? && !t.caller.Counting? && !t.caller.Sending?)
            && (t.caller.Playing? ==> t.inbox == [] && t.thread.Receiving?)
  {
    hide Rising, Line, Below;
  }

  lemma {:induction false} LineKept(line: seq<nat>, line': seq<nat>, k: nat, n: nat)
    requires Rising(line) && Below(line, n)
    requires line' == line + [n] || (k < |line| && line' == line[..k] + line[k + 1..])
    ensures Rising(line') && Below(line', n + 1)
    ensures line' != line + [n] ==> Below(line', n)
  {
  }

  lemma {:induction false} OrderKept(s: State, a: Act)
    requires Inv(s) && Enabled(s, a)
    ensures Rising(Line(Next(s, a))) && Below(Line(Next(s, a)), Next(s, a).admitted)
  {
    hide Line, Drops, Next, Enabled, Rising, Below, UpTo;
    LineAfter(s, a);
    NumberedAndDropped(s, a);
    if a.Admit? || Drops(s, a) {
      LineKept(Line(s), Line(Next(s, a)), |s.sounded|, s.admitted);
    }
  }

  lemma {:induction false} AccountOfOneMore(line: seq<nat>, dropped: seq<nat>, n: nat)
    requires multiset(line) + multiset(dropped) == UpTo(n)
    ensures multiset(line + [n]) + multiset(dropped) == UpTo(n + 1)
  {
    assert UpTo(n + 1) == UpTo(n) + multiset{n};
    assert multiset(line + [n]) == multiset(line) + multiset{n};
  }

  lemma {:induction false} AccountOfOneLess(line: seq<nat>, dropped: seq<nat>, k: nat, n: nat)
    requires multiset(line) + multiset(dropped) == UpTo(n) && k < |line|
    ensures multiset(line[..k] + line[k + 1..]) + multiset(dropped + [line[k]]) == UpTo(n)
  {
    assert line == line[..k] + [line[k]] + line[k + 1..];
    assert multiset(line) == multiset(line[..k] + line[k + 1..]) + multiset{line[k]};
  }

  lemma {:induction false} NumberedAndDropped(s: State, a: Act)
    requires Enabled(s, a)
    ensures Next(s, a).admitted == s.admitted + Count(a.Admit?)
    ensures !Drops(s, a) ==> Next(s, a).dropped == s.dropped
  {
  }

  lemma {:induction false} AccountKept(s: State, a: Act)
    requires Enabled(s, a) && (s.caller.Playing? ==> s.inbox == [] && s.thread.Receiving?)
    requires multiset(Line(s)) + multiset(s.dropped) == UpTo(s.admitted)
    ensures var t := Next(s, a); multiset(Line(t)) + multiset(t.dropped) == UpTo(t.admitted)
  {
    hide Line, Drops, UpTo, Next, Enabled;
    LineAfter(s, a);
    NumberedAndDropped(s, a);
    if a.Admit? {
      AccountOfOneMore(Line(s), s.dropped, s.admitted);
    } else if Drops(s, a) {
      AccountOfOneLess(Line(s), s.dropped, |s.sounded|, s.admitted);
    }
  }

  lemma {:induction false} NextKeeps(s: State, a: Act)
    requires Inv(s) && Enabled(s, a)
    ensures Inv(Next(s, a))
  {
    hide Line, Rising, Below, Next, Enabled, UpTo, Count;
    CountsKept(s, a);
    OrderKept(s, a);
    AccountKept(s, a);
  }

  // ---- Whole runs -----------------------------------------------------------

  predicate Possible(s: State, acts: seq<Act>)
    decreases |acts|
  {
    acts == [] || (Enabled(s, acts[0]) && Possible(Next(s, acts[0]), acts[1..]))
  }

  function Run(s: State, acts: seq<Act>): State
    requires Possible(s, acts)
    decreases |acts|
  {
    if acts == [] then s else Run(Next(s, acts[0]), acts[1..])
  }

  lemma {:induction false} RunKeeps(s: State, acts: seq<Act>)
    requires Inv(s) && Possible(s, acts)
    ensures Inv(Run(s, acts))
    decreases |acts|
  {
    hide Inv, Next;
    if acts != [] {
      NextKeeps(s, acts[0]);
      RunKeeps(Next(s, acts[0]), acts[1..]);
    }
  }

  /** However callers, mutes and the thread interleave: earcons sound in the order they were
      admitted, each at most once; every admitted one has sounded, was dropped by a mute or is
      still on its way; and with nothing on its way nothing is counted as deferred. */
  lemma {:induction false} SoundInOrder(acts: seq<Act>)
    requires Possible(START, acts)
    ensures var s := Run(START, acts);
            && Rising(s.sounded)
            && multiset(s.sounded) + multiset(OnTheWay(s)) + multiset(s.dropped) == UpTo(s.admitted)
            && (OnTheWay(s) == [] && !s.thread.Uncounting? ==> s.deferred == 0)
  {
    assert Inv(START) by {
      assert Line(START) == [];
    }
    RunKeeps(START, acts);
    hide Run, Possible, UpTo;
    FrontRises(Run(START, acts));
  }

  lemma {:induction false} FrontRises(s: State)
    requires Rising(Line(s))
    ensures Rising(s.sounded)
    ensures multiset(Line(s)) == multiset(s.sounded) + multiset(OnTheWay(s))
  {
    hide OnTheWay;
    forall i, j | 0 <= i < j < |s.sounded| ensures s.sounded[i] < s.sounded[j] {
      assert Line(s)[i] == s.sounded[i] && Line(s)[j] == s.sounded[j];
    }
  }

  /** Nothing is dropped unless a mute came. */
  lemma {:induction false} DroppedByMute(s: State, acts: seq<Act>)
    requires Possible(s, acts) && s.muteLevel < 2 && s.muting == 0
    requires forall i :: 0 <= i < |acts| ==> (acts[i].SetMuteLevel? ==> acts[i].level < 2)
    requires forall i :: 0 <= i < |s.inbox| ==> s.inbox[i].epoch == s.epoch
    requires s.thread.Received? || s.thread.Sleeping? || s.thread.Sounding? ==> s.thread.job.epoch == s.epoch
    ensures Run(s, acts).dropped == s.dropped
    decreases |acts|
  {
    if acts != [] {
      DroppedByMute(Next(s, acts[0]), acts[1..]);
    }
  }

  /** Earcon `n` was queued in an epoch that is over, and its last check is still to come. */
  ghost predicate Outdated(s: State, n: nat) {
    && n < s.admitted && n !in s.sounded
    && (!s.caller.Free? ==> s.caller.number != n)
    && (forall i :: 0 <= i < |s.inbox| ==> s.inbox[i].number == n ==> s.inbox[i].epoch < s.epoch)
    && (s.thread.Received? || s.thread.Sleeping? ==> s.thread.job.number == n ==> s.thread.job.epoch < s.epoch)
    && (s.thread.Sounding? ==> s.thread.job.number != n)
  }

  /** An earcon that waited when a mute came never sounds, also not after the unmute. */
  lemma {:induction false} MutedNeverSounds(s: State, acts: seq<Act>, n: nat)
    requires Possible(s, acts) && Outdated(s, n)
    ensures n !in Run(s, acts).sounded
    decreases |acts|
  {
    if acts != [] {
      MutedNeverSounds(Next(s, acts[0]), acts[1..], n);
    }
  }
}
