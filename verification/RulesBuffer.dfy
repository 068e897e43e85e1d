/** The reorder buffer: summaries are heard in the order their turns ended, each slot once. */
module RulesBuffer {
  import opened Options
  import opened Wordings
  import D = DeltaOrders
  import opened RulesModel
  import opened RulesFrames
  import opened RulesDecisions
  import opened RulesTimers

  // ---- What happened to the slots --------------------------------------------

  function GivenBy(a: Action): seq<Ticket> {
    if a.Slotted? then [a.ticket] else []
  }

  function ServedBy(a: Action): seq<Ticket> {
    if a.Served? then [a.ticket] else []
  }

  /** The slots given out in `out`, in order, with what they were given out for. */
  function SlottedIn(out: seq<Action>): seq<Ticket> {
    if out == [] then [] else GivenBy(out[0]) + SlottedIn(out[1..])
  }

  /** The slots served in `out`, in order, with what was released. */
  function ServedIn(out: seq<Action>): seq<Ticket> {
    if out == [] then [] else ServedBy(out[0]) + ServedIn(out[1..])
  }

  function IssuedIn(out: seq<Action>): set<Job> {
    set a | a in out && a.Summarize? :: a.job
  }

  lemma {:induction false} TicketsAdd(a: seq<Action>, b: seq<Action>)
    ensures SlottedIn(a + b) == SlottedIn(a) + SlottedIn(b)
    ensures ServedIn(a + b) == ServedIn(a) + ServedIn(b)
  {
    hide GivenBy, ServedBy;
    if a == [] {
      assert a + b == b;
    } else {
      assert (a + b)[1..] == a[1..] + b;
      TicketsAdd(a[1..], b);
      assert GivenBy(a[0]) + (SlottedIn(a[1..]) + SlottedIn(b)) == (GivenBy(a[0]) + SlottedIn(a[1..])) + SlottedIn(b);
      assert ServedBy(a[0]) + (ServedIn(a[1..]) + ServedIn(b)) == (ServedBy(a[0]) + ServedIn(a[1..])) + ServedIn(b);
    }
  }

  lemma {:induction false} IssuedAdd(a: seq<Action>, b: seq<Action>)
    ensures IssuedIn(a + b) == IssuedIn(a) + IssuedIn(b)
  {
    forall j | j in IssuedIn(a) + IssuedIn(b) ensures j in IssuedIn(a + b) {
      assert Summarize(j) in a + b;
    }
  }

  /** Nothing about slots or jobs. */
  ghost predicate Unslotted(out: seq<Action>) {
    forall a :: a in out ==> !a.Slotted? && !a.Served? && !a.Summarize?
  }

  function ReleaseOf(a: Action): Option<nat> {
    match a
    case Speak(_, _, _, release, _, _) => release
    case Store(_, _, _, release, _, _) => release
    case _ => None
  }

  /** Nor does it read a release. */
  ghost predicate Apart(out: seq<Action>) {
    Unslotted(out) && forall a :: a in out ==> ReleaseOf(a) == None
  }

  lemma {:induction false} UnslottedIs(out: seq<Action>)
    requires Unslotted(out)
    ensures SlottedIn(out) == [] && ServedIn(out) == [] && IssuedIn(out) == {}
  {
    if out != [] {
      assert out[0] in out;
      UnslottedIs(out[1..]);
    }
  }

  lemma {:induction false} PlainApart(out: seq<Action>)
    requires AllPlain(out)
    ensures Apart(out)
  {
    forall a | a in out ensures !a.Slotted? && !a.Served? && !a.Summarize? && ReleaseOf(a) == None {
      assert Plain(a);
    }
  }

  // ---- The book --------------------------------------------------------------

  /** A release is what its slot was given out for. */
  predicate For(r: Release, t: Ticket) {
    r.channel == t.channel && r.gen == t.gen && r.text == t.text
  }

  /** Slots are numbered as given out; those before `serveSeq` were served, in order; every other one
      is parked or watched, not both, with what it was given out for. */
  ghost predicate Booked(s: Rules, slotted: seq<Ticket>, served: seq<Ticket>, issued: set<Job>) {
    && |slotted| == s.nextSeq && s.serveSeq <= s.nextSeq
    && (forall k :: 0 <= k < |slotted| ==> slotted[k].slot == k)
    && served == slotted[..s.serveSeq]
    && (forall k :: k in s.parked ==> s.serveSeq <= k < s.nextSeq && k !in s.watched && For(s.parked[k], slotted[k]))
    && (forall k :: k in s.watched ==> s.serveSeq <= k < s.nextSeq && For(s.watched[k], slotted[k]))
    && (forall k :: s.serveSeq <= k < s.nextSeq ==> k in s.parked || k in s.watched)
    && (forall j :: j in issued && j.slot.Some? ==> j.slot.value < s.nextSeq && ForJob(j, slotted[j.slot.value]))
  }

  predicate ForJob(j: Job, t: Ticket) {
    j.channel == t.channel && j.gen == t.gen && j.text == t.text
  }

  /** And the next slot to serve is not ready. */
  ghost predicate Book(s: Rules, slotted: seq<Ticket>, served: seq<Ticket>, issued: set<Job>) {
    Booked(s, slotted, served, issued) && s.serveSeq !in s.parked
  }

  ghost predicate BookAfter(s: Rules, out: seq<Action>, slotted: seq<Ticket>, served: seq<Ticket>, issued: set<Job>) {
    Book(s, slotted + SlottedIn(out), served + ServedIn(out), issued + IssuedIn(out))
  }

  lemma {:induction false} BookSame(s: Rules, s': Rules, out: seq<Action>, slotted: seq<Ticket>, served: seq<Ticket>,
      issued: set<Job>)
    requires Book(s, slotted, served, issued) && Unslotted(out)
    requires s'.nextSeq == s.nextSeq && s'.serveSeq == s.serveSeq && s'.parked == s.parked && s'.watched == s.watched
    ensures BookAfter(s', out, slotted, served, issued)
  {
    UnslottedIs(out);
    hide SlottedIn, ServedIn, IssuedIn, For, ForJob;
    assert slotted + [] == slotted && served + [] == served && issued + {} == issued;
  }

  lemma {:induction false} BookThen(s: Rules, out: seq<Action>, more: seq<Action>, slotted: seq<Ticket>,
      served: seq<Ticket>, issued: set<Job>)
    requires BookAfter(s, more, slotted + SlottedIn(out), served + ServedIn(out), issued + IssuedIn(out))
    ensures BookAfter(s, out + more, slotted, served, issued)
  {
    hide Book, SlottedIn, ServedIn, IssuedIn;
    TicketsAdd(out, more);
    IssuedAdd(out, more);
    assert slotted + SlottedIn(out) + SlottedIn(more) == slotted + (SlottedIn(out) + SlottedIn(more));
    assert served + ServedIn(out) + ServedIn(more) == served + (ServedIn(out) + ServedIn(more));
    assert issued + IssuedIn(out) + IssuedIn(more) == issued + (IssuedIn(out) + IssuedIn(more));
  }

  lemma {:induction false} LightBook(s: Rules, s': Rules, ch: Id, out: seq<Action>, slotted: seq<Ticket>,
      served: seq<Ticket>, issued: set<Job>)
    requires Book(s, slotted, served, issued) && Light(s, s', ch, out)
    ensures BookAfter(s', out, slotted, served, issued)
  {
    hide Book, BookAfter, TurnStep, Unslotted;
    PlainApart(out);
    BookSame(s, s', out, slotted, served, issued);
  }

  // ---- Serving ---------------------------------------------------------------

  lemma {:induction false} ApplyUnslotted(env: Env, s: Rules, r: Release)
    ensures Unslotted(Apply(env, s, r))
  {
  }

  /** One slot served: it is the next one, with what it was given out for. */
  lemma {:induction false} ServeOne(s: Rules, slotted: seq<Ticket>, served: seq<Ticket>, issued: set<Job>)
    requires Booked(s, slotted, served, issued) && s.serveSeq in s.parked
    ensures var r := s.parked[s.serveSeq];
            var t := Ticket(s.serveSeq, r.channel, r.gen, r.text);
            && s.serveSeq < |slotted| && t == slotted[s.serveSeq]
            && Booked(s.(parked := s.parked - {s.serveSeq}, serveSeq := s.serveSeq + 1), slotted, served + [t], issued)
  {
    hide ForJob;
    assert slotted[..s.serveSeq + 1] == slotted[..s.serveSeq] + [slotted[s.serveSeq]];
  }

  lemma {:induction false} ServedOnly(env: Env, s: Rules, t: Ticket, r: Release)
    ensures var out := [Served(t)] + Apply(env, s, r);
            SlottedIn(out) == [] && ServedIn(out) == [t] && IssuedIn(out) == {}
  {
    ApplyUnslotted(env, s, r);
    UnslottedIs(Apply(env, s, r));
    TicketsAdd([Served(t)], Apply(env, s, r));
    IssuedAdd([Served(t)], Apply(env, s, r));
    assert [Served(t)][1..] == [];
    assert ServedIn([Served(t)]) == [t] && SlottedIn([Served(t)]) == [] && IssuedIn([Served(t)]) == {};
  }

  lemma {:induction false} ServeBook(env: Env, s: Rules, slotted: seq<Ticket>, served: seq<Ticket>, issued: set<Job>)
    requires Booked(s, slotted, served, issued)
    ensures BookAfter(Serve(env, s).0, Serve(env, s).1, slotted, served, issued)
    decreases s.parked.Keys
  {
    hide Booked, Apply, SlottedIn, ServedIn, IssuedIn;
    if s.serveSeq in s.parked {
      var r := s.parked[s.serveSeq];
      var t := Ticket(s.serveSeq, r.channel, r.gen, r.text);
      var s1 := s.(parked := s.parked - {s.serveSeq}, serveSeq := s.serveSeq + 1);
      var out := [Served(t)] + Apply(env, s1, r);
      ServeOne(s, slotted, served, issued);
      ServedOnly(env, s1, t, r);
      assert slotted + [] == slotted && issued + {} == issued;
      ServeBook(env, s1, slotted, served + [t], issued);
      BookThen(Serve(env, s1).0, out, Serve(env, s1).1, slotted, served, issued);
    } else {
      NoTickets();
      assert slotted + [] == slotted && served + [] == served && issued + {} == issued;
    }
  }

  lemma {:induction false} NoTickets()
    ensures SlottedIn([]) == [] && ServedIn([]) == [] && IssuedIn([]) == {}
  {
  }

  /** A release lands under a slot that waits for it (or was served, or is parked already). */
  lemma {:induction false} LandBook(env: Env, s: Rules, slot: Option<nat>, r: Release, slotted: seq<Ticket>,
      served: seq<Ticket>, issued: set<Job>)
    requires Book(s, slotted, served, issued)
    requires slot.Some? ==> slot.value < s.nextSeq && For(r, slotted[slot.value])
    ensures BookAfter(Land(env, s, slot, r).0, Land(env, s, slot, r).1, slotted, served, issued)
  {
    hide Serve, Apply, BookAfter;
    if slot == None {
      ApplyUnslotted(env, s, r);
      BookSame(s, s, Apply(env, s, r), slotted, served, issued);
    } else if slot.value < s.serveSeq || slot.value in s.parked {
      BookSame(s, s, [], slotted, served, issued);
    } else {
      var s1 := s.(watched := s.watched - {slot.value}, parked := s.parked[slot.value := r]);
      assert Booked(s1, slotted, served, issued);
      ServeBook(env, s1, slotted, served, issued);
    }
  }

  // ---- Giving out slots ------------------------------------------------------

  /** A short turn takes a slot and lands at once. */
  lemma {:induction false} ShortBook(env: Env, s: Rules, r: Release, slotted: seq<Ticket>, served: seq<Ticket>,
      issued: set<Job>)
    requires Book(s, slotted, served, issued)
    ensures var t := Ticket(s.nextSeq, r.channel, r.gen, r.text);
            var (s', out) := Land(env, Alloc(s), Some(s.nextSeq), r);
            BookAfter(s', [Slotted(t)] + out, slotted, served, issued)
  {
    hide Serve, Apply, BookAfter, SlottedIn, ServedIn, IssuedIn, Booked;
    var t := Ticket(s.nextSeq, r.channel, r.gen, r.text);
    var s1 := Alloc(s).(watched := s.watched - {s.nextSeq}, parked := s.parked[s.nextSeq := r]);
    ShortKept(s, r, slotted, served, issued);
    ShortFree(s, slotted, served, issued);
    ServeBook(env, s1, slotted + [t], served, issued);
    SlottedOne(t);
    assert served + [] == served && issued + {} == issued;
    BookThen(Serve(env, s1).0, [Slotted(t)], Serve(env, s1).1, slotted, served, issued);
  }

  lemma {:induction false} ShortFree(s: Rules, slotted: seq<Ticket>, served: seq<Ticket>, issued: set<Job>)
    requires Book(s, slotted, served, issued)
    ensures s.nextSeq >= s.serveSeq && s.nextSeq !in s.parked
  {
  }

  lemma {:induction false} ShortKept(s: Rules, r: Release, slotted: seq<Ticket>, served: seq<Ticket>, issued: set<Job>)
    requires Book(s, slotted, served, issued)
    ensures var t := Ticket(s.nextSeq, r.channel, r.gen, r.text);
            Booked(Alloc(s).(watched := s.watched - {s.nextSeq}, parked := s.parked[s.nextSeq := r]), slotted + [t],
                served, issued)
  {
    var t := Ticket(s.nextSeq, r.channel, r.gen, r.text);
    assert (slotted + [t])[..s.serveSeq] == slotted[..s.serveSeq];
  }

  lemma {:induction false} SlottedOne(t: Ticket)
    ensures SlottedIn([Slotted(t)]) == [t] && ServedIn([Slotted(t)]) == [] && IssuedIn([Slotted(t)]) == {}
  {
    assert [Slotted(t)][1..] == [];
  }

  /** A job goes out: a turn-end summary takes a slot, watched until it lands. */
  lemma {:induction false} DispatchBook(s: Rules, ch: Id, gen: nat, text: string, leadin: bool,
                                        slotted: seq<Ticket>, served: seq<Ticket>, issued: set<Job>)
    requires Book(s, slotted, served, issued)
    ensures BookAfter(Dispatch(s, ch, gen, text, leadin).0, Dispatch(s, ch, gen, text, leadin).1, slotted, served,
        issued)
  {
    hide Book, SlottedIn, ServedIn, IssuedIn;
    var t := Ticket(s.nextSeq, ch, gen, text);
    var out := Dispatch(s, ch, gen, text, leadin).1;
    DispatchJob(s, ch, gen, text, leadin);
    DispatchIs1(s, ch, gen, text, leadin);
    DispatchTickets(out, leadin, t);
    assert served + [] == served && slotted + [] == slotted;
    if leadin {
      IssuedMore(s, Dispatch(s, ch, gen, text, leadin).0, slotted, served, issued, IssuedIn(out));
    } else {
      WatchedMore(s, Dispatch(s, ch, gen, text, leadin).0, t, slotted, served, issued, IssuedIn(out));
    }
  }

  lemma {:induction false} DispatchIs1(s: Rules, ch: Id, gen: nat, text: string, leadin: bool)
    ensures var s' := Dispatch(s, ch, gen, text, leadin).0;
            && s'.parked == s.parked && s'.serveSeq == s.serveSeq
            && (leadin ==> s'.nextSeq == s.nextSeq && s'.watched == s.watched)
            && (!leadin ==>
                  && s'.nextSeq == s.nextSeq + 1
                  && s'.watched == s.watched[s.nextSeq := Release(ch, gen, text, false, None)])
  {
  }

  lemma {:induction false} IssuedMore(s: Rules, s': Rules, slotted: seq<Ticket>, served: seq<Ticket>, issued: set<Job>,
      more: set<Job>)
    requires Book(s, slotted, served, issued) && SlotsSame(s, s') && forall j :: j in more ==> j.slot == None
    ensures Book(s', slotted, served, issued + more)
  {
  }

  lemma {:induction false} WatchedMore(s: Rules, s': Rules, t: Ticket, slotted: seq<Ticket>, served: seq<Ticket>,
      issued: set<Job>, more: set<Job>)
    requires Book(s, slotted, served, issued) && t.slot == s.nextSeq
    requires s'.parked == s.parked && s'.serveSeq == s.serveSeq && s'.nextSeq == s.nextSeq + 1
    requires s'.watched == s.watched[s.nextSeq := Release(t.channel, t.gen, t.text, false, None)]
    requires forall j :: j in more ==> j.slot == Some(s.nextSeq) && ForJob(j, t)
    ensures Book(s', slotted + [t], served, issued + more)
  {
    assert (slotted + [t])[..s.serveSeq] == slotted[..s.serveSeq];
  }

  lemma {:induction false} OneTicket(a: Action)
    ensures SlottedIn([a]) == (if a.Slotted? then [a.ticket] else [])
        && ServedIn([a]) == (if a.Served? then [a.ticket] else [])
  {
    assert [a][1..] == [];
  }

  lemma {:induction false} DispatchTickets(out: seq<Action>, leadin: bool, t: Ticket)
    requires if leadin then |out| == 1 && out[0].Summarize?
             else |out| == 3 && out[0] == Slotted(t) && out[1].Arm? && out[2].Summarize?
    ensures SlottedIn(out) == (if leadin then [] else [t]) && ServedIn(out) == []
  {
    hide SlottedIn, ServedIn;
    OneTicket(out[0]);
    if leadin {
      assert out == [out[0]];
    } else {
      OneTicket(out[1]);
      OneTicket(out[2]);
      TicketsAdd([out[0]], [out[1]]);
      TicketsAdd([out[0]] + [out[1]], [out[2]]);
      assert out == [out[0]] + [out[1]] + [out[2]];
    }
  }

  lemma {:induction false} DispatchJob(s: Rules, ch: Id, gen: nat, text: string, leadin: bool)
    ensures var out := Dispatch(s, ch, gen, text, leadin).1;
            forall j :: j in IssuedIn(out) ==> j.channel == ch && j.gen == gen && j.text == text
                                               && j.slot == if leadin then None else Some(s.nextSeq)
  {
  }

  lemma {:induction false} RawApart(env: Env, s: Rules, ch: Id, chunks: seq<string>)
    ensures Apart(SayRaw(env, s, ch, chunks))
  {
    hide SayEach, Say;
    EachPlain(env, s, ch, "", chunks);
    SayPlain(env, s, ch, JoinSpace(chunks), Prose, chunks);
    PlainApart(SayRaw(env, s, ch, chunks));
  }

  lemma {:induction false} SummarizingBook(env: Env, s: Rules, ch: Id, leadin: bool, focused: Option<Id>,
                                           slotted: seq<Ticket>, served: seq<Ticket>, issued: set<Job>)
    requires Book(s, slotted, served, issued)
    ensures var (s', out, _) := Summarizing(env, s, ch, leadin, focused); BookAfter(s', out, slotted, served, issued)
  {
    hide Book, BookAfter, HoldKept, FlushProse, SayRaw, Land, Dispatch, Ensure, JoinSpace, Kept, Light, Unslotted;
    var s0 := Ensure(s, ch);
    var c := s0.turns[ch];
    LightEnsure(s, ch);
    LightBook(s, s0, ch, [], slotted, served, issued);
    if !s.settings.summaries {
      LightHoldKept(s0, ch);
      LightAfter(s, s0, HoldKept(s0, ch), ch, []);
      LightBook(s, HoldKept(s0, ch), ch, [], slotted, served, issued);
      var flushed := FlushProse(env, HoldKept(s0, ch), ch);
      LightFlush(env, HoldKept(s0, ch), ch);
      LightAfter(s, HoldKept(s0, ch), flushed.0, ch, flushed.1);
      LightBook(s, flushed.0, ch, flushed.1, slotted, served, issued);
    } else {
      var chunks := if c.voiced <= |c.prose| then c.prose[c.voiced..] else [];
      var text := Trim(JoinSpace(chunks));
      var s1 := Set(s0, ch, c.(voiced := |c.prose|));
      EnsureSlots(s, ch);
      SlotsBook(s, s1, slotted, served, issued);
      RawApart(env, s1, ch, chunks);
      BookSame(s1, s1, SayRaw(env, s1, ch, chunks), slotted, served, issued);
      ShortBook(env, s1, Release(ch, c.gen, text, false, None), slotted, served, issued);
      DispatchBook(s1, ch, c.gen, text, leadin, slotted, served, issued);
    }
  }

  lemma {:induction false} EnsureSlots(s: Rules, ch: Id)
    ensures var s1 := Ensure(s, ch);
            s1.nextSeq == s.nextSeq && s1.serveSeq == s.serveSeq && s1.parked == s.parked && s1.watched == s.watched
  {
  }

  lemma {:induction false} SlotsBook(s: Rules, s': Rules, slotted: seq<Ticket>, served: seq<Ticket>, issued: set<Job>)
    requires Book(s, slotted, served, issued)
    requires s'.nextSeq == s.nextSeq && s'.serveSeq == s.serveSeq && s'.parked == s.parked && s'.watched == s.watched
    ensures Book(s', slotted, served, issued)
  {
    hide For, ForJob;
  }

  // ---- Inputs that leave the buffer alone ------------------------------------

  ghost predicate SlotsSame(s: Rules, s': Rules) {
    s'.nextSeq == s.nextSeq && s'.serveSeq == s.serveSeq && s'.parked == s.parked && s'.watched == s.watched
  }

  lemma {:induction false} EnqueueSlots(env: Env, s: Rules, ch: Id, item: Decision, digesting: bool)
    ensures SlotsSame(s, Enqueue(env, s, ch, item, digesting).0) && Apart(Enqueue(env, s, ch, item, digesting).1)
  {
    hide FlushProse, Light, SayDecision, AllPlain;
    var s1 := Ensure(s, ch);
    EnsureSlots(s, ch);
    LightFlush(env, s1, ch);
    LightKeeps(s1, FlushProse(env, s1, ch).0, ch, FlushProse(env, s1, ch).1);
    LightSays(s1, FlushProse(env, s1, ch).0, ch, FlushProse(env, s1, ch).1);
    PlainApart(FlushProse(env, s1, ch).1);
    SaidApart(env, s1, ch, item);
  }

  lemma {:induction false} LightSays(s: Rules, s': Rules, ch: Id, out: seq<Action>)
    requires Light(s, s', ch, out)
    ensures AllPlain(out)
  {
    hide TurnStep;
  }

  lemma {:induction false} SaidApart(env: Env, s: Rules, ch: Id, item: Decision)
    ensures Apart(SayDecision(env, s, ch, item))
  {
  }

  lemma {:induction false} SayingApart(env: Env, s: Rules, ch: Id, ds: seq<Decision>)
    ensures Apart(SayDecisions(env, s, ch, ds)) && Apart(Cancelling(ch, ds))
  {
    hide SayDecision;
    if ds != [] {
      SaidApart(env, s, ch, ds[0]);
      SayingApart(env, s, ch, ds[1..]);
    }
  }

  lemma {:induction false} EnqueueAllSlots(env: Env, s: Rules, ch: Id, items: seq<Decision>, digesting: bool)
    ensures SlotsSame(s, EnqueueAll(env, s, ch, items, digesting).0)
        && Apart(EnqueueAll(env, s, ch, items, digesting).1)
    decreases |items|
  {
    hide Enqueue;
    if items != [] {
      EnqueueSlots(env, s, ch, items[0], digesting);
      EnqueueAllSlots(env, Enqueue(env, s, ch, items[0], digesting).0, ch, items[1..], digesting);
    }
  }

  lemma {:induction false} WaitSlots(env: Env, s: Rules, ch: Id)
    ensures SlotsSame(s, ReleaseWait(env, s, ch).0) && Apart(ReleaseWait(env, s, ch).1)
  {
    hide EnqueueAll;
    var s1 := Ensure(s, ch);
    var s2 := Set(s1, ch, s1.turns[ch].(wait := None));
    EnqueueAllSlots(env, Set(s2, ch, s2.turns[ch].(pending := [])), ch, s2.turns[ch].pending, false);
  }

  lemma {:induction false} CatchUpSlots(s: Rules, ch: Id)
    ensures SlotsSame(s, CatchUp(s, ch).0)
  {
    hide D.Release, Waiting;
  }

  lemma {:induction false} StopSlots(s: Rules, chs: seq<Id>)
    ensures SlotsSame(s, StopAll(s, chs).0) && Apart(StopAll(s, chs).1)
    decreases |chs|
  {
    hide CatchUp, Cancelling;
    if chs != [] {
      var s1 := Ensure(s, chs[0]);
      var s2 := Set(s1, chs[0], s1.turns[chs[0]].(awaiting := false));
      EnsureSlots(s, chs[0]);
      CatchUpSlots(s2, chs[0]);
      CancelledApart(chs[0], CatchUp(s2, chs[0]).1);
      StopSlots(CatchUp(s2, chs[0]).0, chs[1..]);
    }
  }

  lemma {:induction false} CancelledApart(ch: Id, ds: seq<Decision>)
    ensures Apart(Cancelling(ch, ds))
  {
    if ds != [] {
      CancelledApart(ch, ds[1..]);
    }
  }

  lemma {:induction false} TurnStartSlots(s: Rules, ch: Id, turn: Option<string>, t: Option<int>)
    ensures SlotsSame(s, TurnStart(s, ch, turn, t).0) && Apart(TurnStart(s, ch, turn, t).1)
  {
    hide D.Release, Waiting, Cancelling, Retire, IsStale;
    var s1 := DropHeld(Renamed(Renamed(s)), ch).0;
    CancelledApart(ch, Waiting(s1.turns[ch]));
  }

  lemma {:induction false} AnsweredSlots(s: Rules, ch: Id)
    ensures SlotsSame(s, Answered(s, ch).0) && Apart(Answered(s, ch).1)
  {
    hide CatchUp, Cancelling, Settled;
    var s1 := Ensure(s, ch);
    EnsureSlots(s, ch);
    CatchUpSlots(Set(s1, ch, Settled(s1.turns[ch])), ch);
    CancelledApart(ch, CatchUp(Set(s1, ch, Settled(s1.turns[ch])), ch).1);
  }

  lemma {:induction false} FlushSlots(env: Env, s: Rules, ch: Id, queued: bool)
    ensures SlotsSame(s, Flush(env, s, ch).0) && Apart(Flush(env, s, ch).1)
    ensures SlotsSame(s, FlushReady(env, s, ch, queued).0) && Apart(FlushReady(env, s, ch, queued).1)
  {
    hide CatchUp, SayDecisions;
    if ch in s.turns {
      var s1 := Set(s, ch, s.turns[ch].(skipReply := true));
      CatchUpSlots(s1, ch);
      SayingApart(env, CatchUp(s1, ch).0, ch, CatchUp(s1, ch).1);
      CatchUpSlots(s, ch);
      EnsureSlots(CatchUp(s, ch).0, ch);
      SayingApart(env, Ensure(CatchUp(s, ch).0, ch), ch, CatchUp(s, ch).1);
    }
  }

  lemma {:induction false} LightSlots(s: Rules, s': Rules, ch: Id, out: seq<Action>)
    requires Light(s, s', ch, out)
    ensures SlotsSame(s, s') && Apart(out)
  {
    hide TurnStep;
    PlainApart(out);
  }

  lemma {:induction false} DecidedSlots(env: Env, s: Rules, ch: Id, ask: Ask, item: Decision)
    requires ch in s.turns
    ensures SlotsSame(s, Decided(env, s, ch, ask, item).0) && Apart(Decided(env, s, ch, ask, item).1)
  {
    hide Enqueue, WaitLeadIn, ArmSettle, Light;
    Existing(s, ch);
    var c := s.turns[ch];
    var s2 := Set(s, ch, c.(pending := c.pending + [item]));
    LightWait(s2, ch, ask.leadInId);
    var waited := WaitLeadIn(s2, ch, ask.leadInId);
    LightSlots(s2, waited.0, ch, waited.1);
    var w := if ask.later then waited else (s2, []);
    LightArm(w.0, ch);
    LightSlots(w.0, ArmSettle(w.0, ch).0, ch, ArmSettle(w.0, ch).1);
    EnqueueSlots(env, s, ch, item, false);
    EnqueueSlots(env, Set(s, ch, c.(heldProse := [])), ch, item, false);
    EnsureSlots(Enqueue(env, Set(s, ch, c.(heldProse := [])), ch, item, false).0, ch);
  }

  lemma {:induction false} AskSlots(env: Env, s: Rules, ch: Id, ask: Ask)
    ensures SlotsSame(s, AskFor(env, s, ch, ask).0) && Apart(AskFor(env, s, ch, ask).1)
  {
    hide ReleaseGap, Light, Asked, KeptForLater, TakeNumber, Decided, AskChimes, Item;
    LightReleaseGap(env, s, ch);
    var first := ReleaseGap(env, s, ch);
    LightSlots(s, first.0, ch, first.1);
    EnsureSlots(first.0, ch);
    var s1 := Ensure(first.0, ch);
    var c := s1.turns[ch];
    TakeNumberIs(s1, ch, ask);
    var s2 := TakeNumber(s1, ch, ask);
    LightSlots(s1, s2.(nextDecision := s1.nextDecision), ch, []);
    ChimesPlain(s1, c, ask);
    PlainApart(AskChimes(s1, c, ask));
    DecidedSlots(env, s2, ch, ask, Item(s1, c, ask));
  }

  lemma {:induction false} LeadInSlots(env: Env, s: Rules, ch: Id, turn: Option<string>, text: string,
      id: Option<string>, t: Option<int>)
    requires Sorted(s)
    ensures SlotsSame(s, TakeLeadIn(env, s, ch, turn, text, id, t).0)
        && Apart(TakeLeadIn(env, s, ch, turn, text, id, t).1)
  {
    hide ReadLeadIn, ReleaseWait, Light, IsStale, Sorted;
    LightReadLeadIn(env, s, ch, turn, text, t);
    var read := ReadLeadIn(env, s, ch, turn, text, t);
    LightSlots(s, read.0, ch, read.1);
    WaitSlots(env, s, ch);
    WaitSlots(env, read.0, ch);
  }

  // ---- Every input -----------------------------------------------------------

  lemma {:induction false} SettleBook(env: Env, s: Rules, ch: Id, gen: nat, focused: Option<Id>,
                                      slotted: seq<Ticket>, served: seq<Ticket>, issued: set<Job>)
    requires Book(s, slotted, served, issued)
    ensures var (s', out) := FireSettle(env, s, ch, gen, focused); BookAfter(s', out, slotted, served, issued)
  {
    hide Book, Summarizing, EnqueueAll, SlottedIn, ServedIn, IssuedIn, Set, Unslotted;
    SaysApart();
    BookSame(s, s, [], slotted, served, issued);
    if !(ch !in s.turns || s.turns[ch].settleGen != gen || !s.turns[ch].settleArmed) {
      var s1 := Set(s, ch, s.turns[ch].(settleArmed := false));
      SetSlots(s, ch, s.turns[ch].(settleArmed := false));
      BookSame(s, s1, [], slotted, served, issued);
      if s.turns[ch].wait == None {
        SetHas(s, ch, s.turns[ch].(settleArmed := false));
        var s2 := Set(s1, ch, s1.turns[ch].(pending := []));
        SetSlots(s1, ch, s1.turns[ch].(pending := []));
        SlotsBook(s, s2, slotted, served, issued);
        var items := s.turns[ch].pending;
        SummarizingBook(env, s2, ch, items != [], focused, slotted, served, issued);
        var (s3, out, digesting) := Summarizing(env, s2, ch, items != [], focused);
        EnqueueAllSlots(env, s3, ch, items, digesting);
        var rest := EnqueueAll(env, s3, ch, items, digesting);
        BookSame(s3, rest.0, rest.1, slotted + SlottedIn(out), served + ServedIn(out), issued + IssuedIn(out));
        BookThen(rest.0, out, rest.1, slotted, served, issued);
      }
    }
  }

  lemma {:induction false} SaysApart()
    ensures Apart([])
  {
  }

  lemma {:induction false} SetSlots(s: Rules, ch: Id, c: Turn)
    ensures SlotsSame(s, Set(s, ch, c))
  {
  }

  /** A watchdog serves its slot with the raw text. */
  lemma {:induction false} WatchdogBook(env: Env, s: Rules, k: nat, slotted: seq<Ticket>, served: seq<Ticket>,
      issued: set<Job>)
    requires Book(s, slotted, served, issued) && k in s.watched
    ensures k >= s.serveSeq && k !in s.parked
    ensures var (s', out) := Land(env, s.(watched := s.watched - {k}), Some(k), s.watched[k]);
        BookAfter(s', out, slotted, served, issued)
  {
    hide Serve, Apply, BookAfter, ForJob;
    var s1 := s.(watched := s.watched - {k});
    var s2 := s.(watched := s.watched - {k}, parked := s.parked[k := s.watched[k]]);
    assert Booked(s2, slotted, served, issued);
    ServeBook(env, s2, slotted, served, issued);
    assert s1.watched - {k} == s1.watched;
  }

  lemma {:induction false} FireBook(env: Env, s: Rules, timer: Timer, focused: Option<Id>,
                                    slotted: seq<Ticket>, served: seq<Ticket>, issued: set<Job>)
    requires Book(s, slotted, served, issued)
    ensures var (s', out) := Fire(env, s, timer, focused); BookAfter(s', out, slotted, served, issued)
  {
    hide Book, BookAfter, FireSettle, SayDecisions, Land, ReleaseWait, ReleaseGap, Light, Unslotted;
    SaysApart();
    BookSame(s, s, [], slotted, served, issued);
    match timer
    case Settle(ch, gen) => SettleBook(env, s, ch, gen, focused, slotted, served, issued);
    case HoldCap(ch, id) =>
      if ch in s.turns && s.turns[ch].held.Some? {
        SayingApart(env, s, ch, s.turns[ch].held.value.1);
        BookSame(s, Set(s, ch, s.turns[ch].(held := None)), SayDecisions(env, s, ch, s.turns[ch].held.value.1), slotted,
            served, issued);
      }
    case Watchdog(k) =>
      if k in s.watched {
        WatchdogBook(env, s, k, slotted, served, issued);
      }
    case LeadIn(ch, gen) =>
      WaitSlots(env, s, ch);
      BookSame(s, ReleaseWait(env, s, ch).0, ReleaseWait(env, s, ch).1, slotted, served, issued);
    case Gap(ch, gen) =>
      LightReleaseGap(env, s, ch);
      LightBook(s, ReleaseGap(env, s, ch).0, ch, ReleaseGap(env, s, ch).1, slotted, served, issued);
  }

  lemma {:induction false} DeliveredSlots(s: Rules, job: Job)
    ensures SlotsSame(s, Delivered(s, job))
  {
  }

  /** A job's answer lands under its slot: also late, after the watchdog, a second time, or for a
      channel that closed. */
  lemma {:induction false} DigestBook(env: Env, s: Rules, job: Job, summary: Option<string>,
                                      slotted: seq<Ticket>, served: seq<Ticket>, issued: set<Job>)
    requires Book(s, slotted, served, issued) && job in issued
    ensures var (s', out) := DigestDone(env, s, job, summary); BookAfter(s', out, slotted, served, issued)
  {
    hide Land, Delivered, SayDecisions, HeldFor, SlottedIn, ServedIn, IssuedIn, Unslotted, SlotsSame;
    var s1 := Delivered(s, job);
    DeliveredSlots(s, job);
    SameSlots(s, s1);
    SlotsBook(s, s1, slotted, served, issued);
    var r := Release(job.channel, job.gen, job.text, job.leadin, summary);
    LandBook(env, s1, job.slot, r, slotted, served, issued);
    var landed := Land(env, s1, job.slot, r);
    SayingApart(env, landed.0, job.channel, HeldFor(s, job));
    hide Book;
    BookSame(landed.0, landed.0, SayDecisions(env, landed.0, job.channel, HeldFor(s, job)),
             slotted + SlottedIn(landed.1), served + ServedIn(landed.1), issued + IssuedIn(landed.1));
    BookThen(landed.0, landed.1, SayDecisions(env, landed.0, job.channel, HeldFor(s, job)), slotted, served, issued);
  }

  lemma {:induction false} SameSlots(s: Rules, s': Rules)
    requires SlotsSame(s, s')
    ensures s'.nextSeq == s.nextSeq && s'.serveSeq == s.serveSeq && s'.parked == s.parked && s'.watched == s.watched
  {
  }

  /** The summarizer answers only jobs that went out. */
  predicate Answers(op: Op, issued: set<Job>) {
    op.OpDigest? ==> op.job in issued
  }

  lemma {:induction false} StepSlots(env: Env, s: Rules, op: Op)
    requires Sorted(s) && !op.OpFire? && !op.OpDigest?
    ensures SlotsSame(s, Step(env, s, op).0) && Apart(Step(env, s, op).1)
  {
    hide SlotsSame, Light, Sorted, Stream, TakeLeadIn, Reply, TurnStart, TurnEnd, AskFor, ToolRuns, Answered, StopAll,
        Flush;
    hide FlushReady, TakeNewTurn, Close, SetMute;
    match op
    case OpStream(ch, turn, d, t) =>
      LightStream(env, s, ch, turn, d, t);
      LightSlots(s, Stream(env, s, ch, turn, d, t).0, ch, Stream(env, s, ch, turn, d, t).1);
    case OpLeadIn(ch, turn, text, id, t) => LeadInSlots(env, s, ch, turn, text, id, t);
    case OpReply(ch, turn, text, before, t) =>
      LightReply(env, s, ch, turn, text, before, t);
      LightSlots(s, Reply(env, s, ch, turn, text, before, t), ch, []);
    case OpTurnStart(ch, turn, t) => TurnStartSlots(s, ch, turn, t);
    case OpTurnEnd(ch, turn, t) =>
      LightTurnEnd(env, s, ch, turn, t);
      LightSlots(s, TurnEnd(env, s, ch, turn, t).0, ch, TurnEnd(env, s, ch, turn, t).1);
    case OpAsk(ch, ask) => AskSlots(env, s, ch, ask);
    case OpTool(ch, name, summary) =>
      LightTool(env, s, ch, name, summary);
      LightSlots(s, ToolRuns(env, s, ch, name, summary).0, ch, ToolRuns(env, s, ch, name, summary).1);
    case OpAnswered(ch) => AnsweredSlots(s, ch);
    case OpStopAll(chs) => StopSlots(s, chs);
    case OpFlush(ch) => FlushSlots(env, s, ch, false);
    case OpFlushReady(ch, queued) => FlushSlots(env, s, ch, queued);
    case OpNewTurn(ch) =>
      LightNewTurn(s, ch);
      LightSlots(s, TakeNewTurn(s, ch).0, ch, []);
    case OpClose(ch) => CloseSlots(s, ch);
    case OpMute(level) => SettingsSlots(s, s.whole, level);
    case OpWhole(on) => SettingsSlots(s, on, 0);
    case OpConfigure(settings) => ConfigureSlots(s, settings);
  }

  lemma {:induction false} CloseSlots(s: Rules, ch: Id)
    ensures SlotsSame(s, Close(s, ch).0) && Apart(Close(s, ch).1)
  {
    hide Cancelling, Waiting;
    if ch in s.turns {
      CancelledApart(ch, Waiting(s.turns[ch]));
    }
  }

  lemma {:induction false} SettingsSlots(s: Rules, on: bool, level: nat)
    ensures SlotsSame(s, s.(whole := on)) && SlotsSame(s, SetMute(s, level).0) && Apart(SetMute(s, level).1)
  {
  }

  lemma {:induction false} ConfigureSlots(s: Rules, settings: Settings)
    ensures SlotsSame(s, s.(settings := settings))
  {
  }

  lemma {:induction false} StepBook(env: Env, s: Rules, op: Op, slotted: seq<Ticket>, served: seq<Ticket>,
      issued: set<Job>)
    requires Sorted(s) && Book(s, slotted, served, issued) && Answers(op, issued)
    ensures var (s', out) := Step(env, s, op); BookAfter(s', out, slotted, served, issued)
  {
    if op.OpFire? {
      hide Book, BookAfter, Fire;
      FireBook(env, s, op.timer, op.focused, slotted, served, issued);
    } else if op.OpDigest? {
      hide Book, BookAfter, DigestDone;
      DigestBook(env, s, op.job, op.recap, slotted, served, issued);
    } else {
      hide Book, BookAfter, Step, Unslotted;
      StepSlots(env, s, op);
      SameSlots(s, Step(env, s, op).0);
      BookSame(s, Step(env, s, op).0, Step(env, s, op).1, slotted, served, issued);
    }
  }

  /** The answers in a run are of jobs that went out before. */
  ghost predicate Answering(env: Env, s: Rules, ops: seq<Op>, issued: set<Job>)
    decreases |ops|
  {
    ops != [] ==>
      && Answers(ops[0], issued)
      && var (s1, out) := Step(env, s, ops[0]); Answering(env, s1, ops[1..], issued + IssuedIn(out))
  }

  lemma {:induction false} RunBook(env: Env, s: Rules, ops: seq<Op>, timers: set<Timer>, slotted: seq<Ticket>,
      served: seq<Ticket>, issued: set<Job>)
    requires Live(s, timers) && Book(s, slotted, served, issued) && Answering(env, s, ops, issued)
    ensures var (s', out) := Run(env, s, ops); BookAfter(s', out, slotted, served, issued)
    decreases |ops|
  {
    hide Live, Book, Step, Outstanding, SlottedIn, ServedIn, IssuedIn, Answers;
    if ops == [] {
      SaysApart();
      BookSame(s, s, [], slotted, served, issued);
    } else {
      LiveSorted(s, timers);
      StepLive(env, s, ops[0], timers);
      StepBook(env, s, ops[0], slotted, served, issued);
      var (s1, out) := Step(env, s, ops[0]);
      RunBook(env, s1, ops[1..], Outstanding(timers, ops[0], out), slotted + SlottedIn(out), served + ServedIn(out),
          issued + IssuedIn(out));
      BookThen(Run(env, s1, ops[1..]).0, out, Run(env, s1, ops[1..]).1, slotted, served, issued);
    }
  }

  /** Whatever the interleaving of dispatches, answers (late, or after a watchdog), watchdogs, cancels
      and closes: the slots served are 0, 1, 2, ..., each once and in that order, each with what it was
      given out for, and every slot not served yet is parked or watched, never both. */
  lemma {:induction false} ServedInOrder(env: Env, settings: Settings, ops: seq<Op>)
    requires Answering(env, Start(settings), ops, {})
    ensures var (s', out) := Run(env, Start(settings), ops);
            var slotted, served := SlottedIn(out), ServedIn(out);
            && |slotted| == s'.nextSeq && (forall k :: 0 <= k < |slotted| ==> slotted[k].slot == k)
            && s'.serveSeq <= |slotted| && served == slotted[..s'.serveSeq]
            && s'.parked.Keys !! s'.watched.Keys
            && (forall k :: k in s'.parked || k in s'.watched <==> s'.serveSeq <= k < s'.nextSeq)
  {
    hide Live, Run, SlottedIn, ServedIn, IssuedIn, Answering, Book, Start;
    StartLive(settings);
    var s := Start(settings);
    StartBook(settings);
    RunBook(env, s, ops, {}, [], [], {});
    var (s', out) := Run(env, s, ops);
    assert [] + SlottedIn(out) == SlottedIn(out) && [] + ServedIn(out) == ServedIn(out);
    BookSays(s', SlottedIn(out), ServedIn(out), {} + IssuedIn(out));
  }

  lemma {:induction false} StartBook(settings: Settings)
    ensures Book(Start(settings), [], [], {})
  {
  }

  lemma {:induction false} BookSays(s: Rules, slotted: seq<Ticket>, served: seq<Ticket>, issued: set<Job>)
    requires Book(s, slotted, served, issued)
    ensures |slotted| == s.nextSeq && (forall k :: 0 <= k < |slotted| ==> slotted[k].slot == k)
    ensures s.serveSeq <= |slotted| && served == slotted[..s.serveSeq]
    ensures s.parked.Keys !! s.watched.Keys
    ensures forall k :: k in s.parked || k in s.watched <==> s.serveSeq <= k < s.nextSeq
  {
    hide For, ForJob;
  }

  /** With no slot watched (every watchdog fired) everything given out was served. */
  lemma {:induction false} AllServed(s: Rules, slotted: seq<Ticket>, served: seq<Ticket>, issued: set<Job>)
    requires Book(s, slotted, served, issued) && s.watched == map[]
    ensures s.serveSeq == s.nextSeq && served == slotted
  {
    assert s.serveSeq < s.nextSeq ==> s.serveSeq in s.parked || s.serveSeq in s.watched;
    assert slotted[..|slotted|] == slotted;
  }
}
