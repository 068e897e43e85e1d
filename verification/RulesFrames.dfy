/** What most inputs leave alone: decisions waiting, summary work, the reorder buffer, other channels. */
module RulesFrames {
  import opened Options
  import opened Wordings
  import D = DeltaOrders
  import opened RulesModel

  /** An action that reads no decision and comes from no summary. */
  predicate Plain(a: Action) {
    match a
    case Speak(_, _, number, release, _, _) => number == None && release == None
    case Store(_, _, number, release, _, _) => number == None && release == None
    case Play(_) => true
    case Arm(t) => t.Settle? || t.Gap? || t.LeadIn?
    case _ => false
  }

  ghost predicate AllPlain(out: seq<Action>) {
    forall a :: a in out ==> Plain(a)
  }

  /** One turn's step: the decisions and the summary work stay; what waits for a timer has it armed;
      a gap that opens is named past `low`. */
  ghost predicate TurnStep(c: Turn, c': Turn, ch: Id, low: nat, out: seq<Action>) {
    && c'.pending == c.pending && c'.held == c.held && c'.inflight == c.inflight && c'.lastToken == c.lastToken
    && (c.settleArmed ==> c'.settleArmed)
    && (c'.settleArmed ==> (c.settleArmed && c'.settleGen == c.settleGen) || Arm(Settle(ch, c'.settleGen)) in out)
    && (D.Valid(c.order) ==> D.Valid(c'.order))
    && (c'.order.ahead != [] ==>
          || (c.order.ahead != [] && c'.order.gen == c.order.gen)
          || (Arm(Gap(ch, c'.order.gen)) in out && c'.order.gen > low))
    && (c.wait.Some? ==> c'.wait.Some? && c'.wait.value.gen == c.wait.value.gen)
    && (c'.wait.Some? ==> c.wait.Some? || Arm(LeadIn(ch, c'.wait.value.gen)) in out)
  }

  /** The turn before, or the one a first mention makes. */
  function Was(s: Rules, ch: Id): Turn {
    if ch in s.turns then s.turns[ch] else Begun(0)
  }

  /** Nothing but `ch`'s turn changes, and of it neither decisions nor summary work nor its name. */
  ghost predicate Light(s: Rules, s': Rules, ch: Id, out: seq<Action>) {
    && s' == s.(turns := s'.turns, nextGen := s'.nextGen) && s'.nextGen >= s.nextGen
    && (forall x :: x in s'.turns <==> x in s.turns || (x == ch && ch in s'.turns))
    && (forall x :: x in s.turns && x != ch ==> s'.turns[x] == s.turns[x])
    && (ch in s.turns && ch in s'.turns ==> s'.turns[ch].gen == s.turns[ch].gen)
    && (ch !in s.turns && ch in s'.turns ==> s.nextGen < s'.turns[ch].gen <= s'.nextGen)
    && (ch in s.turns ==> ch in s'.turns)
    && (ch in s'.turns ==> TurnStep(Was(s, ch), s'.turns[ch], ch, s.nextGen, out))
    && AllPlain(out)
  }

  lemma {:induction false} StepThen(c: Turn, c1: Turn, c2: Turn, ch: Id, low: nat, low1: nat, out: seq<Action>,
      more: seq<Action>)
    requires TurnStep(c, c1, ch, low, out) && TurnStep(c1, c2, ch, low1, more) && low <= low1
    ensures TurnStep(c, c2, ch, low, out + more)
  {
    hide D.Valid;
  }

  lemma {:induction false} LightThen(s: Rules, s1: Rules, s2: Rules, ch: Id, out: seq<Action>, more: seq<Action>)
    requires Light(s, s1, ch, out) && Light(s1, s2, ch, more)
    ensures Light(s, s2, ch, out + more)
  {
    hide TurnStep, Plain;
    if ch in s2.turns {
      if ch in s1.turns {
        StepThen(Was(s, ch), s1.turns[ch], s2.turns[ch], ch, s.nextGen, s1.nextGen, out, more);
      } else {
        StepLater(Was(s1, ch), s2.turns[ch], ch, s1.nextGen, s.nextGen, more, out);
      }
    }
  }

  lemma {:induction false} StepLater(c: Turn, c': Turn, ch: Id, low: nat, lower: nat, out: seq<Action>,
      first: seq<Action>)
    requires TurnStep(c, c', ch, low, out) && lower <= low
    ensures TurnStep(c, c', ch, lower, first + out)
  {
    hide D.Valid;
  }

  lemma {:induction false} LightSame(s: Rules, ch: Id)
    ensures Light(s, s, ch, [])
  {
  }

  lemma {:induction false} LightEnsure(s: Rules, ch: Id)
    ensures Light(s, Ensure(s, ch), ch, [])
  {
  }

  /** A change of the turn that keeps what `TurnStep` is about. */
  ghost predicate Minor(c: Turn, c': Turn) {
    && c'.pending == c.pending && c'.held == c.held && c'.inflight == c.inflight && c'.lastToken == c.lastToken
    && c'.settleArmed == c.settleArmed && c'.settleGen == c.settleGen && c'.gen == c.gen
    && (D.Valid(c.order) ==> D.Valid(c'.order))
    && (c'.order.ahead != [] ==> c.order.ahead != [] && c'.order.gen == c.order.gen)
    && (c.wait.Some? <==> c'.wait.Some?) && (c.wait.Some? ==> c'.wait.value.gen == c.wait.value.gen)
  }

  lemma {:induction false} MinorStep(c: Turn, c': Turn, ch: Id, low: nat, out: seq<Action>)
    requires Minor(c, c')
    ensures TurnStep(c, c', ch, low, out)
  {
    hide D.Valid;
  }

  lemma {:induction false} MinorGen(c: Turn, c': Turn)
    requires Minor(c, c')
    ensures c'.gen == c.gen
  {
    hide D.Valid;
  }

  /** `Ensure`, then a minor change. */
  lemma {:induction false} LightSet(s: Rules, ch: Id, c': Turn, out: seq<Action>)
    requires Minor(Ensure(s, ch).turns[ch], c') && AllPlain(out)
    ensures Light(s, Set(Ensure(s, ch), ch, c'), ch, out)
  {
    hide Minor, Plain, TurnStep;
    MinorStep(Ensure(s, ch).turns[ch], c', ch, s.nextGen, out);
    MinorGen(Ensure(s, ch).turns[ch], c');
    NewStep(s, ch, c', out);
  }

  lemma {:induction false} NewStep(s: Rules, ch: Id, c': Turn, out: seq<Action>)
    requires TurnStep(Ensure(s, ch).turns[ch], c', ch, s.nextGen, out)
    ensures TurnStep(Was(s, ch), c', ch, s.nextGen, out)
  {
    hide D.Valid;
  }

  lemma {:induction false} ReleasedOrder(o: D.Order)
    ensures D.Valid(D.Release(o).0) && D.Release(o).0.ahead == []
  {
    D.ReleaseMovesTheName(o);
  }

  lemma {:induction false} LightDropHeld(s: Rules, ch: Id)
    ensures Light(s, DropHeld(s, ch).0, ch, []) && ch in DropHeld(s, ch).0.turns
  {
    hide Light, D.Release, D.Valid;
    var c := Ensure(s, ch).turns[ch];
    ReleasedOrder(c.order);
    LightSet(s, ch, c.(heldProse := [], order := D.Release(c.order).0), []);
  }

  lemma {:induction false} LightHoldKept(s: Rules, ch: Id)
    ensures Light(s, HoldKept(s, ch), ch, [])
  {
    hide Light, Kept, D.Valid;
    var c := Ensure(s, ch).turns[ch];
    LightSet(s, ch, c.(heldProse := Kept(c) + c.heldProse, voiced := |c.prose|), []);
  }

  lemma {:induction false} SayPlain(env: Env, s: Rules, ch: Id, text: string, kind: Kind, parts: seq<string>)
    ensures AllPlain(Say(env, s, ch, text, None, None, kind, parts))
  {
  }

  lemma {:induction false} EachPlain(env: Env, s: Rules, ch: Id, head: string, texts: seq<string>)
    ensures AllPlain(SayEach(env, s, ch, head, texts))
  {
    hide Plain, Say;
    if texts != [] {
      SayPlain(env, s, ch, head + texts[0], Prose, [texts[0]]);
      EachPlain(env, s, ch, head, texts[1..]);
    }
  }

  lemma {:induction false} ProsePlain(env: Env, s: Rules, ch: Id, held: seq<(string, bool)>)
    ensures AllPlain(SayProse(env, s, ch, held))
  {
    hide Plain, Say, Joined, Parts;
    if held != [] {
      SayPlain(env, s, ch, Joined(MARK, true, held), Prose, Parts(held));
      EachPlain(env, s, ch, MARK, Parts(held));
    }
  }

  lemma {:induction false} LightFlushUpto(env: Env, s: Rules, ch: Id, n: nat)
    ensures Light(s, FlushUpto(env, s, ch, n).0, ch, FlushUpto(env, s, ch, n).1)
  {
    hide Light, SayProse, D.Valid;
    var s1 := Ensure(s, ch);
    var c := s1.turns[ch];
    var k := if n < |c.heldProse| then n else |c.heldProse|;
    ProsePlain(env, s1, ch, c.heldProse[..k]);
    LightSet(s, ch, c.(heldProse := c.heldProse[k..]), SayProse(env, s1, ch, c.heldProse[..k]));
  }

  lemma {:induction false} LightFlush(env: Env, s: Rules, ch: Id)
    ensures Light(s, FlushProse(env, s, ch).0, ch, FlushProse(env, s, ch).1)
  {
    hide Light, FlushUpto;
    LightFlushUpto(env, s, ch, if ch in s.turns then |s.turns[ch].heldProse| else 0);
  }

  // ---- Assembling ------------------------------------------------------------

  /** Feeding deltas changes only what the assembler keeps. */
  ghost predicate Fed(c: Turn, c': Turn) {
    c' == c.(fed := c'.fed, newPara := c'.newPara, lastIndex := c'.lastIndex, prose := c'.prose)
  }

  lemma {:induction false} FedThen(c: Turn, c1: Turn, c2: Turn)
    requires Fed(c, c1) && Fed(c1, c2)
    ensures Fed(c, c2)
  {
  }

  lemma {:induction false} FedSame(c: Turn)
    ensures Fed(c, c)
  {
  }

  lemma {:induction false} ChunkFed(env: Env, d: Draft, chunk: Chunk, skipCode: bool)
    ensures Fed(d.c, FeedChunk(env, d, chunk, skipCode).c)
  {
  }

  lemma {:induction false} ChunksFed(env: Env, d: Draft, chunks: seq<Chunk>, skipCode: bool)
    ensures Fed(d.c, FeedChunks(env, d, chunks, skipCode).c)
    decreases |chunks|
  {
    hide Fed, FeedChunk;
    FedSame(d.c);
    if chunks != [] {
      var d1 := FeedChunk(env, d, chunks[0], skipCode);
      ChunkFed(env, d, chunks[0], skipCode);
      ChunksFed(env, d1, chunks[1..], skipCode);
      FedThen(d.c, d1.c, FeedChunks(env, d1, chunks[1..], skipCode).c);
    }
  }

  lemma {:induction false} NumberingFed(c: Turn, x: D.Delta)
    ensures Fed(c, Numbering(c, x))
  {
  }

  lemma {:induction false} ClosingFed(d: Draft, fin: bool)
    ensures Fed(d.c, Closing(d, fin).c)
  {
  }

  lemma {:induction false} DeltaFed(env: Env, d: Draft, x: D.Delta, skipCode: bool)
    ensures Fed(d.c, FeedDelta(env, d, x, skipCode).c)
  {
    hide FeedChunks, Fed, Numbering, Closing;
    NumberingFed(d.c, x);
    var d0 := d.(c := Numbering(d.c, x));
    var d1 := FeedChunks(env, d0, env.feed(d.c.fed, x), skipCode);
    ChunksFed(env, d0, env.feed(d.c.fed, x), skipCode);
    ClosingFed(d1, x.fin);
    FedThen(d.c, d0.c, d1.c);
    FedThen(d.c, d1.c, Closing(d1, x.fin).c);
  }

  lemma {:induction false} DeltasFed(env: Env, d: Draft, deltas: seq<D.Delta>, skipCode: bool)
    ensures Fed(d.c, FeedDeltas(env, d, deltas, skipCode).c)
    decreases |deltas|
  {
    hide FeedDelta, Fed;
    FedSame(d.c);
    if deltas != [] {
      var d1 := FeedDelta(env, d, deltas[0], skipCode);
      DeltaFed(env, d, deltas[0], skipCode);
      DeltasFed(env, d1, deltas[1..], skipCode);
      FedThen(d.c, d1.c, FeedDeltas(env, d1, deltas[1..], skipCode).c);
    }
  }

  lemma {:induction false} LightArm(s: Rules, ch: Id)
    ensures Light(s, ArmSettle(s, ch).0, ch, ArmSettle(s, ch).1)
  {
  }

  lemma {:induction false} LightHold(env: Env, s: Rules, ch: Id, c: Turn, texts: seq<(string, bool)>,
      breaks: Option<nat>)
    requires ch in s.turns && Minor(s.turns[ch], c)
    ensures Light(s, Hold(env, s, ch, c, texts, breaks).0, ch, Hold(env, s, ch, c, texts, breaks).1)
  {
    hide Light, Ready, FlushUpto, FlushProse, D.Valid;
    var c1 := c.(heldProse := c.heldProse + texts);
    var upto := |c.heldProse| + (if breaks.Some? then breaks.value else 0);
    LightSet(s, ch, c, []);
    LightSet(s, ch, c1, []);
    var s1 := Set(s, ch, c1);
    LightFlush(env, s1, ch);
    LightFlushUpto(env, s1, ch, upto);
    LightThen(s, s1, FlushProse(env, s1, ch).0, ch, [], FlushProse(env, s1, ch).1);
    LightThen(s, s1, FlushUpto(env, s1, ch, upto).0, ch, [], FlushUpto(env, s1, ch, upto).1);
    NothingBefore(FlushProse(env, s1, ch).1);
    NothingBefore(FlushUpto(env, s1, ch, upto).1);
  }

  lemma {:induction false} NothingBefore(out: seq<Action>)
    ensures [] + out == out && out + [] == out
  {
  }

  lemma {:induction false} LightAssemble(env: Env, s: Rules, ch: Id, deltas: seq<D.Delta>)
    ensures Light(s, Assemble(env, s, ch, deltas).0, ch, Assemble(env, s, ch, deltas).1)
  {
    hide Light, FeedDeltas, Hold, ArmSettle, Kept, D.Valid;
    LightSame(s, ch);
    if deltas != [] {
      var s1 := Ensure(s, ch);
      var c0 := s1.turns[ch];
      var kept := if s.settings.summaries then [] else Kept(c0);
      var d0 := Draft(if s.settings.summaries then c0 else c0.(voiced := |c0.prose|), kept, None);
      var d := FeedDeltas(env, d0, deltas, s.settings.verbosity == SkipCode);
      DeltasFed(env, d0, deltas, s.settings.verbosity == SkipCode);
      if s.settings.summaries {
        var s2 := Set(s1, ch, d.c);
        LightSet(s, ch, d.c, []);
        LightArm(s2, ch);
        LightThen(s, s2, ArmSettle(s2, ch).0, ch, [], ArmSettle(s2, ch).1);
        NothingBefore(ArmSettle(s2, ch).1);
      } else {
        LightEnsure(s, ch);
        var h := Hold(env, s1, ch, d.c.(voiced := |d.c.prose|), d.texts, d.breaks);
        LightHold(env, s1, ch, d.c.(voiced := |d.c.prose|), d.texts, d.breaks);
        LightThen(s, s1, h.0, ch, [], h.1);
        NothingBefore(h.1);
      }
    }
  }

  lemma {:induction false} LightReleaseGap(env: Env, s: Rules, ch: Id)
    ensures Light(s, ReleaseGap(env, s, ch).0, ch, ReleaseGap(env, s, ch).1)
  {
    hide Light, Assemble, D.Release, D.Valid;
    var s1 := Ensure(s, ch);
    var c := s1.turns[ch];
    var (order, ready) := D.Release(c.order);
    ReleasedOrder(c.order);
    var s2 := Set(s1, ch, c.(order := order));
    LightSet(s, ch, c.(order := order), []);
    LightAssemble(env, s2, ch, ready);
    LightThen(s, s2, Assemble(env, s2, ch, ready).0, ch, [], Assemble(env, s2, ch, ready).1);
    NothingBefore(Assemble(env, s2, ch, ready).1);
  }

  // ---- Streams ---------------------------------------------------------------

  /** A delta accepted: a gap that opens is named afresh and timed. */
  lemma {:induction false} LightNamed(s: Rules, ch: Id, x: D.Delta)
    requires ch in s.turns && D.Valid(s.turns[ch].order)
    ensures var c := s.turns[ch]; var (order, ready, gap) := D.Accept(c.order, x); var gen := s.nextGen + 1;
            if gap then Light(s, Set(Renamed(s), ch, c.(order := order.(gen := gen))), ch, [Arm(Gap(ch, gen))])
            else Light(s, Set(s, ch, c.(order := order)), ch, [])
  {
    hide D.Accept, D.Valid, Light, TurnStep, AllPlain;
    var c := s.turns[ch];
    var (order, ready, gap) := D.Accept(c.order, x);
    D.GapKeepsItsName(c.order, x);
    D.AcceptConserves(c.order, x);
    if gap {
      ValidNamed(order, s.nextGen + 1);
      OrderStep(c, order.(gen := s.nextGen + 1), ch, s.nextGen, [Arm(Gap(ch, s.nextGen + 1))]);
      LightGap(s, ch, order.(gen := s.nextGen + 1), s.nextGen + 1);
    } else {
      NonePlain();
      OrderStep(c, order, ch, s.nextGen, []);
      LightGap(s, ch, order, 0);
    }
  }

  lemma {:induction false} OrderStep(c: Turn, order: D.Order, ch: Id, low: nat, out: seq<Action>)
    requires D.Valid(order)
    requires order.ahead != [] ==>
               (c.order.ahead != [] && order.gen == c.order.gen) || (Arm(Gap(ch, order.gen)) in out && order.gen > low)
    ensures TurnStep(c, c.(order := order), ch, low, out)
  {
    hide D.Valid;
  }

  lemma {:induction false} LightGap(s: Rules, ch: Id, order: D.Order, gen: nat)
    requires ch in s.turns
    ensures var c := s.turns[ch].(order := order);
            && (TurnStep(s.turns[ch], c, ch, s.nextGen, [Arm(Gap(ch, gen))]) ==>
                Light(s, Set(Renamed(s), ch, c), ch, [Arm(Gap(ch, gen))]))
            && (TurnStep(s.turns[ch], c, ch, s.nextGen, []) ==> Light(s, Set(s, ch, c), ch, []))
  {
    hide TurnStep;
  }

  lemma {:induction false} ValidNamed(o: D.Order, gen: nat)
    requires D.Valid(o)
    ensures D.Valid(o.(gen := gen))
  {
  }

  /** Every channel's held deltas are in order. */
  ghost predicate Sorted(s: Rules) {
    forall ch :: ch in s.turns ==> D.Valid(s.turns[ch].order)
  }

  lemma {:induction false} LightSorted(s: Rules, s': Rules, ch: Id, out: seq<Action>)
    requires Sorted(s) && Light(s, s', ch, out)
    ensures Sorted(s')
  {
    hide D.Valid, AllPlain;
    FreshSorted();
  }

  lemma {:induction false} FreshSorted()
    ensures D.Valid(Begun(0).order)
  {
  }

  lemma {:induction false} EnsureSorted(s: Rules, ch: Id)
    requires Sorted(s)
    ensures Sorted(Ensure(s, ch)) && D.Valid(Ensure(s, ch).turns[ch].order)
  {
  }

  lemma {:induction false} LightAccepted(env: Env, s: Rules, ch: Id, x: D.Delta)
    requires Sorted(s)
    ensures Light(s, Accepted(env, s, ch, x).0, ch, Accepted(env, s, ch, x).1)
  {
    hide Light, Assemble, D.Accept, D.Valid, Sorted;
    EnsureSorted(s, ch);
    LightEnsure(s, ch);
    var s1 := Ensure(s, ch);
    var c := s1.turns[ch];
    LightNamed(s1, ch, x);
    var (order, ready, gap) := D.Accept(c.order, x);
    var gen := s1.nextGen + 1;
    var s2 := if gap then Set(Renamed(s1), ch, c.(order := order.(gen := gen))) else Set(s1, ch, c.(order := order));
    var armed := if gap then [Arm(Gap(ch, gen))] else [];
    LightThen(s, s1, s2, ch, [], armed);
    NothingBefore(armed);
    LightAssemble(env, s2, ch, ready);
    LightThen(s, s2, Assemble(env, s2, ch, ready).0, ch, armed, Assemble(env, s2, ch, ready).1);
    NothingBefore(Assemble(env, s2, ch, ready).1);
  }

  lemma {:induction false} LightOrdered(env: Env, s: Rules, ch: Id, x: D.Delta)
    requires Sorted(s) && ch in s.turns
    ensures Light(s, Ordered(env, s, ch, x).0, ch, Ordered(env, s, ch, x).1)
  {
    hide Light, ReleaseGap, Accepted, Sorted;
    LightSame(s, ch);
    var o := s.turns[ch].order;
    LightReleaseGap(env, s, ch);
    var first := if x.index == 0 && o.next > 0 && o.ahead != [] then ReleaseGap(env, s, ch) else (s, []);
    LightSorted(s, first.0, ch, first.1);
    LightAccepted(env, first.0, ch, x);
    LightThen(s, first.0, Accepted(env, first.0, ch, x).0, ch, first.1, Accepted(env, first.0, ch, x).1);
  }

  lemma {:induction false} NotedMinor(env: Env, c: Turn, x: D.Delta)
    ensures Minor(c, Noted(env, c, x))
  {
    hide D.Valid;
  }

  lemma {:induction false} MinorThen(c: Turn, c1: Turn, c2: Turn)
    requires Minor(c, c1) && Minor(c1, c2)
    ensures Minor(c, c2)
  {
    hide D.Valid;
  }

  /** Fields that `TurnStep` is not about. */
  lemma {:induction false} MinorFields(c: Turn, leadIn: Option<string>, fed: seq<D.Delta>)
    ensures Minor(c, c) && Minor(c, c.(leadIn := leadIn)) && Minor(c, c.(fed := fed))
  {
    hide D.Valid;
  }

  lemma {:induction false} LightStream(env: Env, s: Rules, ch: Id, turn: Option<string>, x: D.Delta, t: Option<int>)
    requires Sorted(s)
    ensures Light(s, Stream(env, s, ch, turn, x, t).0, ch, Stream(env, s, ch, turn, x, t).1)
  {
    hide Light, Ordered, Sorted, Minor, IsStale, Noted, LeadInAgain, ReplyAgain, Set;
    LightSame(s, ch);
    if !IsStale(s, ch, turn, t) {
      var s1 := Ensure(s, ch);
      var c0 := s1.turns[ch];
      var c := Noted(env, c0, x);
      NotedMinor(env, c0, x);
      MinorFields(c, None, c.fed + [x]);
      MinorThen(c0, c, c.(leadIn := None));
      MinorThen(c0, c, c.(fed := c.fed + [x]));
      LightSet(s, ch, c.(leadIn := None), []);
      LightSet(s, ch, c, []);
      LightSet(s, ch, c.(fed := c.fed + [x]), []);
      var s2 := Set(s1, ch, c);
      SetHas(s1, ch, c);
      LightSorted(s, s2, ch, []);
      LightOrdered(env, s2, ch, x);
      LightThen(s, s2, Ordered(env, s2, ch, x).0, ch, [], Ordered(env, s2, ch, x).1);
      NothingBefore(Ordered(env, s2, ch, x).1);
    }
  }

  lemma {:induction false} SetHas(s: Rules, ch: Id, c: Turn)
    ensures ch in Set(s, ch, c).turns && Set(s, ch, c).turns[ch] == c
  {
  }

  // ---- The other light inputs ------------------------------------------------

  /** A light step, then a minor change of the turn. */
  lemma {:induction false} LightMinor(s: Rules, s1: Rules, ch: Id, c': Turn, out: seq<Action>)
    requires Light(s, s1, ch, out) && Minor(Ensure(s1, ch).turns[ch], c')
    ensures Light(s, Set(Ensure(s1, ch), ch, c'), ch, out)
  {
    hide Light, Minor, Set;
    NothingBefore(out);
    NonePlain();
    LightSet(s1, ch, c', []);
    LightThen(s, s1, Set(Ensure(s1, ch), ch, c'), ch, out, []);
  }

  lemma {:induction false} NonePlain()
    ensures AllPlain([])
  {
  }

  /** Two light steps, when the first says nothing. */
  lemma {:induction false} LightAfter(s: Rules, s1: Rules, s2: Rules, ch: Id, out: seq<Action>)
    requires Light(s, s1, ch, []) && Light(s1, s2, ch, out)
    ensures Light(s, s2, ch, out)
  {
    hide Light;
    LightThen(s, s1, s2, ch, [], out);
    NothingBefore(out);
  }

  lemma {:induction false} SkipMinor(c: Turn, skip: bool, text: string)
    ensures Minor(c, c.(skipReply := skip)) && Minor(c, Led(c, skip, text)) && Minor(c, Settled(c))
        && Minor(c, Ended(c))
    ensures Minor(c, Rewound(c)) && Minor(c, Reopened(c)) && Minor(c, c.(released := true))
  {
    hide D.Valid;
  }

  lemma {:induction false} ReplyMinor(c: Turn, reply: Option<(string, Option<string>)>)
    ensures Minor(c, c.(reply := reply))
  {
    hide D.Valid;
  }

  lemma {:induction false} RestartMinor(env: Env, c: Turn, text: string)
    requires c.order.ahead == []
    ensures Minor(c, Restarted(env, c, text))
  {
  }

  lemma {:induction false} DroppedAhead(s: Rules, ch: Id)
    ensures ch in DropHeld(s, ch).0.turns && DropHeld(s, ch).0.turns[ch].order.ahead == []
  {
    ReleasedOrder(Ensure(s, ch).turns[ch].order);
    hide D.Release;
  }

  lemma {:induction false} LightReadLeadIn(env: Env, s: Rules, ch: Id, turn: Option<string>, text: string,
      t: Option<int>)
    requires Sorted(s)
    ensures Light(s, ReadLeadIn(env, s, ch, turn, text, t).0, ch, ReadLeadIn(env, s, ch, turn, text, t).1)
  {
    hide Light, Sorted, Minor, Stream, DropHeld, Set, Led, Ensure;
    var d := if s.settings.mode == Final then DropHeld(s, ch).0 else s;
    LightSame(s, ch);
    LightDropHeld(s, ch);
    var s0 := Ensure(d, ch);
    var c := s0.turns[ch];
    SkipMinor(c, false, "");
    LightMinor(s, d, ch, c.(skipReply := false), []);
    var s1 := Set(s0, ch, c.(skipReply := false));
    LightSorted(s, s1, ch, []);
    LightStream(env, s1, ch, turn, D.Delta(text, 0, true), t);
    var (s2, out) := Stream(env, s1, ch, turn, D.Delta(text, 0, true), t);
    LightAfter(s, s1, s2, ch, out);
    SkipMinor(Ensure(s2, ch).turns[ch], c.skipReply, env.fold(text));
    LightMinor(s, s2, ch, Led(Ensure(s2, ch).turns[ch], c.skipReply, env.fold(text)), out);
  }

  lemma {:induction false} LightReply(env: Env, s: Rules, ch: Id, turn: Option<string>, text: string,
      before: Option<string>, t: Option<int>)
    ensures Light(s, Reply(env, s, ch, turn, text, before, t), ch, [])
  {
    hide Light, Minor, Set, IsStale;
    LightSame(s, ch);
    NonePlain();
    if !IsStale(s, ch, turn, t) {
      var s1 := Ensure(s, ch);
      var b := if before.Some? && Trim(before.value) != "" then Some(Trim(before.value)) else None;
      var reply := if Trim(text) == "" then None else Some((Trim(text), b));
      ReplyMinor(s1.turns[ch], reply);
      LightSet(s, ch, s1.turns[ch].(reply := reply), []);
    }
  }

  lemma {:induction false} LightTakeReply(env: Env, s: Rules, ch: Id)
    ensures Light(s, TakeReply(env, s, ch).0, ch, TakeReply(env, s, ch).1)
  {
    hide Light, Minor, Set, DropHeld, Assemble, Restarted, Rewound, Ensure;
    NonePlain();
    var s1 := Ensure(s, ch);
    var c := s1.turns[ch];
    var s2 := Set(s1, ch, c.(reply := None));
    ReplyMinor(c, None);
    LightSet(s, ch, c.(reply := None), []);
    if !(c.reply == None || s.settings.mode != Final || c.skipReply) {
      var text := ReplyText(env, c.reply.value);
      var s3 := DropHeld(s2, ch).0;
      LightDropHeld(s2, ch);
      LightAfter(s, s2, s3, ch, []);
      DroppedAhead(s2, ch);
      RestartMinor(env, s3.turns[ch], text);
      Existing(s3, ch);
      LightMinor(s, s3, ch, Restarted(env, s3.turns[ch], text), []);
      var s4 := Set(s3, ch, Restarted(env, s3.turns[ch], text));
      LightAssemble(env, s4, ch, [D.Delta(text, 0, true)]);
      var (s5, out) := Assemble(env, s4, ch, [D.Delta(text, 0, true)]);
      LightAfter(s, s4, s5, ch, out);
      SkipMinor(Ensure(s5, ch).turns[ch], false, "");
      LightMinor(s, s5, ch, Rewound(Ensure(s5, ch).turns[ch]), out);
    }
  }

  lemma {:induction false} Existing(s: Rules, ch: Id)
    requires ch in s.turns
    ensures Ensure(s, ch) == s
  {
  }

  lemma {:induction false} LightEnding(env: Env, s: Rules, ch: Id)
    ensures Light(s, Ending(env, s, ch).0, ch, Ending(env, s, ch).1)
  {
    hide Light, Minor, Set, HoldKept, FlushProse, ArmSettle, Ensure, Ended;
    NonePlain();
    var s1 := Ensure(s, ch);
    SkipMinor(s1.turns[ch], false, "");
    var s2 := Set(s1, ch, Ended(s1.turns[ch]));
    LightSet(s, ch, Ended(s1.turns[ch]), []);
    LightHoldKept(s2, ch);
    LightAfter(s, s2, HoldKept(s2, ch), ch, []);
    var s3 := if s.settings.summaries then s2 else HoldKept(s2, ch);
    var (s4, out) := FlushProse(env, s3, ch);
    LightFlush(env, s3, ch);
    LightAfter(s, s3, s4, ch, out);
    LightArm(s4, ch);
    LightThen(s, s4, ArmSettle(s4, ch).0, ch, out, ArmSettle(s4, ch).1);
  }

  lemma {:induction false} ChimePlain(s: Rules, chime: Chime)
    ensures AllPlain(Chimed(s, chime))
  {
  }

  /** Saying something plain changes nothing. */
  lemma {:induction false} LightSaying(s: Rules, ch: Id, out: seq<Action>)
    requires AllPlain(out)
    ensures Light(s, s, ch, out)
  {
    hide Plain;
  }

  lemma {:induction false} LightTurnEnd(env: Env, s: Rules, ch: Id, turn: Option<string>, t: Option<int>)
    ensures Light(s, TurnEnd(env, s, ch, turn, t).0, ch, TurnEnd(env, s, ch, turn, t).1)
  {
    hide Light, ReleaseGap, TakeReply, Ending, IsStale, Chimed;
    LightSame(s, ch);
    ChimePlain(s, TurnDone);
    LightSaying(s, ch, Chimed(s, TurnDone));
    var (s1, out1) := ReleaseGap(env, s, ch);
    LightReleaseGap(env, s, ch);
    LightThen(s, s, s1, ch, Chimed(s, TurnDone), out1);
    var (s2, out2) := TakeReply(env, s1, ch);
    LightTakeReply(env, s1, ch);
    LightThen(s, s1, s2, ch, Chimed(s, TurnDone) + out1, out2);
    LightEnding(env, s2, ch);
    LightThen(s, s2, Ending(env, s2, ch).0, ch, Chimed(s, TurnDone) + out1 + out2, Ending(env, s2, ch).1);
  }

  lemma {:induction false} LightTool(env: Env, s: Rules, ch: Id, name: string, summary: string)
    ensures Light(s, ToolRuns(env, s, ch, name, summary).0, ch, ToolRuns(env, s, ch, name, summary).1)
  {
    hide Light, Minor, Set, ReleaseGap, FlushProse, Ensure, Settled, Say;
    NonePlain();
    var s1 := Ensure(s, ch);
    var c := Settled(s1.turns[ch]);
    SkipMinor(s1.turns[ch], false, "");
    var s2 := Set(s1, ch, c);
    LightSet(s, ch, c, []);
    SetHas(s1, ch, c);
    Existing(s2, ch);
    SkipMinor(c, false, "");
    LightMinor(s, s2, ch, c.(released := true), []);
    var s3 := if s.whole then s2 else Set(s2, ch, c.(released := true));
    var (s4, out4) := ReleaseGap(env, s3, ch);
    LightReleaseGap(env, s3, ch);
    LightAfter(s, s3, s4, ch, out4);
    var (s5, out5) := FlushProse(env, s4, ch);
    LightFlush(env, s4, ch);
    LightThen(s, s4, s5, ch, out4, out5);
    var said := Say(env, s, ch, ToolText(name, summary), None, None, Tool, []);
    SayPlain(env, s, ch, ToolText(name, summary), Tool, []);
    LightSaying(s5, ch, said);
    LightThen(s, s5, s5, ch, out4 + out5, said);
    LightSaying(s2, ch, said);
    LightAfter(s, s2, s2, ch, said);
    NothingBefore(said);
  }

  lemma {:induction false} WaitStep(c: Turn, ch: Id, low: nat, gen: nat, id: Option<string>)
    requires c.wait == None
    ensures TurnStep(c, c.(wait := Some(Wait(gen, id, []))), ch, low, [Arm(LeadIn(ch, gen))])
  {
    hide D.Valid;
  }

  /** A change of the turn under a new name. */
  lemma {:induction false} LightNaming(s: Rules, ch: Id, c: Turn, out: seq<Action>)
    requires ch in s.turns && c.gen == s.turns[ch].gen && TurnStep(s.turns[ch], c, ch, s.nextGen, out) && AllPlain(out)
    ensures Light(s, Set(Renamed(s), ch, c), ch, out)
  {
    hide TurnStep, Plain;
  }

  lemma {:induction false} LightWait(s: Rules, ch: Id, id: Option<string>)
    ensures Light(s, WaitLeadIn(s, ch, id).0, ch, WaitLeadIn(s, ch, id).1)
  {
    hide Light, Ensure, TurnStep, Set;
    LightEnsure(s, ch);
    var s1 := Ensure(s, ch);
    if s1.turns[ch].wait == None {
      var gen := s1.nextGen + 1;
      WaitStep(s1.turns[ch], ch, s1.nextGen, gen, id);
      LightNaming(s1, ch, s1.turns[ch].(wait := Some(Wait(gen, id, []))), [Arm(LeadIn(ch, gen))]);
      LightAfter(s, s1, WaitLeadIn(s, ch, id).0, ch, WaitLeadIn(s, ch, id).1);
    }
  }

  lemma {:induction false} LightNewTurn(s: Rules, ch: Id)
    ensures Light(s, TakeNewTurn(s, ch).0, ch, [])
  {
    hide Light, Minor, Set, Reopened;
    LightSame(s, ch);
    NonePlain();
    if ch in s.turns {
      Existing(s, ch);
      SkipMinor(s.turns[ch], false, "");
      LightSet(s, ch, Reopened(s.turns[ch]), []);
    }
  }

  /** An input of an earlier turn changes nothing and asks for nothing. */
  lemma {:induction false} RefusedIsIgnored(env: Env, s: Rules, op: Op)
    requires Refused(s, op)
    ensures Step(env, s, op) == (s, [])
  {
    hide IsStale, Ordered, ReadLeadIn, ReleaseWait, DropHeld, Cancel, Anew, ReleaseGap, TakeReply, Ending;
  }
}
