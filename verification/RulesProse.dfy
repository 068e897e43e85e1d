/**
 Prose is read in order and each chunk once: with summaries off, whatever the read mode, the queue
 length and the joining of messages do meanwhile.
 */
module RulesProse {
  import opened Options
  import opened Wordings
  import D = DeltaOrders
  import opened RulesModel
  import opened RulesFrames
  import opened RulesDecisions
  import opened RulesTimers

  // ---- What is heard, held, fed ----------------------------------------------

  function PartsOf(a: Action, x: Id): seq<string> {
    match a
    case Speak(ch, _, _, _, _, parts) => if ch == x then parts else []
    case Store(ch, _, _, _, _, parts) => if ch == x then parts else []
    case _ => []
  }

  /** The chunks of `x`'s prose read in `out`, in order. */
  function Heard(out: seq<Action>, x: Id): seq<string> {
    if out == [] then [] else PartsOf(out[0], x) + Heard(out[1..], x)
  }

  function HeldOf(s: Rules, x: Id): seq<string> {
    Parts(Was(s, x).heldProse)
  }

  function FedOf(s: Rules, x: Id): seq<D.Delta> {
    Was(s, x).fed
  }

  function AheadOf(s: Rules, x: Id): seq<D.Delta> {
    Was(s, x).order.ahead
  }

  // ---- What the assembler makes ----------------------------------------------

  /** What is read of a chunk. */
  function ReadOf(env: Env, chunk: Chunk, skipCode: bool): seq<string> {
    match chunk
    case Text(t) => [t]
    case Code(summary, lines, end) => if skipCode then [] else [env.codeBlock(summary, lines, end)]
    case ParagraphBreak => []
  }

  function ReadOfAll(env: Env, chunks: seq<Chunk>, skipCode: bool): seq<string> {
    if chunks == [] then [] else ReadOf(env, chunks[0], skipCode) + ReadOfAll(env, chunks[1..], skipCode)
  }

  /** The texts to read of the chunks an assembler that was fed `fed` makes of `more`. */
  function Made(env: Env, fed: seq<D.Delta>, more: seq<D.Delta>, skipCode: bool): seq<string>
    decreases |more|
  {
    if more == [] then []
    else ReadOfAll(env, env.feed(fed, more[0]), skipCode) + Made(env, fed + [more[0]], more[1..], skipCode)
  }

  lemma {:induction false} HeardAdd(a: seq<Action>, b: seq<Action>, x: Id)
    ensures Heard(a + b, x) == Heard(a, x) + Heard(b, x)
  {
    hide PartsOf;
    if a == [] {
      assert a + b == b;
    } else {
      assert (a + b)[1..] == a[1..] + b;
      HeardAdd(a[1..], b, x);
      assert PartsOf(a[0], x) + (Heard(a[1..], x) + Heard(b, x)) == (PartsOf(a[0], x) + Heard(a[1..], x)) + Heard(b, x);
    }
  }

  lemma {:induction false} MadeAdd(env: Env, fed: seq<D.Delta>, a: seq<D.Delta>, b: seq<D.Delta>, skipCode: bool)
    ensures Made(env, fed, a + b, skipCode) == Made(env, fed, a, skipCode) + Made(env, fed + a, b, skipCode)
    decreases |a|
  {
    hide ReadOfAll;
    if a == [] {
      assert a + b == b && fed + a == fed;
    } else {
      assert (a + b)[1..] == a[1..] + b;
      assert fed + [a[0]] + a[1..] == fed + a;
      MadeAdd(env, fed + [a[0]], a[1..], b, skipCode);
      var first := ReadOfAll(env, env.feed(fed, a[0]), skipCode);
      Grouped(first, Made(env, fed + [a[0]], a[1..], skipCode), Made(env, fed + a, b, skipCode));
    }
  }

  lemma {:induction false} Grouped(a: seq<string>, b: seq<string>, c: seq<string>)
    ensures a + (b + c) == (a + b) + c
  {
  }

  // ---- The relation ----------------------------------------------------------

  /** The texts of `x` are read as they come: summaries off, not only the final reply, none skipped. */
  ghost predicate Reading(s: Rules, x: Id) {
    && !s.settings.summaries && s.settings.mode != Final
    && Was(s, x).voiced == |Was(s, x).prose| && !Was(s, x).skipReply && D.Valid(Was(s, x).order)
  }

  /** From `s` to `s'` with `out`: what is heard of `x`, then what is held, is what was held, then what
      the assembler made of the deltas it was fed since; the deltas fed and held are those before and
      those `taken`. */
  ghost predicate Streams(env: Env, s: Rules, s': Rules, x: Id, out: seq<Action>, taken: multiset<D.Delta>) {
    && s'.settings == s.settings && s'.whole == s.whole && Reading(s', x)
    && FedOf(s, x) <= FedOf(s', x)
    && Heard(out, x) + HeldOf(s', x)
       == HeldOf(s, x) + Made(env, FedOf(s, x), FedOf(s', x)[|FedOf(s, x)|..], s.settings.verbosity == SkipCode)
    && multiset(FedOf(s', x)) + multiset(AheadOf(s', x)) == multiset(FedOf(s, x)) + multiset(AheadOf(s, x)) + taken
  }

  /** Nothing that is ready to be read is held. */
  predicate Tight(s: Rules, x: Id) {
    Ready(s, Was(s, x)) ==> Was(s, x).heldProse == []
  }

  /** And nothing ready stays held. */
  ghost predicate Flows(env: Env, s: Rules, s': Rules, x: Id, out: seq<Action>, taken: multiset<D.Delta>) {
    Streams(env, s, s', x, out, taken) && (Tight(s, x) ==> Tight(s', x))
  }

  lemma {:induction false} TextsThen(held: seq<string>, out: seq<string>, held1: seq<string>, more: seq<string>,
      held2: seq<string>,
                                     made: seq<string>, made1: seq<string>)
    requires out + held1 == held + made && more + held2 == held1 + made1
    ensures (out + more) + held2 == held + (made + made1)
  {
    assert (out + more) + held2 == out + (more + held2);
    assert out + (held1 + made1) == (out + held1) + made1;
  }

  lemma {:induction false} PrefixThen(a: seq<D.Delta>, b: seq<D.Delta>, c: seq<D.Delta>)
    requires a <= b <= c
    ensures a <= c && c[|a|..] == b[|a|..] + c[|b|..] && b == a + b[|a|..]
  {
  }

  lemma {:induction false} StreamsThen(env: Env, s: Rules, s1: Rules, s2: Rules, x: Id, out: seq<Action>,
      more: seq<Action>,
                                       taken: multiset<D.Delta>, later: multiset<D.Delta>)
    requires Streams(env, s, s1, x, out, taken) && Streams(env, s1, s2, x, more, later)
    ensures Streams(env, s, s2, x, out + more, taken + later)
  {
    hide Heard, Made, Reading, HeldOf, FedOf, AheadOf;
    var skip := s.settings.verbosity == SkipCode;
    var f, f1, f2 := FedOf(s, x), FedOf(s1, x), FedOf(s2, x);
    PrefixThen(f, f1, f2);
    HeardAdd(out, more, x);
    MadeAdd(env, f, f1[|f|..], f2[|f1|..], skip);
    TextsThen(HeldOf(s, x), Heard(out, x), HeldOf(s1, x), Heard(more, x), HeldOf(s2, x),
              Made(env, f, f1[|f|..], skip), Made(env, f1, f2[|f1|..], skip));
  }

  lemma {:induction false} FlowThen(env: Env, s: Rules, s1: Rules, s2: Rules, x: Id, out: seq<Action>,
      more: seq<Action>,
                                    taken: multiset<D.Delta>, later: multiset<D.Delta>)
    requires Flows(env, s, s1, x, out, taken) && Flows(env, s1, s2, x, more, later)
    ensures Flows(env, s, s2, x, out + more, taken + later)
  {
    hide Streams, Tight;
    StreamsThen(env, s, s1, s2, x, out, more, taken, later);
  }

  /** A silent step that may leave something ready held, then one that ends with nothing ready held. */
  lemma {:induction false} LooseThen(env: Env, s: Rules, s1: Rules, s2: Rules, x: Id, out: seq<Action>)
    requires Streams(env, s, s1, x, [], multiset{}) && Flows(env, s1, s2, x, out, multiset{}) && Tight(s2, x)
    ensures Flows(env, s, s2, x, out, multiset{})
  {
    hide Streams, Tight;
    StreamsThen(env, s, s1, s2, x, [], out, multiset{}, multiset{});
    var none: multiset<D.Delta> := multiset{};
    assert [] + out == out && none + none == none;
  }

  /** Then a step with nothing taken. */
  lemma {:induction false} FlowOn(env: Env, s: Rules, s1: Rules, s2: Rules, x: Id, out: seq<Action>, more: seq<Action>,
      taken: multiset<D.Delta>)
    requires Flows(env, s, s1, x, out, taken) && Flows(env, s1, s2, x, more, multiset{})
    ensures Flows(env, s, s2, x, out + more, taken)
  {
    hide Flows;
    FlowThen(env, s, s1, s2, x, out, more, taken, multiset{});
    assert taken + multiset{} == taken;
  }

  /** First a silent step with nothing taken. */
  lemma {:induction false} FlowAfter(env: Env, s: Rules, s1: Rules, s2: Rules, x: Id, out: seq<Action>,
      taken: multiset<D.Delta>)
    requires Flows(env, s, s1, x, [], multiset{}) && Flows(env, s1, s2, x, out, taken)
    ensures Flows(env, s, s2, x, out, taken)
  {
    hide Flows;
    FlowThen(env, s, s1, s2, x, [], out, multiset{}, taken);
    assert [] + out == out && multiset{} + taken == taken;
  }

  // ---- Steps that leave prose alone ------------------------------------------

  predicate SameText(c: Turn, c': Turn) {
    c'.fed == c.fed && c'.heldProse == c.heldProse && c'.prose == c.prose && c'.voiced == c.voiced && c'.skipReply ==
        c.skipReply
    && c'.order.ahead == c.order.ahead && c'.order.next == c.order.next
  }

  /** And it is not let go of. */
  predicate SameProse(c: Turn, c': Turn) {
    SameText(c, c') && (c'.released ==> c.released)
  }

  /** `x`'s prose and how it is read stay. */
  predicate Still(s: Rules, s': Rules, x: Id) {
    s'.settings == s.settings && s'.whole == s.whole && SameProse(Was(s, x), Was(s', x))
  }

  lemma {:induction false} FlowStill(env: Env, s: Rules, s': Rules, x: Id, out: seq<Action>)
    requires Reading(s, x) && Still(s, s', x) && Heard(out, x) == []
    ensures Flows(env, s, s', x, out, multiset{})
  {
    StreamStill(env, s, s', x, out);
    hide Streams, Reading;
  }

  lemma {:induction false} StreamStill(env: Env, s: Rules, s': Rules, x: Id, out: seq<Action>)
    requires Reading(s, x) && s'.settings == s.settings && s'.whole == s.whole && SameText(Was(s, x), Was(s', x))
        && Heard(out, x) == []
    ensures Streams(env, s, s', x, out, multiset{})
  {
    var f := FedOf(s, x);
    assert FedOf(s', x)[|f|..] == [];
    assert Made(env, f, [], s.settings.verbosity == SkipCode) == [];
  }

  lemma {:induction false} StillThen(s: Rules, s1: Rules, s2: Rules, x: Id)
    requires Still(s, s1, x) && Still(s1, s2, x)
    ensures Still(s, s2, x)
  {
  }

  lemma {:induction false} StillSet(s: Rules, ch: Id, c: Turn, x: Id)
    requires ch == x ==> SameProse(Was(s, ch), c)
    ensures Still(s, Set(s, ch, c), x)
  {
    hide SameProse;
    Alike(Was(s, x));
  }

  lemma {:induction false} Alike(c: Turn)
    ensures SameProse(c, c)
  {
  }

  lemma {:induction false} StillSame(s: Rules, s': Rules, x: Id)
    requires s'.turns == s.turns && s'.settings == s.settings && s'.whole == s.whole
    ensures Still(s, s', x)
  {
  }

  lemma {:induction false} StillEnsure(s: Rules, ch: Id, x: Id)
    ensures Still(s, Ensure(s, ch), x)
  {
    hide SameProse, Begun;
    Alike(Was(s, x));
    FirstProse(s.nextGen + 1);
  }

  lemma {:induction false} FirstProse(gen: nat)
    ensures SameProse(Begun(0), Begun(gen))
  {
  }

  lemma {:induction false} ArmHeard(timer: Timer, x: Id)
    ensures Heard([Arm(timer)], x) == [] && Heard([], x) == []
  {
    assert [Arm(timer)][1..] == [];
  }

  lemma {:induction false} ArmedAlike(c: Turn, gen: nat, armed: bool, wait: Option<Wait>)
    ensures SameProse(c, c.(settleGen := gen, settleArmed := armed)) && SameProse(c, c.(wait := wait))
  {
  }

  /** `Ensure`, perhaps names, then a change of the turn that leaves prose alone. */
  lemma {:induction false} StillEnsured(s: Rules, s1: Rules, ch: Id, c: Turn, x: Id)
    requires s1.turns == s.turns && s1.settings == s.settings && s1.whole == s.whole
    requires SameProse(Ensure(s1, ch).turns[ch], c)
    ensures Still(s, Set(Ensure(s1, ch), ch, c), x)
  {
    hide SameProse, Still, Ensure, Set;
    StillSame(s, s1, x);
    StillEnsure(s1, ch, x);
    Untrackable(Ensure(s1, ch), ch);
    StillSet(Ensure(s1, ch), ch, c, x);
    StillThen(s, s1, Ensure(s1, ch), x);
    StillThen(s, Ensure(s1, ch), Set(Ensure(s1, ch), ch, c), x);
  }

  lemma {:induction false} Untrackable(s: Rules, ch: Id)
    requires ch in s.turns
    ensures Was(s, ch) == s.turns[ch]
  {
  }

  lemma {:induction false} StillWait(s: Rules, ch: Id, id: Option<string>, x: Id)
    ensures Still(s, WaitLeadIn(s, ch, id).0, x) && Heard(WaitLeadIn(s, ch, id).1, x) == []
  {
    hide SameProse, Still, Ensure, Set, Heard;
    var s1 := Ensure(s, ch);
    StillEnsure(s, ch, x);
    var wait := Some(Wait(s1.nextGen + 1, id, []));
    ArmHeard(LeadIn(ch, s1.nextGen + 1), x);
    ArmedAlike(s1.turns[ch], 0, false, wait);
    Untrackable(s1, ch);
    StillSame(s1, Renamed(s1), x);
    Untrackable(Renamed(s1), ch);
    StillSet(Renamed(s1), ch, s1.turns[ch].(wait := wait), x);
    StillThen(s, s1, Renamed(s1), x);
    StillThen(s, Renamed(s1), Set(Renamed(s1), ch, s1.turns[ch].(wait := wait)), x);
  }

  lemma {:induction false} StillLand(env: Env, s: Rules, slot: Option<nat>, r: Release, x: Id)
    ensures Still(s, Land(env, s, slot, r).0, x)
  {
    hide Land, Numberless;
    LandLands(env, s, slot, r);
    StillSame(s, Land(env, s, slot, r).0, x);
  }

  lemma {:induction false} ReadingStays(s: Rules, s': Rules, x: Id)
    requires Reading(s, x) && Still(s, s', x)
    ensures Reading(s', x)
  {
  }

  // ---- Nothing heard ---------------------------------------------------------

  predicate NoParts(a: Action) {
    match a
    case Speak(_, _, _, _, _, parts) => parts == []
    case Store(_, _, _, _, _, parts) => parts == []
    case _ => true
  }

  ghost predicate Partless(out: seq<Action>) {
    forall a :: a in out ==> NoParts(a)
  }

  lemma {:induction false} PartlessHeard(out: seq<Action>, x: Id)
    requires Partless(out)
    ensures Heard(out, x) == []
  {
    hide NoParts;
    if out != [] {
      NoneOf(out[0], x);
      PartlessHeard(out[1..], x);
    }
  }

  lemma {:induction false} NoneOf(a: Action, x: Id)
    requires NoParts(a)
    ensures PartsOf(a, x) == []
  {
  }

  lemma {:induction false} SayPartless(env: Env, s: Rules, ch: Id, text: string, number: Option<nat>,
      release: Option<nat>, kind: Kind)
    ensures Partless(Say(env, s, ch, text, number, release, kind, []))
  {
  }

  lemma {:induction false} DecisionsPartless(env: Env, s: Rules, ch: Id, ds: seq<Decision>)
    ensures Partless(SayDecisions(env, s, ch, ds)) && Partless(Cancelling(ch, ds))
  {
    hide Say, NoParts;
    if ds != [] {
      SayPartless(env, s, ch, ds[0].text, Some(ds[0].id), None, ds[0].kind);
      CancelPartless(ch, ds[0]);
      DecisionsPartless(env, s, ch, ds[1..]);
    }
  }

  lemma {:induction false} CancelPartless(ch: Id, d: Decision)
    ensures Partless([Cancelled(ch, d.id)])
  {
  }

  lemma {:induction false} ApplyPartless(env: Env, s: Rules, r: Release)
    ensures Partless(Apply(env, s, r))
  {
  }

  lemma {:induction false} ServePartless(env: Env, s: Rules)
    ensures Partless(Serve(env, s).1)
    decreases s.parked.Keys
  {
    hide Apply, NoParts;
    if s.serveSeq in s.parked {
      var r := s.parked[s.serveSeq];
      var s1 := s.(parked := s.parked - {s.serveSeq}, serveSeq := s.serveSeq + 1);
      ApplyPartless(env, s1, r);
      ServedPartless(Ticket(s.serveSeq, r.channel, r.gen, r.text));
      ServePartless(env, s1);
    }
  }

  lemma {:induction false} ServedPartless(t: Ticket)
    ensures Partless([Served(t)])
  {
  }

  lemma {:induction false} LandPartless(env: Env, s: Rules, slot: Option<nat>, r: Release)
    ensures Partless(Land(env, s, slot, r).1)
  {
    hide Serve, Apply, NoParts;
    ApplyPartless(env, s, r);
    if slot.Some? {
      ServePartless(env, s.(watched := s.watched - {slot.value}, parked := s.parked[slot.value := r]));
    }
  }

  // ---- Letting go of held prose ----------------------------------------------

  lemma {:induction false} EachHeard(env: Env, s: Rules, ch: Id, texts: seq<string>, x: Id)
    ensures Heard(SayEach(env, s, ch, MARK, texts), x) == if x == ch then texts else []
    decreases |texts|
  {
    hide Say, SayEach, Heard;
    if texts == [] {
      EachOfNone(env, s, ch, x);
    } else {
      var said := Say(env, s, ch, MARK + texts[0], None, None, Prose, [texts[0]]);
      var rest := SayEach(env, s, ch, MARK, texts[1..]);
      EachHeard(env, s, ch, texts[1..], x);
      MarkedNotBlank(MARK + texts[0]);
      SayHeard(env, s, ch, MARK + texts[0], [texts[0]], x);
      HeardAdd(said, rest, x);
      EachIs(env, s, ch, texts);
      assert texts == [texts[0]] + texts[1..];
    }
  }

  lemma {:induction false} EachOfNone(env: Env, s: Rules, ch: Id, x: Id)
    ensures Heard(SayEach(env, s, ch, MARK, []), x) == []
  {
  }

  lemma {:induction false} EachIs(env: Env, s: Rules, ch: Id, texts: seq<string>)
    requires texts != []
    ensures SayEach(env, s, ch, MARK, texts)
            == Say(env, s, ch, MARK + texts[0], None, None, Prose, [texts[0]]) + SayEach(env, s, ch, MARK, texts[1..])
  {
  }

  lemma {:induction false} SayHeard(env: Env, s: Rules, ch: Id, text: string, parts: seq<string>, x: Id)
    requires !Blank(text)
    ensures Heard(Say(env, s, ch, text, None, None, Prose, parts), x) == if x == ch then parts else []
  {
    var out := Say(env, s, ch, text, None, None, Prose, parts);
    assert out[1..] == [];
    assert PartsOf(out[0], x) + [] == PartsOf(out[0], x);
  }

  lemma {:induction false} JoinedStarts(text: string, empty: bool, held: seq<(string, bool)>)
    ensures text <= Joined(text, empty, held)
    decreases |held|
  {
    if held != [] {
      var next := text + (if empty then "" else if held[0].1 then "\n\n" else " ") + held[0].0;
      assert text <= next;
      JoinedStarts(next, empty && held[0].0 == "", held[1..]);
    }
  }

  lemma {:induction false} ProseHeard(env: Env, s: Rules, ch: Id, held: seq<(string, bool)>, x: Id)
    ensures Heard(SayProse(env, s, ch, held), x) == if x == ch then Parts(held) else []
  {
    hide Say, SayEach, Joined;
    if held != [] {
      if s.whole {
        JoinedStarts(MARK, true, held);
        MarkedNotBlank(Joined(MARK, true, held));
        SayHeard(env, s, ch, Joined(MARK, true, held), Parts(held), x);
      } else {
        EachHeard(env, s, ch, Parts(held), x);
      }
    }
  }

  lemma {:induction false} PartsSplit(held: seq<(string, bool)>, k: nat)
    requires k <= |held|
    ensures Parts(held[..k]) + Parts(held[k..]) == Parts(held)
  {
  }

  lemma {:induction false} PartsAdd(a: seq<(string, bool)>, b: seq<(string, bool)>)
    ensures Parts(a + b) == Parts(a) + Parts(b)
  {
  }

  /** The first `k` held chunks are heard, the rest stays. */
  lemma {:induction false} HeldFlows(env: Env, s: Rules, ch: Id, k: nat, x: Id)
    requires Reading(s, x) && ch in s.turns && k <= |s.turns[ch].heldProse|
    ensures var c := s.turns[ch];
            Flows(env, s, Set(s, ch, c.(heldProse := c.heldProse[k..])), x, SayProse(env, s, ch, c.heldProse[..k]),
                multiset{})
  {
    hide SayProse, Parts, Heard, D.Valid;
    var held := s.turns[ch].heldProse;
    ProseHeard(env, s, ch, held[..k], x);
    PartsSplit(held, k);
    var f := FedOf(s, x);
    assert f[|f|..] == [];
    assert Made(env, f, [], s.settings.verbosity == SkipCode) == [];
    assert HeldOf(s, x) + [] == HeldOf(s, x) && [] + HeldOf(s, x) == HeldOf(s, x);
    HeldTight(s, ch, k, x);
    hide Tight;
  }

  lemma {:induction false} HeldTight(s: Rules, ch: Id, k: nat, x: Id)
    requires ch in s.turns && k <= |s.turns[ch].heldProse|
    ensures Tight(s, x) ==> Tight(Set(s, ch, s.turns[ch].(heldProse := s.turns[ch].heldProse[k..])), x)
  {
  }

  lemma {:induction false} UptoFlows(env: Env, s: Rules, ch: Id, n: nat, x: Id)
    requires Reading(s, x)
    ensures Flows(env, s, FlushUpto(env, s, ch, n).0, x, FlushUpto(env, s, ch, n).1, multiset{})
  {
    hide Flows, Still, Set, Ensure, SayProse, Reading, Heard;
    var s1 := Ensure(s, ch);
    var held := s1.turns[ch].heldProse;
    StillEnsure(s, ch, x);
    ReadingStays(s, s1, x);
    ArmHeard(Watchdog(0), x);
    FlowStill(env, s, s1, x, []);
    HeldFlows(env, s1, ch, if n < |held| then n else |held|, x);
    FlowAfter(env, s, s1, FlushUpto(env, s, ch, n).0, x, FlushUpto(env, s, ch, n).1, multiset{});
  }

  lemma {:induction false} ProseFlows(env: Env, s: Rules, ch: Id, x: Id)
    requires Reading(s, x)
    ensures Flows(env, s, FlushProse(env, s, ch).0, x, FlushProse(env, s, ch).1, multiset{})
  {
    hide Flows, Reading, FlushUpto;
    UptoFlows(env, s, ch, if ch in s.turns then |s.turns[ch].heldProse| else 0, x);
  }

  // ---- Assembling ------------------------------------------------------------

  lemma {:induction false} ChunkMade(env: Env, d: Draft, chunk: Chunk, skipCode: bool)
    ensures Parts(FeedChunk(env, d, chunk, skipCode).texts) == Parts(d.texts) + ReadOf(env, chunk, skipCode)
    ensures FeedChunk(env, d, chunk, skipCode).c.fed == d.c.fed
  {
  }

  lemma {:induction false} ChunksMade(env: Env, d: Draft, chunks: seq<Chunk>, skipCode: bool)
    ensures Parts(FeedChunks(env, d, chunks, skipCode).texts) == Parts(d.texts) + ReadOfAll(env, chunks, skipCode)
    ensures FeedChunks(env, d, chunks, skipCode).c.fed == d.c.fed
    decreases |chunks|
  {
    hide Parts, FeedChunk, ReadOf;
    if chunks == [] {
      assert Parts(d.texts) + [] == Parts(d.texts);
    } else {
      ChunkMade(env, d, chunks[0], skipCode);
      ChunksMade(env, FeedChunk(env, d, chunks[0], skipCode), chunks[1..], skipCode);
      Grouped(Parts(d.texts), ReadOf(env, chunks[0], skipCode), ReadOfAll(env, chunks[1..], skipCode));
    }
  }

  lemma {:induction false} DeltaMade(env: Env, d: Draft, x: D.Delta, skipCode: bool)
    ensures Parts(FeedDelta(env, d, x, skipCode).texts) == Parts(d.texts)
        + ReadOfAll(env, env.feed(d.c.fed, x), skipCode)
    ensures FeedDelta(env, d, x, skipCode).c.fed == d.c.fed + [x]
  {
    hide Parts, FeedChunks, ReadOfAll;
    ChunksMade(env, d.(c := Numbering(d.c, x)), env.feed(d.c.fed, x), skipCode);
  }

  /** The deltas fed are what the assembler was fed, and the texts gained what it made of them. */
  lemma {:induction false} DeltasMade(env: Env, d: Draft, deltas: seq<D.Delta>, skipCode: bool)
    ensures Parts(FeedDeltas(env, d, deltas, skipCode).texts) == Parts(d.texts) + Made(env, d.c.fed, deltas, skipCode)
    ensures FeedDeltas(env, d, deltas, skipCode).c.fed == d.c.fed + deltas
    decreases |deltas|
  {
    hide Parts, FeedDelta, ReadOfAll;
    if deltas == [] {
      assert Parts(d.texts) + [] == Parts(d.texts) && d.c.fed + [] == d.c.fed;
    } else {
      DeltaMade(env, d, deltas[0], skipCode);
      DeltasMade(env, FeedDelta(env, d, deltas[0], skipCode), deltas[1..], skipCode);
      Grouped(Parts(d.texts), ReadOfAll(env, env.feed(d.c.fed, deltas[0]), skipCode),
              Made(env, d.c.fed + [deltas[0]], deltas[1..], skipCode));
      assert d.c.fed + [deltas[0]] + deltas[1..] == d.c.fed + deltas;
    }
  }

  /** The turn `c` with `deltas` fed, their texts held, and its order now without them. */
  ghost predicate Gained(env: Env, c: Turn, c': Turn, texts: seq<(string, bool)>, deltas: seq<D.Delta>,
      came: multiset<D.Delta>, skipCode: bool) {
    && c'.fed == c.fed + deltas && c'.heldProse == c.heldProse + texts
        && Parts(texts) == Made(env, c.fed, deltas, skipCode)
    && c'.voiced == |c'.prose| && !c'.skipReply && D.Valid(c'.order)
    && multiset(deltas) + multiset(c'.order.ahead) == multiset(c.order.ahead) + came
  }

  function If(b: bool, came: multiset<D.Delta>): multiset<D.Delta> {
    if b then came else multiset{}
  }

  lemma {:induction false} GainBalances(fed: seq<D.Delta>, deltas: seq<D.Delta>, ahead: seq<D.Delta>,
      ahead': seq<D.Delta>,
                                        came: multiset<D.Delta>)
    requires multiset(deltas) + multiset(ahead') == multiset(ahead) + came
    ensures multiset(fed + deltas) + multiset(ahead') == multiset(fed) + multiset(ahead) + came
  {
    forall d: D.Delta | true
      ensures (multiset(fed + deltas) + multiset(ahead'))[d] == (multiset(fed) + multiset(ahead) + came)[d]
    {
      assert (multiset(deltas) + multiset(ahead'))[d] == (multiset(ahead) + came)[d];
    }
  }

  lemma {:induction false} GainStreams(env: Env, s: Rules, ch: Id, c': Turn, texts: seq<(string, bool)>,
      deltas: seq<D.Delta>,
                                     came: multiset<D.Delta>, x: Id)
    requires Reading(s, x) && ch in s.turns
    requires x == ch ==> Gained(env, s.turns[ch], c', texts, deltas, came, s.settings.verbosity == SkipCode)
    ensures Streams(env, s, Set(s, ch, c'), x, [], If(x == ch, came))
  {
    if x == ch {
      hide Made, Parts, D.Valid;
      var c := s.turns[ch];
      PartsAdd(c.heldProse, texts);
      assert c'.fed[|c.fed|..] == deltas;
      assert [] + Parts(c'.heldProse) == Parts(c'.heldProse);
      GainBalances(c.fed, deltas, c.order.ahead, c'.order.ahead, came);
    } else {
      hide Reading, Streams, Still, Tight;
      StillSet(s, ch, c', x);
      FlowStill(env, s, Set(s, ch, c'), x, []);
    }
  }

  lemma {:induction false} StreamsReading(env: Env, s: Rules, s': Rules, x: Id, out: seq<Action>,
      taken: multiset<D.Delta>)
    requires Streams(env, s, s', x, out, taken)
    ensures Reading(s', x)
  {
    hide Reading, Made, Heard;
  }

  lemma {:induction false} FlowsReading(env: Env, s: Rules, s': Rules, x: Id, out: seq<Action>,
      taken: multiset<D.Delta>)
    requires Flows(env, s, s', x, out, taken)
    ensures Reading(s', x)
  {
    hide Streams, Reading, Tight;
    StreamsReading(env, s, s', x, out, taken);
  }

  /** Held with what was there, then let go of as the read mode says: nothing ready stays. */
  lemma {:induction false} HoldFlows(env: Env, s: Rules, s0: Rules, ch: Id, c: Turn, texts: seq<(string, bool)>,
      breaks: Option<nat>, x: Id,
                                     taken: multiset<D.Delta>)
    requires Streams(env, s0, Set(s, ch, c.(heldProse := c.heldProse + texts)), x, [], taken)
    requires x != ch ==> Was(s, x) == Was(s0, x)
    requires x == ch ==> Was(s0, x).heldProse == c.heldProse && Was(s0, x).released == c.released
    ensures Flows(env, s0, Hold(env, s, ch, c, texts, breaks).0, x, Hold(env, s, ch, c, texts, breaks).1, taken)
  {
    hide Streams, Reading, FlushUpto, FlushProse, Ready, Set, Tight;
    var c1 := c.(heldProse := c.heldProse + texts);
    var s1 := Set(s, ch, c1);
    assert texts == [] ==> c.heldProse + texts == c.heldProse;
    SameHeld(c);
    StreamsSettings(env, s0, s1, x, [], taken);
    SetCounts(s, ch, c1);
    StreamsReading(env, s0, s1, x, [], taken);
    ProseFlows(env, s1, ch, x);
    var upto := |c.heldProse| + (if breaks.Some? then breaks.value else 0);
    UptoFlows(env, s1, ch, upto, x);
    StreamsOn(env, s0, s1, FlushProse(env, s1, ch).0, x, FlushProse(env, s1, ch).1, taken);
    StreamsOn(env, s0, s1, FlushUpto(env, s1, ch, upto).0, x, FlushUpto(env, s1, ch, upto).1, taken);
    HoldTight(env, s, s0, ch, c, texts, breaks, x);
  }

  lemma {:induction false} StreamsSettings(env: Env, s: Rules, s': Rules, x: Id, out: seq<Action>,
      taken: multiset<D.Delta>)
    requires Streams(env, s, s', x, out, taken)
    ensures s'.settings == s.settings && s'.whole == s.whole
  {
    hide Reading, Made, Heard;
  }

  lemma {:induction false} StreamsOn(env: Env, s: Rules, s1: Rules, s2: Rules, x: Id, more: seq<Action>,
      taken: multiset<D.Delta>)
    requires Streams(env, s, s1, x, [], taken) && Streams(env, s1, s2, x, more, multiset{})
    ensures Streams(env, s, s2, x, more, taken)
  {
    hide Streams;
    StreamsThen(env, s, s1, s2, x, [], more, taken, multiset{});
    assert taken + multiset{} == taken && [] + more == more;
  }

  lemma {:induction false} SameTight(s: Rules, s': Rules, x: Id)
    requires s'.settings == s.settings && s'.whole == s.whole
    requires Was(s', x).heldProse == Was(s, x).heldProse && Was(s', x).released == Was(s, x).released
    ensures Tight(s, x) ==> Tight(s', x)
  {
  }

  lemma {:induction false} SameReady(s: Rules, s': Rules, c: Turn)
    requires s'.settings == s.settings && s'.whole == s.whole
    ensures Ready(s', c) == Ready(s, c)
  {
  }

  lemma {:induction false} ParagraphTight(s: Rules, s': Rules, c: Turn, c': Turn)
    requires s'.settings == s.settings && s'.whole == s.whole && c'.released == c.released
    requires !Ready(s, c) && s.whole && s.settings.mode == Immediate
    ensures !Ready(s', c')
  {
  }

  lemma {:induction false} HoldIs(env: Env, s: Rules, ch: Id, c: Turn, texts: seq<(string, bool)>, breaks: Option<nat>)
    ensures var paraEnd := s.whole && s.settings.mode == Immediate && breaks.Some?;
            var c1 := c.(heldProse := c.heldProse + texts);
            var upto := |c.heldProse| + (if breaks.Some? then breaks.value else 0);
            Hold(env, s, ch, c, texts, breaks).0 ==
            if texts == [] && !paraEnd then Set(s, ch, c)
            else if Ready(s, c1) then FlushProse(env, Set(s, ch, c1), ch).0
            else if paraEnd && upto > 0 then FlushUpto(env, Set(s, ch, c1), ch, upto).0
            else Set(s, ch, c1)
  {
    hide FlushUpto, FlushProse, Ready, Set;
  }

  /** What `Hold` leaves held is not ready, or is what was held before. */
  lemma {:induction false} HoldTight(env: Env, s: Rules, s0: Rules, ch: Id, c: Turn, texts: seq<(string, bool)>,
      breaks: Option<nat>, x: Id)
    requires s0.settings == s.settings && s0.whole == s.whole
    requires x != ch ==> Was(s, x) == Was(s0, x)
    requires x == ch ==> Was(s0, x).heldProse == c.heldProse && Was(s0, x).released == c.released
    ensures Tight(s0, x) ==> Tight(Hold(env, s, ch, c, texts, breaks).0, x)
  {
    hide FlushUpto, Ready, Set, Hold;
    HoldIs(env, s, ch, c, texts, breaks);
    var c1 := c.(heldProse := c.heldProse + texts);
    var s1 := Set(s, ch, c1);
    var upto := |c.heldProse| + (if breaks.Some? then breaks.value else 0);
    SetHas(s, ch, c);
    SetHas(s, ch, c1);
    SetCounts(s, ch, c);
    SetCounts(s, ch, c1);
    SetElsewhere(s, ch, c, x);
    SetElsewhere(s, ch, c1, x);
    UptoTurn(env, s1, ch, |c1.heldProse|, x);
    UptoTurn(env, s1, ch, upto, x);
    var s' := Hold(env, s, ch, c, texts, breaks).0;
    if x != ch {
      SameTight(s0, s', x);
    } else if texts == [] && !(s.whole && s.settings.mode == Immediate && breaks.Some?) {
      SameTight(s0, s', x);
    } else if !Ready(s, c1) {
      if s.whole && s.settings.mode == Immediate && breaks.Some? && upto > 0 {
        ParagraphTight(s, s', c1, Was(s', x));
      } else {
        SameReady(s, s1, c1);
      }
    }
  }

  lemma {:induction false} UptoTurn(env: Env, s: Rules, ch: Id, n: nat, x: Id)
    requires ch in s.turns
    ensures var s' := FlushUpto(env, s, ch, n).0;
            && s'.settings == s.settings && s'.whole == s.whole && ch in s'.turns
            && (x != ch ==> Was(s', x) == Was(s, x))
            && s'.turns[ch].released == s.turns[ch].released
            && (n >= |s.turns[ch].heldProse| ==> s'.turns[ch].heldProse == [])
  {
    hide SayProse, Ensure;
    Existing(s, ch);
  }

  lemma {:induction false} SameHeld(c: Turn)
    ensures c.(heldProse := c.heldProse) == c
  {
  }

  lemma {:induction false} NoneKept(c: Turn)
    requires c.voiced == |c.prose|
    ensures Kept(c) == []
  {
  }

  /** Deltas taken out of the order, then assembled. */
  lemma {:induction false} TakenFlows(env: Env, s: Rules, ch: Id, order: D.Order, deltas: seq<D.Delta>,
      came: multiset<D.Delta>, x: Id)
    requires Reading(s, x) && ch in s.turns
    requires x == ch ==>
               D.Valid(order) && multiset(deltas) + multiset(order.ahead) == multiset(s.turns[ch].order.ahead) + came
    ensures var (s', out) := Assemble(env, Set(s, ch, s.turns[ch].(order := order)), ch, deltas);
            Flows(env, s, s', x, out, If(x == ch, came))
  {
    hide Streams, Tight, Hold, Gained, FeedDeltas, Made, D.Valid, Kept, Parts, If;
    var c := s.turns[ch].(order := order);
    var s2 := Set(s, ch, c);
    var skip := s.settings.verbosity == SkipCode;
    if deltas == [] {
      NoneGained(env, s.turns[ch], order, came, skip, x == ch);
      GainStreams(env, s, ch, c, [], [], came, x);
      OrderTight(s, ch, order, x);
    } else {
      Existing(s2, ch);
      var kept := Kept(c);
      var d0 := Draft(c.(voiced := |c.prose|), kept, None);
      var d := FeedDeltas(env, d0, deltas, skip);
      var c1 := d.c.(voiced := |d.c.prose|);
      DeltasMade(env, d0, deltas, skip);
      DeltasFed(env, d0, deltas, skip);
      if x == ch {
        NoneKept(c);
        DraftGained(env, s.turns[ch], order, d, deltas, came, skip);
      }
      GainStreams(env, s, ch, c1.(heldProse := c1.heldProse + d.texts), d.texts, deltas, came, x);
      SetElsewhere(s, ch, c, x);
      SetTwice(s, ch, c, c1.(heldProse := c1.heldProse + d.texts));
      HoldFlows(env, s2, s, ch, c1, d.texts, d.breaks, x, If(x == ch, came));
    }
  }

  lemma {:induction false} OrderTight(s: Rules, ch: Id, order: D.Order, x: Id)
    requires ch in s.turns
    ensures Tight(s, x) ==> Tight(Set(s, ch, s.turns[ch].(order := order)), x)
  {
  }

  lemma {:induction false} SetElsewhere(s: Rules, ch: Id, c: Turn, x: Id)
    ensures x != ch ==> Was(Set(s, ch, c), x) == Was(s, x)
  {
  }

  lemma {:induction false} NoneGained(env: Env, c: Turn, order: D.Order, came: multiset<D.Delta>, skip: bool,
      mine: bool)
    requires mine ==>
               c.voiced == |c.prose| && !c.skipReply && D.Valid(order)
               && multiset(order.ahead) == multiset(c.order.ahead) + came
    ensures mine ==> Gained(env, c, c.(order := order), [], [], came, skip)
  {
    hide D.Valid;
    assert c.fed + [] == c.fed && c.heldProse + [] == c.heldProse && Parts([]) == [];
  }

  lemma {:induction false} DraftGained(env: Env, c: Turn, order: D.Order, d: Draft, deltas: seq<D.Delta>,
      came: multiset<D.Delta>, skip: bool)
    requires Fed(c.(order := order, voiced := |c.prose|), d.c) && d.c.fed == c.fed + deltas
    requires Parts(d.texts) == Parts([]) + Made(env, c.fed, deltas, skip)
    requires !c.skipReply && D.Valid(order) && multiset(deltas) + multiset(order.ahead) == multiset(c.order.ahead)
        + came
    ensures var c1 := d.c.(voiced := |d.c.prose|);
            Gained(env, c, c1.(heldProse := c1.heldProse + d.texts), d.texts, deltas, came, skip)
  {
    hide D.Valid, Made;
    assert Parts([]) + Made(env, c.fed, deltas, skip) == Made(env, c.fed, deltas, skip);
  }

  lemma {:induction false} ReleaseConserves(o: D.Order)
    ensures D.Valid(D.Release(o).0) && multiset(D.Release(o).1) + multiset(D.Release(o).0.ahead) == multiset(o.ahead)
        + multiset{}
  {
    ReleasedOrder(o);
  }

  lemma {:induction false} GapFlows(env: Env, s: Rules, ch: Id, x: Id)
    requires Reading(s, x)
    ensures Flows(env, s, ReleaseGap(env, s, ch).0, x, ReleaseGap(env, s, ch).1, multiset{})
  {
    hide Flows, Still, Set, Assemble, Reading, D.Release, D.Valid, Ensure;
    var s1 := Ensure(s, ch);
    StillEnsure(s, ch, x);
    ReadingStays(s, s1, x);
    FlowStill(env, s, s1, x, []);
    var o := s1.turns[ch].order;
    ReleaseConserves(o);
    TakenFlows(env, s1, ch, D.Release(o).0, D.Release(o).1, multiset{}, x);
    FlowAfter(env, s, s1, ReleaseGap(env, s, ch).0, x, ReleaseGap(env, s, ch).1, multiset{});
  }

  // ---- Streaming -------------------------------------------------------------

  lemma {:induction false} FlowPartless(env: Env, s: Rules, s': Rules, x: Id, out: seq<Action>)
    requires Reading(s, x) && Still(s, s', x) && Partless(out)
    ensures Flows(env, s, s', x, out, multiset{}) && Reading(s', x)
  {
    hide Flows, Reading, Still, Partless;
    PartlessHeard(out, x);
    FlowStill(env, s, s', x, out);
    ReadingStays(s, s', x);
  }

  lemma {:induction false} NothingPartless()
    ensures Partless([])
  {
  }

  lemma {:induction false} ArmPartless(timer: Timer)
    ensures Partless([Arm(timer)])
  {
  }

  lemma {:induction false} AcceptedBalance(o: D.Order, d: D.Delta)
    requires D.Valid(o)
    ensures D.Valid(D.Accept(o, d).0)
    ensures multiset(D.Accept(o, d).1) + multiset(D.Accept(o, d).0.ahead) == multiset(o.ahead) + multiset{d}
  {
    D.AcceptConserves(o, d);
  }

  lemma {:induction false} NamedOrder(o: D.Order, gen: nat)
    ensures D.Valid(o) ==> D.Valid(o.(gen := gen))
  {
  }

  lemma {:induction false} ReadingValid(s: Rules, x: Id)
    requires Reading(s, x)
    ensures D.Valid(Was(s, x).order)
  {
    hide D.Valid;
  }

  lemma {:induction false} AcceptedFlows(env: Env, s: Rules, ch: Id, d: D.Delta, x: Id)
    requires Reading(s, x)
    ensures Flows(env, s, Accepted(env, s, ch, d).0, x, Accepted(env, s, ch, d).1, If(x == ch, multiset{d}))
  {
    hide Flows, Still, Set, Assemble, Reading, D.Accept, D.Valid, Ensure, If, Partless;
    var s1 := Ensure(s, ch);
    StillEnsure(s, ch, x);
    NothingPartless();
    FlowPartless(env, s, s1, x, []);
    Untrackable(s1, ch);
    ReadingValid(s1, x);
    var o := s1.turns[ch].order;
    var (order, ready, gap) := D.Accept(o, d);
    if x == ch {
      AcceptedBalance(o, d);
    }
    var s' := Accepted(env, s, ch, d).0;
    if gap {
      var gen := s1.nextGen + 1;
      var s2 := Renamed(s1);
      NamedOrder(order, gen);
      StillSame(s1, s2, x);
      ArmPartless(Gap(ch, gen));
      FlowPartless(env, s1, s2, x, [Arm(Gap(ch, gen))]);
      TakenFlows(env, s2, ch, order.(gen := gen), ready, multiset{d}, x);
      var more := Assemble(env, Set(s2, ch, s1.turns[ch].(order := order.(gen := gen))), ch, ready);
      FlowThen(env, s1, s2, s', x, [Arm(Gap(ch, gen))], more.1, multiset{}, If(x == ch, multiset{d}));
      assert multiset{} + If(x == ch, multiset{d}) == If(x == ch, multiset{d});
    } else {
      TakenFlows(env, s1, ch, order, ready, multiset{d}, x);
    }
    FlowAfter(env, s, s1, s', x, Accepted(env, s, ch, d).1, If(x == ch, multiset{d}));
  }

  lemma {:induction false} OrderedFlows(env: Env, s: Rules, ch: Id, d: D.Delta, x: Id)
    requires Reading(s, x) && ch in s.turns
    ensures Flows(env, s, Ordered(env, s, ch, d).0, x, Ordered(env, s, ch, d).1, If(x == ch, multiset{d}))
  {
    hide Flows, Still, Reading, ReleaseGap, Accepted, If, Partless;
    GapFlows(env, s, ch, x);
    StillSame(s, s, x);
    NothingPartless();
    FlowPartless(env, s, s, x, []);
    var o := s.turns[ch].order;
    var first := if d.index == 0 && o.next > 0 && o.ahead != [] then ReleaseGap(env, s, ch) else (s, []);
    FlowsReading(env, s, first.0, x, first.1, multiset{});
    AcceptedFlows(env, first.0, ch, d, x);
    var more := Accepted(env, first.0, ch, d);
    FlowThen(env, s, first.0, more.0, x, first.1, more.1, multiset{}, If(x == ch, multiset{d}));
    assert multiset{} + If(x == ch, multiset{d}) == If(x == ch, multiset{d});
  }

  /** What a streamed delta adds: nothing when it is of an earlier turn, or read already. */
  function StreamTakes(env: Env, s: Rules, ch: Id, turn: Option<string>, d: D.Delta,
      t: Option<int>): multiset<D.Delta> {
    if IsStale(s, ch, turn, t) || LeadInAgain(env, Was(s, ch), d) || ReplyAgain(env, Was(s, ch), d) then multiset{}
        else multiset{d}
  }

  lemma {:induction false} NotedIs(env: Env, c: Turn, d: D.Delta)
    ensures Noted(env, c, d) == c.(wait := Noted(env, c, d).wait)
  {
  }

  lemma {:induction false} WaitAlike(c: Turn, wait: Option<Wait>)
    ensures SameProse(c, c.(wait := wait)) && SameProse(c, c.(wait := wait).(leadIn := None))
  {
  }

  lemma {:induction false} WaitReads(env: Env, c: Turn, wait: Option<Wait>, d: D.Delta)
    ensures LeadInAgain(env, c.(wait := wait), d) == LeadInAgain(env, c, d)
        && ReplyAgain(env, c.(wait := wait), d) == ReplyAgain(env, c, d)
  {
  }

  lemma {:induction false} NotedAlike(env: Env, c: Turn, d: D.Delta)
    ensures SameProse(c, Noted(env, c, d)) && SameProse(c, Noted(env, c, d).(leadIn := None))
    ensures LeadInAgain(env, Noted(env, c, d), d) == LeadInAgain(env, c, d)
        && ReplyAgain(env, Noted(env, c, d), d) == ReplyAgain(env, c, d)
    ensures Noted(env, c, d).skipReply == c.skipReply
  {
    hide Noted, SameProse, LeadInAgain, ReplyAgain;
    NotedIs(env, c, d);
    WaitAlike(c, Noted(env, c, d).wait);
    WaitReads(env, c, Noted(env, c, d).wait, d);
  }

  lemma {:induction false} FirstReads(env: Env, s: Rules, ch: Id, d: D.Delta)
    ensures var c := Ensure(s, ch).turns[ch];
            LeadInAgain(env, c, d) == LeadInAgain(env, Was(s, ch), d)
                && ReplyAgain(env, c, d) == ReplyAgain(env, Was(s, ch), d)
  {
  }

  lemma {:induction false} NotSkipped(s: Rules, x: Id)
    requires Reading(s, x) && x in s.turns
    ensures !s.turns[x].skipReply
  {
    hide D.Valid;
  }

  lemma {:induction false} StreamFlows(env: Env, s: Rules, ch: Id, turn: Option<string>, d: D.Delta, t: Option<int>,
      x: Id)
    requires Reading(s, x)
    ensures Flows(env, s, Stream(env, s, ch, turn, d, t).0, x, Stream(env, s, ch, turn, d, t).1,
                  If(x == ch, StreamTakes(env, s, ch, turn, d, t)))
  {
    hide Flows, Still, Reading, Ordered, Noted, LeadInAgain, ReplyAgain, IsStale, Ensure, Set, SameProse, Partless, Was;
    NothingPartless();
    StillSame(s, s, x);
    FlowPartless(env, s, s, x, []);
    var s1 := Ensure(s, ch);
    var c := Noted(env, s1.turns[ch], d);
    StillEnsure(s, ch, x);
    FlowPartless(env, s, s1, x, []);
    NotedAlike(env, s1.turns[ch], d);
    FirstReads(env, s, ch, d);
    StillEnsured(s, s, ch, c.(leadIn := None), x);
    FlowPartless(env, s, Set(s1, ch, c.(leadIn := None)), x, []);
    StillEnsured(s, s, ch, c, x);
    var s2 := Set(s1, ch, c);
    FlowPartless(env, s, s2, x, []);
    if c.skipReply {
      if x == ch {
        NotSkipped(s1, ch);
      }
      Untrackable(s1, ch);
      StillSet(s1, ch, c.(fed := c.fed + [d]), x);
      StillThen(s, s1, Set(s1, ch, c.(fed := c.fed + [d])), x);
      FlowPartless(env, s, Set(s1, ch, c.(fed := c.fed + [d])), x, []);
    }
    SetHas(s1, ch, c);
    OrderedFlows(env, s2, ch, d, x);
    FlowAfter(env, s, s2, Ordered(env, s2, ch, d).0, x, Ordered(env, s2, ch, d).1, If(x == ch, multiset{d}));
  }

  // ---- Decisions, lead-ins, turn ends ----------------------------------------

  lemma {:induction false} EnqueueFlows(env: Env, s: Rules, ch: Id, item: Decision, digesting: bool, x: Id)
    requires Reading(s, x)
    ensures Flows(env, s, Enqueue(env, s, ch, item, digesting).0, x, Enqueue(env, s, ch, item, digesting).1, multiset{})
  {
    hide Flows, Still, Reading, FlushProse, SayDecisions, Ensure, Set, SameProse, Partless, Say;
    NothingPartless();
    var s1 := Ensure(s, ch);
    StillEnsure(s, ch, x);
    FlowPartless(env, s, s1, x, []);
    var c := s1.turns[ch];
    var held := Some((c.lastToken, (if c.held.Some? then c.held.value.1 else []) + [item]));
    HeldAlike(c, held);
    StillEnsured(s, s, ch, c.(held := held), x);
    ArmPartless(HoldCap(ch, item.id));
    FlowPartless(env, s, Set(s1, ch, c.(held := held)), x, [Arm(HoldCap(ch, item.id))]);
    var flushed := FlushProse(env, s1, ch);
    ProseFlows(env, s1, ch, x);
    FlowsReading(env, s1, flushed.0, x, flushed.1, multiset{});
    SayPartless(env, s1, ch, item.text, Some(item.id), None, item.kind);
    StillSame(flushed.0, flushed.0, x);
    FlowPartless(env, flushed.0, flushed.0, x, SayDecision(env, s1, ch, item));
    FlowOn(env, s1, flushed.0, flushed.0, x, flushed.1, SayDecision(env, s1, ch, item), multiset{});
    FlowAfter(env, s, s1, flushed.0, x, flushed.1 + SayDecision(env, s1, ch, item), multiset{});
  }

  lemma {:induction false} HeldAlike(c: Turn, held: Option<(nat, seq<Decision>)>)
    ensures SameProse(c, c.(held := held))
  {
  }

  lemma {:induction false} EnqueueAllFlows(env: Env, s: Rules, ch: Id, items: seq<Decision>, digesting: bool, x: Id)
    requires Reading(s, x)
    ensures Flows(env, s, EnqueueAll(env, s, ch, items, digesting).0, x, EnqueueAll(env, s, ch, items, digesting).1,
        multiset{})
    decreases |items|
  {
    hide Flows, Still, Reading, Enqueue, Partless;
    NothingPartless();
    StillSame(s, s, x);
    FlowPartless(env, s, s, x, []);
    if items != [] {
      var first := Enqueue(env, s, ch, items[0], digesting);
      EnqueueFlows(env, s, ch, items[0], digesting, x);
      FlowsReading(env, s, first.0, x, first.1, multiset{});
      EnqueueAllFlows(env, first.0, ch, items[1..], digesting, x);
      var rest := EnqueueAll(env, first.0, ch, items[1..], digesting);
      FlowOn(env, s, first.0, rest.0, x, first.1, rest.1, multiset{});
    }
  }

  lemma {:induction false} QueueAlike(c: Turn, pending: seq<Decision>, wait: Option<Wait>, armed: bool)
    ensures SameProse(c, c.(pending := pending)) && SameProse(c, c.(wait := wait))
        && SameProse(c, c.(settleArmed := armed))
  {
  }

  lemma {:induction false} WaitFlows(env: Env, s: Rules, ch: Id, x: Id)
    requires Reading(s, x) && !s.settings.summaries
    ensures Flows(env, s, ReleaseWait(env, s, ch).0, x, ReleaseWait(env, s, ch).1, multiset{})
  {
    hide Flows, Still, Reading, EnqueueAll, Ensure, Set, SameProse, Partless, ArmSettle;
    NothingPartless();
    var s1 := Ensure(s, ch);
    var c := s1.turns[ch].(wait := None);
    QueueAlike(s1.turns[ch], [], None, false);
    StillEnsured(s, s, ch, c, x);
    var s2 := Set(s1, ch, c);
    SetHas(s1, ch, c);
    QueueAlike(c, [], None, false);
    Untrackable(s2, ch);
    StillSet(s2, ch, c.(pending := []), x);
    var s3 := Set(s2, ch, c.(pending := []));
    StillThen(s, s2, s3, x);
    FlowPartless(env, s, s3, x, []);
    EnqueueAllFlows(env, s3, ch, c.pending, false, x);
    StillSettings(s, s1, x, ch);
    FlowAfter(env, s, s3, ReleaseWait(env, s, ch).0, x, ReleaseWait(env, s, ch).1, multiset{});
  }

  lemma {:induction false} StillSettings(s: Rules, s1: Rules, x: Id, ch: Id)
    requires s1 == Ensure(s, ch)
    ensures s1.settings == s.settings && s1.whole == s.whole
  {
  }

  lemma {:induction false} ReadingModes(s: Rules, x: Id)
    requires Reading(s, x)
    ensures !s.settings.summaries && s.settings.mode != Final
  {
    hide D.Valid;
  }

  lemma {:induction false} SkipAlike(c: Turn, skip: bool, text: string)
    requires c.skipReply == skip
    ensures SameProse(c, Led(c, skip, text)) && SameProse(c, c.(skipReply := skip))
  {
  }

  /** A lead-in is read also in a reply that is skipped; the mark of the skipping stays. */
  lemma {:induction false} ReadLeadInFlows(env: Env, s: Rules, ch: Id, turn: Option<string>, text: string,
      t: Option<int>, x: Id)
    requires Reading(s, x)
    ensures Flows(env, s, ReadLeadIn(env, s, ch, turn, text, t).0, x, ReadLeadIn(env, s, ch, turn, text, t).1,
                  If(x == ch, StreamTakes(env, s, ch, turn, D.Delta(text, 0, true), t)))
  {
    hide Flows, Still, Reading, Stream, DropHeld, Ensure, Set, SameProse, Partless, Led, StreamTakes, If, Was;
    NothingPartless();
    ReadingModes(s, x);
    var d := D.Delta(text, 0, true);
    var s0 := Ensure(s, ch);
    var c := s0.turns[ch];
    StillEnsure(s, ch, x);
    FlowPartless(env, s, s0, x, []);
    Untrackable(s0, ch);
    if x == ch {
      NotSkipped(s0, ch);
      SkipAlike(c, false, "");
    }
    StillSet(s0, ch, c.(skipReply := false), x);
    var s' := Set(s0, ch, c.(skipReply := false));
    StillThen(s, s0, s', x);
    FlowPartless(env, s, s', x, []);
    SkippedTakes(env, s, ch, turn, d, t);
    var taken := If(x == ch, StreamTakes(env, s, ch, turn, d, t));
    var streamed := Stream(env, s', ch, turn, d, t);
    StreamFlows(env, s', ch, turn, d, t, x);
    FlowAfter(env, s, s', streamed.0, x, streamed.1, taken);
    FlowsReading(env, s, streamed.0, x, streamed.1, taken);
    var s1 := streamed.0;
    var s2 := Ensure(s1, ch);
    StillEnsure(s1, ch, x);
    ReadingStays(s1, s2, x);
    Untrackable(s2, ch);
    if x == ch {
      NotSkipped(s2, ch);
      SkipAlike(s2.turns[ch], false, env.fold(text));
    }
    StillSet(s2, ch, Led(s2.turns[ch], c.skipReply, env.fold(text)), x);
    var s3 := Set(s2, ch, Led(s2.turns[ch], c.skipReply, env.fold(text)));
    StillThen(s1, s2, s3, x);
    FlowPartless(env, s1, s3, x, []);
    FlowOn(env, s, s1, s3, x, streamed.1, [], taken);
    assert streamed.1 + [] == streamed.1;
  }

  lemma {:induction false} SkippedTakes(env: Env, s: Rules, ch: Id, turn: Option<string>, d: D.Delta, t: Option<int>)
    ensures var s0 := Ensure(s, ch);
            StreamTakes(env, Set(s0, ch, s0.turns[ch].(skipReply := false)), ch, turn, d, t)
                == StreamTakes(env, s, ch, turn, d, t)
  {
    hide ReplyAgain, LeadInAgain;
    FirstReads(env, s, ch, d);
    SkipReads(env, Ensure(s, ch).turns[ch], d);
  }

  lemma {:induction false} SkipReads(env: Env, c: Turn, d: D.Delta)
    ensures LeadInAgain(env, c.(skipReply := false), d) == LeadInAgain(env, c, d)
    ensures ReplyAgain(env, c.(skipReply := false), d) == ReplyAgain(env, c, d)
  {
  }

  /** What a lead-in adds: nothing when its question does not wait, or it was read already, or is blank. */
  function LeadInTakes(env: Env, s: Rules, ch: Id, turn: Option<string>, text: string, id: Option<string>,
      t: Option<int>): multiset<D.Delta> {
    var wait := Was(s, ch).wait;
    var waiting := wait.Some? && (id == None || wait.value.id == id);
    var seen := wait.Some? && env.fold(text) in wait.value.seen;
    if (id.Some? && !waiting) || (seen && env.fold(text) != "") || Blank(text) then multiset{}
    else StreamTakes(env, s, ch, turn, D.Delta(text, 0, true), t)
  }

  lemma {:induction false} StaleTakes(env: Env, s: Rules, ch: Id, turn: Option<string>, text: string,
      id: Option<string>, t: Option<int>)
    requires IsStale(s, ch, turn, t)
    ensures LeadInTakes(env, s, ch, turn, text, id, t) == multiset{}
        && StreamTakes(env, s, ch, turn, D.Delta(text, 0, true), t) == multiset{}
  {
    hide IsStale, LeadInAgain, ReplyAgain;
  }

  lemma {:induction false} LeadInFlows(env: Env, s: Rules, ch: Id, turn: Option<string>, text: string,
      id: Option<string>, t: Option<int>, x: Id)
    requires Reading(s, x)
    ensures var (s', out) := TakeLeadIn(env, s, ch, turn, text, id, t);
            Flows(env, s, s', x, out, If(x == ch, LeadInTakes(env, s, ch, turn, text, id, t)))
  {
    hide Flows, Still, Reading, ReadLeadIn, ReleaseWait, IsStale, Partless, StreamTakes;
    NothingPartless();
    StillSame(s, s, x);
    FlowPartless(env, s, s, x, []);
    ReadingModes(s, x);
    var wait := Was(s, ch).wait;
    var seen := wait.Some? && env.fold(text) in wait.value.seen;
    var first := if seen && env.fold(text) != "" then (s, []) else if Blank(text) then (s, [])
        else ReadLeadIn(env, s, ch, turn, text, t);
    if IsStale(s, ch, turn, t) {
      StaleTakes(env, s, ch, turn, text, id, t);
    } else if !(id.Some? && !(wait.Some? && (id == None || wait.value.id == id))) {
      ReadLeadInFlows(env, s, ch, turn, text, t, x);
      var taken := If(x == ch, LeadInTakes(env, s, ch, turn, text, id, t));
      hide LeadInTakes, If;
      assert Flows(env, s, first.0, x, first.1, taken);
      FlowsReading(env, s, first.0, x, first.1, taken);
      ReadingModes(first.0, x);
      WaitFlows(env, first.0, ch, x);
      FlowOn(env, s, first.0, ReleaseWait(env, first.0, ch).0, x, first.1, ReleaseWait(env, first.0, ch).1, taken);
    }
  }

  lemma {:induction false} ReplyAlike(c: Turn, reply: Option<(string, Option<string>)>)
    ensures SameProse(c, c.(reply := reply)) && SameText(c, Ended(c))
  {
  }

  lemma {:induction false} ReplyStill(env: Env, s: Rules, ch: Id, turn: Option<string>, text: string,
      before: Option<string>, t: Option<int>, x: Id)
    ensures Still(s, Reply(env, s, ch, turn, text, before, t), x)
  {
    hide Still, Ensure, Set, SameProse, IsStale;
    StillSame(s, s, x);
    if !IsStale(s, ch, turn, t) {
      var c := Ensure(s, ch).turns[ch];
      var b := if before.Some? && Trim(before.value) != "" then Some(Trim(before.value)) else None;
      var reply := if Trim(text) == "" then None else Some((Trim(text), b));
      ReplyAlike(c, reply);
      StillEnsured(s, s, ch, c.(reply := reply), x);
    }
  }

  lemma {:induction false} ChimesPartless(s: Rules, c: Turn, ask: Ask, chime: Chime)
    ensures Partless(Chimed(s, chime)) && Partless(AskChimes(s, c, ask))
  {
  }

  lemma {:induction false} KeptAlike(c: Turn)
    requires c.voiced == |c.prose|
    ensures SameProse(c, c.(heldProse := Kept(c) + c.heldProse, voiced := |c.prose|))
  {
    NoneKept(c);
    assert [] + c.heldProse == c.heldProse;
  }

  lemma {:induction false} AllVoiced(s: Rules, x: Id)
    requires Reading(s, x)
    ensures Was(s, x).voiced == |Was(s, x).prose|
  {
    hide D.Valid;
  }

  lemma {:induction false} HoldKeptStill(s: Rules, ch: Id, x: Id)
    requires Reading(s, x)
    ensures Still(s, HoldKept(s, ch), x)
  {
    hide Still, Reading, Ensure, Set, SameProse, Kept;
    var s1 := Ensure(s, ch);
    var c := s1.turns[ch];
    StillEnsure(s, ch, x);
    ReadingStays(s, s1, x);
    Untrackable(s1, ch);
    if x == ch {
      AllVoiced(s1, x);
      KeptAlike(c);
    }
    StillSet(s1, ch, c.(heldProse := Kept(c) + c.heldProse, voiced := |c.prose|), x);
    StillThen(s, s1, HoldKept(s, ch), x);
  }

  lemma {:induction false} EndingFlows(env: Env, s: Rules, ch: Id, x: Id)
    requires Reading(s, x)
    ensures Flows(env, s, Ending(env, s, ch).0, x, Ending(env, s, ch).1, multiset{})
  {
    hide Flows, Still, Reading, FlushProse, HoldKept, Ensure, Set, SameProse, Partless, Ended, ArmSettle;
    NothingPartless();
    ReadingModes(s, x);
    StillSettings(s, Ensure(s, ch), x, ch);
    var c := Ensure(s, ch).turns[ch];
    ReplyAlike(c, None);
    var s2 := Set(Ensure(s, ch), ch, Ended(c));
    LoosenedStreams(env, s, ch, Ended(c), x);
    StreamsReading(env, s, s2, x, [], multiset{});
    HoldKeptStill(s2, ch, x);
    var s3 := HoldKept(s2, ch);
    FlowPartless(env, s2, s3, x, []);
    ProseFlows(env, s3, ch, x);
    var flushed := FlushProse(env, s3, ch);
    FlowAfter(env, s2, s3, flushed.0, x, flushed.1, multiset{});
    if x == ch {
      FlushTight(env, s3, ch);
      LooseThen(env, s, s2, flushed.0, x, flushed.1);
    } else {
      StillEnsuredElse(s, ch, Ended(c), x);
      FlowPartless(env, s, s2, x, []);
      FlowAfter(env, s, s2, flushed.0, x, flushed.1, multiset{});
    }
  }

  /** A change of the turn that lets its prose go. */
  lemma {:induction false} LoosenedStreams(env: Env, s: Rules, ch: Id, c: Turn, x: Id)
    requires Reading(s, x) && SameText(Ensure(s, ch).turns[ch], c)
    ensures Streams(env, s, Set(Ensure(s, ch), ch, c), x, [], multiset{})
  {
    hide SameText, Reading, Streams;
    var s1 := Ensure(s, ch);
    StillEnsure(s, ch, x);
    ReadingStays(s, s1, x);
    StillText(s, s1, x);
    AlikeText(Was(s1, x));
    NothingPartless();
    PartlessHeard([], x);
    StreamStill(env, s, s1, x, []);
    StreamStill(env, s1, Set(s1, ch, c), x, []);
    StreamsOn(env, s, s1, Set(s1, ch, c), x, [], multiset{});
  }

  lemma {:induction false} StillText(s: Rules, s': Rules, x: Id)
    requires Still(s, s', x)
    ensures s'.settings == s.settings && s'.whole == s.whole && SameText(Was(s, x), Was(s', x))
  {
    hide SameText;
  }

  lemma {:induction false} AlikeText(c: Turn)
    ensures SameText(c, c)
  {
  }

  lemma {:induction false} StillEnsuredElse(s: Rules, ch: Id, c: Turn, x: Id)
    requires x != ch
    ensures Still(s, Set(Ensure(s, ch), ch, c), x)
  {
    hide SameProse, Still, Ensure, Set;
    StillEnsure(s, ch, x);
    StillSet(Ensure(s, ch), ch, c, x);
    StillThen(s, Ensure(s, ch), Set(Ensure(s, ch), ch, c), x);
  }

  lemma {:induction false} FlushTight(env: Env, s: Rules, ch: Id)
    ensures Tight(FlushProse(env, s, ch).0, ch)
  {
    hide SayProse, Ready;
  }

  lemma {:induction false} TurnEndFlows(env: Env, s: Rules, ch: Id, turn: Option<string>, t: Option<int>, x: Id)
    requires Reading(s, x)
    ensures Flows(env, s, TurnEnd(env, s, ch, turn, t).0, x, TurnEnd(env, s, ch, turn, t).1, multiset{})
  {
    hide Flows, Still, Reading, ReleaseGap, Ending, IsStale, Partless, SameProse, Chimed, Set, Ensure, TakeReply;
    NothingPartless();
    StillSame(s, s, x);
    FlowPartless(env, s, s, x, []);
    ChimesPartless(s, Begun(0), Ask(Plan, "", [], false, None, None, None, None, false, None), TurnDone);
    FlowPartless(env, s, s, x, Chimed(s, TurnDone));
    var gap := ReleaseGap(env, s, ch);
    GapFlows(env, s, ch, x);
    FlowOn(env, s, s, gap.0, x, Chimed(s, TurnDone), gap.1, multiset{});
    var first := Then((s, Chimed(s, TurnDone)), gap);
    FlowsReading(env, s, first.0, x, first.1, multiset{});
    var taken := TakeReply(env, first.0, ch);
    NoReplyTaken(env, first.0, ch, x);
    FlowOn(env, s, first.0, taken.0, x, first.1, taken.1, multiset{});
    var second := Then(first, taken);
    FlowsReading(env, s, second.0, x, second.1, multiset{});
    EndingFlows(env, second.0, ch, x);
    FlowOn(env, s, second.0, Ending(env, second.0, ch).0, x, second.1, Ending(env, second.0, ch).1, multiset{});
  }

  /** The reply is read in its own only in the mode `Final`. */
  lemma {:induction false} NoReplyTaken(env: Env, s: Rules, ch: Id, x: Id)
    requires Reading(s, x)
    ensures Flows(env, s, TakeReply(env, s, ch).0, x, TakeReply(env, s, ch).1, multiset{})
  {
    hide Flows, Still, Reading, Partless, SameProse, Set, Ensure, Assemble, DropHeld, Restarted, Rewound;
    NothingPartless();
    ReadingModes(s, x);
    StillSettings(s, Ensure(s, ch), x, ch);
    var c := Ensure(s, ch).turns[ch];
    ReplyAlike(c, None);
    StillEnsured(s, s, ch, c.(reply := None), x);
    FlowPartless(env, s, Set(Ensure(s, ch), ch, c.(reply := None)), x, []);
  }

  // ---- Asking, tools ---------------------------------------------------------

  lemma {:induction false} AwaitsAlike(c: Turn, ask: Ask, readAll: bool)
    ensures SameProse(c, Awaits(c, ask, readAll))
  {
    hide Shown;
  }

  lemma {:induction false} AskAlike(c: Turn, hinted: bool)
    ensures SameProse(c, c.(hinted := hinted)) && SameProse(c, c.(awaiting := false))
  {
  }

  lemma {:induction false} ToolAlike(c: Turn)
    ensures SameProse(c, Settled(c)) && SameText(c, c.(released := true))
  {
  }

  lemma {:induction false} NumberStill(s: Rules, ch: Id, ask: Ask, x: Id)
    requires s.settings.mode != Final
    ensures Still(s, TakeNumber(s, ch, ask), x)
  {
    hide Still, Ensure, Set, SameProse, Awaits, Hints, DropHeld;
    var s1 := Ensure(s, ch);
    var c1 := Awaits(s1.turns[ch], ask, !s.settings.questionStep);
    var s2 := Set(s1, ch, c1);
    AwaitsAlike(s1.turns[ch], ask, !s.settings.questionStep);
    StillEnsured(s, s, ch, c1, x);
    SetHas(s1, ch, c1);
    Existing(s2, ch);
    var hinted := Hints(c1, ask, s);
    AskAlike(c1, hinted);
    StillEnsured(s2, s2, ch, c1.(hinted := hinted), x);
    var s3 := Set(s2, ch, c1.(hinted := hinted));
    StillThen(s, s2, s3, x);
    StillSame(s3, s3.(nextDecision := s3.nextDecision + 1), x);
    StillThen(s, s3, s3.(nextDecision := s3.nextDecision + 1), x);
    SetCounts(s1, ch, c1);
    SetCounts(s2, ch, c1.(hinted := hinted));
    NoDrop(s, s1.turns[ch], ask);
  }

  lemma {:induction false} NoDrop(s: Rules, c: Turn, ask: Ask)
    requires s.settings.mode != Final
    ensures !DropsBefore(s, c, ask)
  {
  }

  lemma {:induction false} SetCounts(s: Rules, ch: Id, c: Turn)
    ensures Set(s, ch, c).nextDecision == s.nextDecision && Set(s, ch, c).settings == s.settings
        && Set(s, ch, c).whole == s.whole
  {
  }

  lemma {:induction false} DecidedFlows(env: Env, s: Rules, ch: Id, ask: Ask, item: Decision, x: Id)
    requires Reading(s, x) && ch in s.turns
    ensures Flows(env, s, Decided(env, s, ch, ask, item).0, x, Decided(env, s, ch, ask, item).1, multiset{})
  {
    hide Flows, Still, Reading, Enqueue, WaitLeadIn, ArmSettle, Ensure, Set, SameProse;
    ReadingModes(s, x);
    Existing(s, ch);
    var c := s.turns[ch];
    var s2 := Set(s, ch, c.(pending := c.pending + [item]));
    QueueAlike(c, c.pending + [item], None, false);
    StillEnsured(s, s, ch, c.(pending := c.pending + [item]), x);
    var waited := WaitLeadIn(s2, ch, ask.leadInId);
    StillWait(s2, ch, ask.leadInId, x);
    StillThen(s, s2, waited.0, x);
    FlowStill(env, s, waited.0, x, waited.1);
    EnqueueFlows(env, s, ch, item, false, x);
  }

  lemma {:induction false} AskFlows(env: Env, s: Rules, ch: Id, ask: Ask, x: Id)
    requires Reading(s, x)
    ensures Flows(env, s, AskFor(env, s, ch, ask).0, x, AskFor(env, s, ch, ask).1, multiset{})
  {
    hide Flows, Still, Reading, ReleaseGap, Asked, KeptForLater, TakeNumber, Decided, AskChimes, Item, Ensure, Set,
        SameProse, Partless;
    NothingPartless();
    var first := ReleaseGap(env, s, ch);
    GapFlows(env, s, ch, x);
    FlowsReading(env, s, first.0, x, first.1, multiset{});
    var s1 := Ensure(first.0, ch);
    var c := s1.turns[ch];
    StillEnsure(first.0, ch, x);
    FlowPartless(env, first.0, s1, x, []);
    FlowOn(env, s, first.0, s1, x, first.1, [], multiset{});
    NothingBefore(first.1);
    AskAlike(c, false);
    StillEnsured(first.0, first.0, ch, c.(awaiting := false), x);
    FlowPartless(env, first.0, Set(s1, ch, c.(awaiting := false)), x, []);
    FlowOn(env, s, first.0, Set(s1, ch, c.(awaiting := false)), x, first.1, [], multiset{});
    if Asked(s1, c, ask) {
      AskedFlows(env, s, s1, ch, ask, first.1, x);
    }
  }

  lemma {:induction false} AskedFlows(env: Env, s: Rules, s1: Rules, ch: Id, ask: Ask, out: seq<Action>, x: Id)
    requires Flows(env, s, s1, x, out, multiset{}) && Reading(s1, x) && ch in s1.turns
    ensures var s2 := TakeNumber(s1, ch, ask);
            var c := s1.turns[ch];
            var last := Decided(env, s2, ch, ask, Item(s1, c, ask));
            Flows(env, s, last.0, x, out + AskChimes(s1, c, ask) + last.1, multiset{})
  {
    hide Flows, Still, Reading, TakeNumber, Decided, AskChimes, Item, SameProse, Partless, Light;
    ReadingModes(s1, x);
    var s2 := TakeNumber(s1, ch, ask);
    var c := s1.turns[ch];
    NumberStill(s1, ch, ask, x);
    TakeNumberIs(s1, ch, ask);
    ChimesPartless(s1, c, ask, TurnDone);
    FlowPartless(env, s1, s2, x, AskChimes(s1, c, ask));
    FlowOn(env, s, s1, s2, x, out, AskChimes(s1, c, ask), multiset{});
    var item := Item(s1, c, ask);
    DecidedFlows(env, s2, ch, ask, item, x);
    FlowOn(env, s, s2, Decided(env, s2, ch, ask, item).0, x, out + AskChimes(s1, c, ask),
        Decided(env, s2, ch, ask, item).1, multiset{});
  }

  lemma {:induction false} ToolFlows(env: Env, s: Rules, ch: Id, name: string, summary: string, x: Id)
    requires Reading(s, x)
    ensures Flows(env, s, ToolRuns(env, s, ch, name, summary).0, x, ToolRuns(env, s, ch, name, summary).1, multiset{})
  {
    hide Flows, Streams, Still, Reading, ReleaseGap, FlushProse, Say, Settled, Ensure, Set, SameProse, SameText,
        Partless, Tight;
    NothingPartless();
    var s1 := Ensure(s, ch);
    var c := Settled(s1.turns[ch]);
    ToolAlike(s1.turns[ch]);
    StillEnsured(s, s, ch, c, x);
    var s2 := Set(s1, ch, c);
    FlowPartless(env, s, s2, x, []);
    SetHas(s1, ch, c);
    SetCounts(s1, ch, c);
    Existing(s2, ch);
    ToolAlike(c);
    var said := Say(env, s, ch, ToolText(name, summary), None, None, Tool, []);
    SayPartless(env, s, ch, ToolText(name, summary), None, None, Tool);
    FlowPartless(env, s, s2, x, said);
    assert [] + said == said;
    ToolSays(env, s2, ch, said, x);
    var s3 := Set(s2, ch, c.(released := true));
    LoosenedStreams(env, s2, ch, c.(released := true), x);
    StreamsReading(env, s2, s3, x, [], multiset{});
    ToolSays(env, s3, ch, said, x);
    var let := ReleaseGap(env, s2, ch);
    var flushed := FlushProse(env, let.0, ch);
    FlowAfter(env, s, s2, flushed.0, x, let.1 + flushed.1 + said, multiset{});
    var let' := ReleaseGap(env, s3, ch);
    var flushed' := FlushProse(env, let'.0, ch);
    if x == ch {
      FlushTight(env, let'.0, ch);
      LooseThen(env, s2, s3, flushed'.0, x, let'.1 + flushed'.1 + said);
    } else {
      StillEnsuredElse(s2, ch, c.(released := true), x);
      FlowPartless(env, s2, s3, x, []);
      FlowAfter(env, s2, s3, flushed'.0, x, let'.1 + flushed'.1 + said, multiset{});
    }
    FlowAfter(env, s, s2, flushed'.0, x, let'.1 + flushed'.1 + said, multiset{});
  }

  lemma {:induction false} ToolSays(env: Env, s: Rules, ch: Id, said: seq<Action>, x: Id)
    requires Reading(s, x) && Partless(said)
    ensures var let := ReleaseGap(env, s, ch);
            var flushed := FlushProse(env, let.0, ch);
            Flows(env, s, flushed.0, x, let.1 + flushed.1 + said, multiset{})
  {
    hide Flows, Streams, Still, Reading, ReleaseGap, FlushProse, Partless, Tight;
    var let := ReleaseGap(env, s, ch);
    GapFlows(env, s, ch, x);
    FlowsReading(env, s, let.0, x, let.1, multiset{});
    var flushed := FlushProse(env, let.0, ch);
    ProseFlows(env, let.0, ch, x);
    FlowOn(env, s, let.0, flushed.0, x, let.1, flushed.1, multiset{});
    FlowsReading(env, let.0, flushed.0, x, flushed.1, multiset{});
    StillSame(flushed.0, flushed.0, x);
    FlowPartless(env, flushed.0, flushed.0, x, said);
    FlowOn(env, s, flushed.0, flushed.0, x, let.1 + flushed.1, said, multiset{});
  }

  // ---- Timers and answers ----------------------------------------------------

  lemma {:induction false} NotRecapped(env: Env, s: Rules, ch: Id, leadin: bool, focused: Option<Id>, x: Id)
    requires Reading(s, x)
    ensures var (s', out, _) := Summarizing(env, s, ch, leadin, focused); Flows(env, s, s', x, out, multiset{})
  {
    hide Flows, Still, Reading, HoldKept, FlushProse, SayRaw, Land, Dispatch, Ensure, JoinSpace, Kept, Set, Alloc,
        Partless;
    NothingPartless();
    ReadingModes(s, x);
    var s0 := Ensure(s, ch);
    StillEnsure(s, ch, x);
    ReadingStays(s, s0, x);
    HoldKeptStill(s0, ch, x);
    var s1 := HoldKept(s0, ch);
    StillThen(s, s0, s1, x);
    FlowPartless(env, s, s1, x, []);
    ProseFlows(env, s1, ch, x);
    FlowAfter(env, s, s1, FlushProse(env, s1, ch).0, x, FlushProse(env, s1, ch).1, multiset{});
  }

  lemma {:induction false} SettleFlows(env: Env, s: Rules, ch: Id, gen: nat, focused: Option<Id>, x: Id)
    requires Reading(s, x)
    ensures Flows(env, s, FireSettle(env, s, ch, gen, focused).0, x, FireSettle(env, s, ch, gen, focused).1, multiset{})
  {
    hide Flows, Still, Reading, Summarizing, EnqueueAll, Set, SameProse, Partless;
    NothingPartless();
    StillSame(s, s, x);
    FlowPartless(env, s, s, x, []);
    if ch in s.turns {
      var c := s.turns[ch];
      QueueAlike(c, [], None, false);
      Untrackable(s, ch);
      StillSet(s, ch, c.(settleArmed := false), x);
      var s1 := Set(s, ch, c.(settleArmed := false));
      FlowPartless(env, s, s1, x, []);
      SetHas(s, ch, c.(settleArmed := false));
      Untrackable(s1, ch);
      QueueAlike(s1.turns[ch], [], None, false);
      StillSet(s1, ch, s1.turns[ch].(pending := []), x);
      var s2 := Set(s1, ch, s1.turns[ch].(pending := []));
      StillThen(s, s1, s2, x);
      FlowPartless(env, s, s2, x, []);
      var items := c.pending;
      NotRecapped(env, s2, ch, items != [], focused, x);
      var (s3, out, digesting) := Summarizing(env, s2, ch, items != [], focused);
      FlowsReading(env, s2, s3, x, out, multiset{});
      EnqueueAllFlows(env, s3, ch, items, digesting, x);
      var rest := EnqueueAll(env, s3, ch, items, digesting);
      FlowOn(env, s2, s3, rest.0, x, out, rest.1, multiset{});
      FlowAfter(env, s, s2, rest.0, x, out + rest.1, multiset{});
    }
  }

  lemma {:induction false} FireFlows(env: Env, s: Rules, timer: Timer, focused: Option<Id>, x: Id)
    requires Reading(s, x)
    ensures Flows(env, s, Fire(env, s, timer, focused).0, x, Fire(env, s, timer, focused).1, multiset{})
  {
    hide Flows, Still, Reading, FireSettle, ReleaseWait, ReleaseGap, Land, SayDecisions, Set, SameProse, Partless;
    NothingPartless();
    StillSame(s, s, x);
    FlowPartless(env, s, s, x, []);
    ReadingModes(s, x);
    match timer
    case Settle(ch, gen) => SettleFlows(env, s, ch, gen, focused, x);
    case HoldCap(ch, id) =>
      if ch in s.turns && s.turns[ch].held.Some? {
        HeldAlike(s.turns[ch], None);
        Untrackable(s, ch);
        StillSet(s, ch, s.turns[ch].(held := None), x);
        DecisionsPartless(env, s, ch, s.turns[ch].held.value.1);
        FlowPartless(env, s, Set(s, ch, s.turns[ch].(held := None)), x,
            SayDecisions(env, s, ch, s.turns[ch].held.value.1));
      }
    case Watchdog(k) =>
      if k in s.watched {
        var s1 := s.(watched := s.watched - {k});
        StillSame(s, s1, x);
        FlowPartless(env, s, s1, x, []);
        StillLand(env, s1, Some(k), s.watched[k], x);
        StillThen(s, s1, Land(env, s1, Some(k), s.watched[k]).0, x);
        LandPartless(env, s1, Some(k), s.watched[k]);
        FlowPartless(env, s, Land(env, s1, Some(k), s.watched[k]).0, x, Land(env, s1, Some(k), s.watched[k]).1);
      }
    case LeadIn(ch, gen) => WaitFlows(env, s, ch, x);
    case Gap(ch, gen) => GapFlows(env, s, ch, x);
  }

  lemma {:induction false} DeliveredStill(s: Rules, job: Job, x: Id)
    ensures Still(s, Delivered(s, job), x)
  {
    hide Still, Set, SameProse, Owns, Answer;
    StillSame(s, s, x);
    if job.channel in s.turns {
      AnswerAlike(s.turns[job.channel], Owns(s, job), job.gen);
      Untrackable(s, job.channel);
      StillSet(s, job.channel, Answer(s.turns[job.channel], Owns(s, job), job.gen), x);
    }
  }

  lemma {:induction false} AnswerAlike(c: Turn, owner: bool, gen: nat)
    ensures SameProse(c, Answer(c, owner, gen))
  {
  }

  lemma {:induction false} DigestFlows(env: Env, s: Rules, job: Job, summary: Option<string>, x: Id)
    requires Reading(s, x)
    ensures Flows(env, s, DigestDone(env, s, job, summary).0, x, DigestDone(env, s, job, summary).1, multiset{})
  {
    hide Flows, Still, Reading, Land, Delivered, SayDecisions, HeldFor, NoParts;
    DeliveredStill(s, job, x);
    var s1 := Delivered(s, job);
    var r := Release(job.channel, job.gen, job.text, job.leadin, summary);
    var landed := Land(env, s1, job.slot, r);
    StillLand(env, s1, job.slot, r, x);
    StillThen(s, s1, landed.0, x);
    LandPartless(env, s1, job.slot, r);
    DecisionsPartless(env, landed.0, job.channel, HeldFor(s, job));
    FlowPartless(env, s, landed.0, x, landed.1 + SayDecisions(env, landed.0, job.channel, HeldFor(s, job)));
  }

  // ---- Cancelling elsewhere --------------------------------------------------

  lemma {:induction false} DropStill(s: Rules, ch: Id, x: Id)
    requires ch != x
    ensures Still(s, DropHeld(s, ch).0, x) && ch in DropHeld(s, ch).0.turns
  {
    hide Still, SameProse, Ensure, D.Release;
    var s1 := Ensure(s, ch);
    StillEnsure(s, ch, x);
    var c := s1.turns[ch].(heldProse := [], order := D.Release(s1.turns[ch].order).0);
    StillSet(s1, ch, c, x);
    StillThen(s, s1, Set(s1, ch, c), x);
  }

  lemma {:induction false} RenamedDrops(s: Rules, ch: Id, x: Id)
    requires ch != x
    ensures var s1 := DropHeld(Renamed(Renamed(s)), ch).0; Still(s, s1, x) && ch in s1.turns
  {
    hide Still, DropHeld;
    DropStill(Renamed(Renamed(s)), ch, x);
    StillSame(s, Renamed(Renamed(s)), x);
    StillThen(s, Renamed(Renamed(s)), DropHeld(Renamed(Renamed(s)), ch).0, x);
  }

  lemma {:induction false} CatchUpStill(s: Rules, ch: Id, x: Id)
    requires ch != x
    ensures Still(s, CatchUp(s, ch).0, x) && ch in CatchUp(s, ch).0.turns
  {
    hide Still, DropHeld, Cancel, Waiting;
    RenamedDrops(s, ch, x);
    var s1 := DropHeld(Renamed(Renamed(s)), ch).0;
    var c := Cancel(s1.turns[ch].(voiced := |s1.turns[ch].prose|), s.nextGen + 1, s.nextGen + 2);
    StillSet(s1, ch, c, x);
    StillThen(s, s1, Set(s1, ch, c), x);
  }

  lemma {:induction false} TurnStartStill(s: Rules, ch: Id, turn: Option<string>, t: Option<int>, x: Id)
    requires ch != x
    ensures Still(s, TurnStart(s, ch, turn, t).0, x) && Partless(TurnStart(s, ch, turn, t).1)
  {
    hide Still, DropHeld, Cancel, Waiting, Retire, IsStale, NoParts, Cancelling, Set;
    StillSame(s, s, x);
    RenamedDrops(s, ch, x);
    var s1 := DropHeld(Renamed(Renamed(s)), ch).0;
    var c := s1.turns[ch];
    DroppedPartless(ch, Waiting(c));
    WipePartless(ch, true);
    if !IsStale(s, ch, turn, t) {
      var s' := TurnStart(s, ch, turn, t).0;
      OnlyOne(s1, s', ch, x);
      StillThen(s, s1, s', x);
    }
  }

  lemma {:induction false} OnlyOne(s: Rules, s': Rules, ch: Id, x: Id)
    requires ch != x && exists c :: s' == Set(s, ch, c)
    ensures Still(s, s', x)
  {
    var c :| s' == Set(s, ch, c);
    StillSet(s, ch, c, x);
  }

  lemma {:induction false} WipePartless(ch: Id, resume: bool)
    ensures Partless([Wipe(ch, resume)])
  {
  }

  lemma {:induction false} DroppedPartless(ch: Id, ds: seq<Decision>)
    ensures Partless(Cancelling(ch, ds))
  {
    hide NoParts;
    if ds != [] {
      CancelPartless(ch, ds[0]);
      DroppedPartless(ch, ds[1..]);
    }
  }

  lemma {:induction false} AnsweredStill(s: Rules, ch: Id, x: Id)
    requires ch != x
    ensures Still(s, Answered(s, ch).0, x) && Partless(Answered(s, ch).1)
  {
    hide Still, CatchUp, Ensure, Settled, NoParts, Cancelling;
    var s1 := Ensure(s, ch);
    StillEnsure(s, ch, x);
    StillSet(s1, ch, Settled(s1.turns[ch]), x);
    var s2 := Set(s1, ch, Settled(s1.turns[ch]));
    StillThen(s, s1, s2, x);
    CatchUpStill(s2, ch, x);
    StillThen(s, s2, CatchUp(s2, ch).0, x);
    DroppedPartless(ch, CatchUp(s2, ch).1);
    WipePartless(ch, false);
  }

  lemma {:induction false} StopStill(s: Rules, chs: seq<Id>, x: Id)
    requires x !in chs
    ensures Still(s, StopAll(s, chs).0, x) && Partless(StopAll(s, chs).1)
    decreases |chs|
  {
    hide Still, CatchUp, Ensure, NoParts, Cancelling;
    StillSame(s, s, x);
    if chs != [] {
      var s1 := Ensure(s, chs[0]);
      StillEnsure(s, chs[0], x);
      var c := s1.turns[chs[0]].(awaiting := false);
      StillSet(s1, chs[0], c, x);
      var s2 := Set(s1, chs[0], c);
      StillThen(s, s1, s2, x);
      CatchUpStill(s2, chs[0], x);
      var s3 := CatchUp(s2, chs[0]).0;
      StillThen(s, s2, s3, x);
      DroppedPartless(chs[0], CatchUp(s2, chs[0]).1);
      StopStill(s3, chs[1..], x);
      StillThen(s, s3, StopAll(s3, chs[1..]).0, x);
    }
  }

  lemma {:induction false} FlushStill(env: Env, s: Rules, ch: Id, queued: bool, x: Id)
    requires ch != x
    ensures Still(s, Flush(env, s, ch).0, x) && Partless(Flush(env, s, ch).1)
    ensures Still(s, FlushReady(env, s, ch, queued).0, x) && Partless(FlushReady(env, s, ch, queued).1)
  {
    hide Still, CatchUp, NoParts, SayDecisions;
    StillSame(s, s, x);
    if ch in s.turns {
      StillSet(s, ch, s.turns[ch].(skipReply := true), x);
      var s1 := Set(s, ch, s.turns[ch].(skipReply := true));
      CatchUpStill(s1, ch, x);
      StillThen(s, s1, CatchUp(s1, ch).0, x);
      DecisionsPartless(env, CatchUp(s1, ch).0, ch, CatchUp(s1, ch).1);
      CatchUpStill(s, ch, x);
      var (s2, decisions, any) := CatchUp(s, ch);
      Existing(s2, ch);
      StillSet(s2, ch, s2.turns[ch].(skipReply := true), x);
      var s3 := Set(s2, ch, s2.turns[ch].(skipReply := true));
      StillThen(s, s2, s3, x);
      DecisionsPartless(env, s2, ch, decisions);
    }
  }

  lemma {:induction false} CloseStill(s: Rules, ch: Id, x: Id)
    requires ch != x
    ensures Still(s, Close(s, ch).0, x) && Partless(Close(s, ch).1)
  {
    hide SameProse, NoParts, Cancelling, Waiting;
    Alike(Was(s, x));
    if ch in s.turns {
      DroppedPartless(ch, Waiting(s.turns[ch]));
    }
  }

  lemma {:induction false} NewTurnAlike(c: Turn)
    requires !c.skipReply
    ensures SameProse(c, Reopened(c))
  {
  }

  lemma {:induction false} NewTurnStill(s: Rules, ch: Id, x: Id)
    requires Reading(s, x)
    ensures Still(s, TakeNewTurn(s, ch).0, x)
  {
    hide Still, SameProse, Reopened, Reading;
    StillSame(s, s, x);
    if ch in s.turns {
      if x == ch {
        NotSkipped(s, ch);
        NewTurnAlike(s.turns[ch]);
      }
      Untrackable(s, ch);
      StillSet(s, ch, Reopened(s.turns[ch]), x);
    }
  }

  // ---- Every input -----------------------------------------------------------

  /** Not a wipe, stop, flush or close of `x`; and prose goes on being read as it comes. */
  predicate Continues(op: Op, x: Id) {
    match op
    case OpTurnStart(ch, _, _) => ch != x
    case OpAnswered(ch) => ch != x
    case OpFlush(ch) => ch != x
    case OpFlushReady(ch, _) => ch != x
    case OpClose(ch) => ch != x
    case OpStopAll(chs) => x !in chs
    case OpConfigure(settings) => !settings.summaries && settings.mode != Final
    case _ => true
  }

  predicate IsSetting(op: Op) {
    op.OpMute? || op.OpWhole? || op.OpConfigure?
  }

  /** The deltas of `x` an input brings. */
  function Takes(env: Env, s: Rules, op: Op, x: Id): multiset<D.Delta> {
    match op
    case OpStream(ch, turn, d, t) => If(x == ch, StreamTakes(env, s, ch, turn, d, t))
    case OpLeadIn(ch, turn, text, id, t) => If(x == ch, LeadInTakes(env, s, ch, turn, text, id, t))
    case _ => multiset{}
  }

  lemma {:induction false} StepFlows(env: Env, s: Rules, op: Op, x: Id)
    requires Reading(s, x) && Continues(op, x) && !IsSetting(op)
    ensures Flows(env, s, Step(env, s, op).0, x, Step(env, s, op).1, Takes(env, s, op, x))
  {
    hide Flows, Still, Reading, Partless, Stream, TakeLeadIn, Reply, TurnStart, TurnEnd, AskFor, ToolRuns, Answered,
        StopAll, Flush;
    hide FlushReady, TakeNewTurn, Close, Fire, DigestDone, LeadInTakes, StreamTakes, If;
    NothingPartless();
    match op
    case OpStream(ch, turn, d, t) => StreamFlows(env, s, ch, turn, d, t, x);
    case OpLeadIn(ch, turn, text, id, t) => LeadInFlows(env, s, ch, turn, text, id, t, x);
    case OpReply(ch, turn, text, before, t) =>
      ReplyStill(env, s, ch, turn, text, before, t, x);
      FlowPartless(env, s, Reply(env, s, ch, turn, text, before, t), x, []);
    case OpTurnStart(ch, turn, t) =>
      TurnStartStill(s, ch, turn, t, x);
      FlowPartless(env, s, TurnStart(s, ch, turn, t).0, x, TurnStart(s, ch, turn, t).1);
    case OpTurnEnd(ch, turn, t) => TurnEndFlows(env, s, ch, turn, t, x);
    case OpAsk(ch, ask) => AskFlows(env, s, ch, ask, x);
    case OpTool(ch, name, summary) => ToolFlows(env, s, ch, name, summary, x);
    case OpAnswered(ch) =>
      AnsweredStill(s, ch, x);
      FlowPartless(env, s, Answered(s, ch).0, x, Answered(s, ch).1);
    case OpStopAll(chs) =>
      StopStill(s, chs, x);
      FlowPartless(env, s, StopAll(s, chs).0, x, StopAll(s, chs).1);
    case OpFlush(ch) =>
      FlushStill(env, s, ch, false, x);
      FlowPartless(env, s, Flush(env, s, ch).0, x, Flush(env, s, ch).1);
    case OpFlushReady(ch, queued) =>
      FlushStill(env, s, ch, queued, x);
      FlowPartless(env, s, FlushReady(env, s, ch, queued).0, x, FlushReady(env, s, ch, queued).1);
    case OpNewTurn(ch) =>
      NewTurnStill(s, ch, x);
      FlowPartless(env, s, TakeNewTurn(s, ch).0, x, []);
    case OpClose(ch) =>
      CloseStill(s, ch, x);
      FlowPartless(env, s, Close(s, ch).0, x, Close(s, ch).1);
    case OpFire(timer, focused) => FireFlows(env, s, timer, focused, x);
    case OpDigest(job, recap) => DigestFlows(env, s, job, recap, x);
  }

  /** Of the texts `x`'s deltas make in a run, those made in each step, in order, with code read or not
      as the verbosity is then. */
  function MadeIn(env: Env, s: Rules, ops: seq<Op>, x: Id): seq<string>
    decreases |ops|
  {
    if ops == [] then [] else
      var s1 := Step(env, s, ops[0]).0;
      var f, f1 := FedOf(s, x), FedOf(s1, x);
      (if f <= f1 then Made(env, f, f1[|f|..], s.settings.verbosity == SkipCode) else []) + MadeIn(env, s1, ops[1..], x)
  }

  function TakenIn(env: Env, s: Rules, ops: seq<Op>, x: Id): multiset<D.Delta>
    decreases |ops|
  {
    if ops == [] then multiset{} else Takes(env, s, ops[0], x) + TakenIn(env, Step(env, s, ops[0]).0, ops[1..], x)
  }

  /** The state part of `Flows`, without the settings, which an input may change. */
  ghost predicate Flowed(env: Env, s: Rules, s': Rules, x: Id, heard: seq<string>, made: seq<string>,
      taken: multiset<D.Delta>) {
    && Reading(s', x) && FedOf(s, x) <= FedOf(s', x)
    && heard + HeldOf(s', x) == HeldOf(s, x) + made
    && multiset(FedOf(s', x)) + multiset(AheadOf(s', x)) == multiset(FedOf(s, x)) + multiset(AheadOf(s, x)) + taken
  }

  lemma {:induction false} SettingFlowed(env: Env, s: Rules, op: Op, x: Id)
    requires Reading(s, x) && Continues(op, x) && IsSetting(op)
    ensures Flowed(env, s, Step(env, s, op).0, x, Heard(Step(env, s, op).1, x),
        Made(env, FedOf(s, x), [], s.settings.verbosity == SkipCode),
                   Takes(env, s, op, x))
    ensures FedOf(Step(env, s, op).0, x) == FedOf(s, x)
  {
    hide D.Valid, Parts;
    if op.OpMute? {
      SilencePartless(s, op.level);
      PartlessHeard(SetMute(s, op.level).1, x);
    }
  }

  lemma {:induction false} SilencePartless(s: Rules, level: nat)
    ensures Partless(SetMute(s, level).1)
  {
  }

  lemma {:induction false} StepFlowed(env: Env, s: Rules, op: Op, x: Id)
    requires Reading(s, x) && Continues(op, x)
    ensures var (s1, out) := Step(env, s, op);
            && FedOf(s, x) <= FedOf(s1, x)
            && Flowed(env, s, s1, x, Heard(out, x), Made(env, FedOf(s, x), FedOf(s1, x)[|FedOf(s, x)|..],
                s.settings.verbosity == SkipCode),
                      Takes(env, s, op, x))
  {
    hide Reading, Step, Takes, Heard, Made, HeldOf, FedOf, AheadOf;
    if IsSetting(op) {
      SettingFlowed(env, s, op, x);
      assert FedOf(s, x)[|FedOf(s, x)|..] == [];
    } else {
      StepFlows(env, s, op, x);
    }
  }

  /** Prose is conserved: in any run without a wipe, stop, flush or close of `x`, whatever the read mode,
      the queue length, the verbosity, the mute level and the joining of messages do meanwhile, the chunks
      heard, then those held, are those held before, then what the assembler made, in order, each once;
      and every delta taken was fed or waits for its gap. */
  lemma {:induction false} ProseConserved(env: Env, s: Rules, ops: seq<Op>, x: Id)
    requires Reading(s, x) && forall op :: op in ops ==> Continues(op, x)
    ensures var (s', out) := Run(env, s, ops);
            && Heard(out, x) + HeldOf(s', x) == HeldOf(s, x) + MadeIn(env, s, ops, x)
            && multiset(FedOf(s', x)) + multiset(AheadOf(s', x))
               == multiset(FedOf(s, x)) + multiset(AheadOf(s, x)) + TakenIn(env, s, ops, x)
            && Reading(s', x)
    decreases |ops|
  {
    hide Reading, Step, Takes, Heard, Made, HeldOf, FedOf, AheadOf, Continues;
    if ops == [] {
      NothingHeard(x);
      assert [] + HeldOf(s, x) == HeldOf(s, x) && HeldOf(s, x) + [] == HeldOf(s, x);
    } else {
      assert ops[0] in ops;
      StepFlowed(env, s, ops[0], x);
      var (s1, out) := Step(env, s, ops[0]);
      ProseConserved(env, s1, ops[1..], x);
      var (s', more) := Run(env, s1, ops[1..]);
      HeardAdd(out, more, x);
      TextsThen(HeldOf(s, x), Heard(out, x), HeldOf(s1, x), Heard(more, x), HeldOf(s', x),
                Made(env, FedOf(s, x), FedOf(s1, x)[|FedOf(s, x)|..], s.settings.verbosity == SkipCode),
                    MadeIn(env, s1, ops[1..], x));
    }
  }

  lemma {:induction false} NothingHeard(x: Id)
    ensures Heard([], x) == []
  {
  }

  // ---- Nothing ready waits ---------------------------------------------------

  lemma {:induction false} MuteTight(s: Rules, level: nat, x: Id)
    ensures Tight(s, x) ==> Tight(SetMute(s, level).0, x)
  {
  }

  lemma {:induction false} StepTight(env: Env, s: Rules, op: Op, x: Id)
    requires Reading(s, x) && Continues(op, x) && !op.OpWhole? && !op.OpConfigure? && Tight(s, x)
    ensures Tight(Step(env, s, op).0, x)
  {
    if op.OpMute? {
      MuteTight(s, op.level, x);
    } else {
      hide Tight, Streams, Reading, Step, Takes;
      StepFlows(env, s, op, x);
    }
  }

  /** Prose is not late: while the read mode, the queue length and the joining of messages stay, nothing
      that is ready to be read is held after any input. */
  lemma {:induction false} NothingReadyWaits(env: Env, s: Rules, ops: seq<Op>, x: Id)
    requires Reading(s, x) && Tight(s, x)
    requires forall op :: op in ops ==> Continues(op, x) && !op.OpWhole? && !op.OpConfigure?
    ensures Tight(Run(env, s, ops).0, x)
    ensures Reading(Run(env, s, ops).0, x) && Run(env, s, ops).0.whole == s.whole
    ensures Run(env, s, ops).0.settings == s.settings.(muteLevel := Run(env, s, ops).0.settings.muteLevel)
    decreases |ops|
  {
    hide Tight, Reading, Step, Takes, Continues, Flowed;
    if ops != [] {
      assert ops[0] in ops;
      StepReading(env, s, ops[0], x);
      StepTight(env, s, ops[0], x);
      StepSettings(env, s, ops[0], x);
      NothingReadyWaits(env, Step(env, s, ops[0]).0, ops[1..], x);
    }
  }

  lemma {:induction false} StepReading(env: Env, s: Rules, op: Op, x: Id)
    requires Reading(s, x) && Continues(op, x)
    ensures Reading(Step(env, s, op).0, x)
  {
    hide Reading, Step, Takes, Heard, Made, HeldOf, FedOf, AheadOf, Continues;
    StepFlowed(env, s, op, x);
  }

  lemma {:induction false} StepSettings(env: Env, s: Rules, op: Op, x: Id)
    requires Reading(s, x) && Continues(op, x) && !op.OpWhole? && !op.OpConfigure?
    ensures var s' := Step(env, s, op).0;
            s'.whole == s.whole && s'.settings == s.settings.(muteLevel := s'.settings.muteLevel)
  {
    if !op.OpMute? {
      hide Flows, Reading, Step, Takes;
      StepFlows(env, s, op, x);
      FlowsSettings(env, s, Step(env, s, op).0, x, Step(env, s, op).1, Takes(env, s, op, x));
    }
  }

  /** In the words of the read modes: in `immediate` nothing is held, in `queue` less than the queue length,
      and nothing at all once the turn let its prose go. */
  lemma {:induction false} HeldByMode(env: Env, settings: Settings, ops: seq<Op>, x: Id)
    requires !settings.summaries && settings.mode != Final
    requires forall op :: op in ops ==> Continues(op, x) && !op.OpWhole? && !op.OpConfigure?
    ensures var s' := Run(env, Start(settings), ops).0;
            && (settings.mode == Immediate || Was(s', x).released ==> HeldOf(s', x) == [])
            && (settings.mode == Queue ==> HeldOf(s', x) == [] || |HeldOf(s', x)| < settings.minqueue)
  {
    hide Reading, Run, Continues;
    StartReading(settings, x);
    NothingReadyWaits(env, Start(settings), ops, x);
  }

  // ---- By the turn end -------------------------------------------------------

  lemma {:induction false} FlushedTurn(env: Env, s: Rules, ch: Id, n: nat)
    requires ch in s.turns
    ensures var s' := FlushUpto(env, s, ch, n).0;
            && ch in s'.turns && s'.turns[ch].order == s.turns[ch].order
            && (n >= |s.turns[ch].heldProse| ==> s'.turns[ch].heldProse == [])
  {
    hide SayProse, Ensure;
    Existing(s, ch);
  }

  lemma {:induction false} HoldOrder(env: Env, s: Rules, ch: Id, c: Turn, texts: seq<(string, bool)>,
      breaks: Option<nat>)
    ensures var s' := Hold(env, s, ch, c, texts, breaks).0; ch in s'.turns && s'.turns[ch].order == c.order
  {
    hide FlushUpto, Ready, Set;
    var c1 := c.(heldProse := c.heldProse + texts);
    var s1 := Set(s, ch, c1);
    SetHas(s, ch, c);
    SetHas(s, ch, c1);
    FlushedTurn(env, s1, ch, |c1.heldProse|);
    FlushedTurn(env, s1, ch, |c.heldProse| + (if breaks.Some? then breaks.value else 0));
  }

  lemma {:induction false} AssembleOrder(env: Env, s: Rules, ch: Id, deltas: seq<D.Delta>)
    requires ch in s.turns && !s.settings.summaries
    ensures var s' := Assemble(env, s, ch, deltas).0; ch in s'.turns && s'.turns[ch].order == s.turns[ch].order
  {
    hide FeedDeltas, Hold, Kept, Ensure;
    if deltas != [] {
      Existing(s, ch);
      var c := s.turns[ch];
      var d0 := Draft(c.(voiced := |c.prose|), Kept(c), None);
      var d := FeedDeltas(env, d0, deltas, s.settings.verbosity == SkipCode);
      DeltasFed(env, d0, deltas, s.settings.verbosity == SkipCode);
      HoldOrder(env, s, ch, d.c.(voiced := |d.c.prose|), d.texts, d.breaks);
    }
  }

  lemma {:induction false} GapEmpties(env: Env, s: Rules, ch: Id)
    requires !s.settings.summaries
    ensures var s' := ReleaseGap(env, s, ch).0; ch in s'.turns && s'.turns[ch].order.ahead == []
  {
    hide Assemble, D.Release, D.Valid, Ensure, Set;
    var s1 := Ensure(s, ch);
    var c := s1.turns[ch];
    ReleasedOrder(c.order);
    var c' := c.(order := D.Release(c.order).0);
    SetHas(s1, ch, c');
    SetCounts(s1, ch, c');
    StillSettings(s, s1, ch, ch);
    AssembleOrder(env, Set(s1, ch, c'), ch, D.Release(c.order).1);
  }

  lemma {:induction false} EndingEmpties(env: Env, s: Rules, ch: Id)
    requires !s.settings.summaries && ch in s.turns && s.turns[ch].order.ahead == []
    ensures var s' := Ending(env, s, ch).0;
        ch in s'.turns && s'.turns[ch].order.ahead == [] && s'.turns[ch].heldProse == []
  {
    hide FlushUpto, Kept, Ensure;
    Existing(s, ch);
    var s2 := Set(s, ch, Ended(s.turns[ch]));
    Existing(s2, ch);
    FlushedTurn(env, HoldKept(s2, ch), ch, |HoldKept(s2, ch).turns[ch].heldProse|);
  }

  lemma {:induction false} ReplyOrder(env: Env, s: Rules, ch: Id)
    requires s.settings.mode != Final && ch in s.turns
    ensures var s' := TakeReply(env, s, ch).0;
            s'.settings == s.settings && ch in s'.turns && s'.turns[ch].order == s.turns[ch].order
  {
    hide Assemble, DropHeld, Restarted, Rewound, Ensure;
    Existing(s, ch);
  }

  lemma {:induction false} FlowsSettings(env: Env, s: Rules, s': Rules, x: Id, out: seq<Action>,
      taken: multiset<D.Delta>)
    requires Flows(env, s, s', x, out, taken)
    ensures s'.settings == s.settings && s'.whole == s.whole
  {
    hide Reading, Made, Heard, Tight;
  }

  lemma {:induction false} TurnEndEmpties(env: Env, s: Rules, ch: Id, turn: Option<string>, t: Option<int>)
    requires Reading(s, ch) && !IsStale(s, ch, turn, t)
    ensures var s' := TurnEnd(env, s, ch, turn, t).0; HeldOf(s', ch) == [] && AheadOf(s', ch) == []
  {
    hide Flows, Reading, ReleaseGap, Ending, IsStale, Chimed, TakeReply;
    ReadingModes(s, ch);
    var gap := ReleaseGap(env, s, ch);
    GapEmpties(env, s, ch);
    GapFlows(env, s, ch, ch);
    FlowsSettings(env, s, gap.0, ch, gap.1, multiset{});
    ReplyOrder(env, gap.0, ch);
    EndingEmpties(env, TakeReply(env, gap.0, ch).0, ch);
  }

  lemma {:induction false} StartReading(settings: Settings, x: Id)
    requires !settings.summaries && settings.mode != Final
    ensures Reading(Start(settings), x) && HeldOf(Start(settings), x) == [] && FedOf(Start(settings), x) == []
    ensures AheadOf(Start(settings), x) == []
  {
  }

  /** So when the turn of `x` ends, all its prose was read: the chunks of every delta taken, each delta fed
      once, in the order they were assembled. */
  lemma {:induction false} AllReadByTheEnd(env: Env, settings: Settings, ops: seq<Op>, x: Id, turn: Option<string>,
      t: Option<int>)
    requires !settings.summaries && settings.mode != Final && forall op :: op in ops ==> Continues(op, x)
    requires !IsStale(Run(env, Start(settings), ops).0, x, turn, t)
    ensures var all := ops + [OpTurnEnd(x, turn, t)];
            var (s', out) := Run(env, Start(settings), all);
            && Heard(out, x) == MadeIn(env, Start(settings), all, x)
            && multiset(FedOf(s', x)) == TakenIn(env, Start(settings), all, x)
  {
    hide Reading, Step, Takes, Heard, Made, MadeIn, TakenIn, HeldOf, FedOf, AheadOf, Start, IsStale, Continues;
    var s, last := Start(settings), OpTurnEnd(x, turn, t);
    var all := ops + [last];
    StartReading(settings, x);
    ProseConserved(env, s, ops, x);
    EndContinues(x, turn, t);
    ProseConserved(env, s, all, x);
    RunSnoc(env, s, ops, last);
    EndStep(env, Run(env, s, ops).0, x, turn, t);
    TurnEndEmpties(env, Run(env, s, ops).0, x, turn, t);
    var (s', out) := Run(env, s, all);
    assert Heard(out, x) + [] == Heard(out, x) && [] + MadeIn(env, s, all, x) == MadeIn(env, s, all, x);
    assert multiset(FedOf(s', x)) + multiset{} == multiset(FedOf(s', x));
    assert multiset{} + multiset{} + TakenIn(env, s, all, x) == TakenIn(env, s, all, x);
  }

  lemma {:induction false} EndContinues(x: Id, turn: Option<string>, t: Option<int>)
    ensures Continues(OpTurnEnd(x, turn, t), x)
  {
  }

  lemma {:induction false} EndStep(env: Env, s: Rules, x: Id, turn: Option<string>, t: Option<int>)
    ensures Step(env, s, OpTurnEnd(x, turn, t)) == TurnEnd(env, s, x, turn, t)
  {
    hide TurnEnd;
  }

  lemma {:induction false} RunSnoc(env: Env, s: Rules, ops: seq<Op>, op: Op)
    ensures Run(env, s, ops + [op]).0 == Step(env, Run(env, s, ops).0, op).0
    decreases |ops|
  {
    hide Step;
    if ops == [] {
      assert ([op])[1..] == [];
    } else {
      assert (ops + [op])[1..] == ops[1..] + [op];
      RunSnoc(env, Step(env, s, ops[0]).0, ops[1..], op);
    }
  }
}
