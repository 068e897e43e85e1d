/** A turn from its start to its end: what a start clears and refuses, what is read once, what the end reads. */
module RulesTurns {
  import opened Options
  import opened Wordings
  import D = DeltaOrders
  import opened RulesModel
  import opened RulesFrames
  import opened RulesTexts
  import opened RulesReads
  import opened RulesProse

  // ---- The start -------------------------------------------------------------

  function Wipes(ch: Id, ds: seq<Decision>): seq<Action> {
    if ds == [] then [] else [Cancelled(ch, ds[0].id)] + Wipes(ch, ds[1..])
  }

  lemma {:induction false} CancellingIs(ch: Id, ds: seq<Decision>)
    ensures Cancelling(ch, ds) == Wipes(ch, ds)
  {
    if ds != [] {
      CancellingIs(ch, ds[1..]);
    }
  }

  /** Nothing of an earlier turn is left: no text, no mark, no reply, no lead-in, no summary work, no decision. */
  predicate New(c: Turn) {
    && c.fed == [] && c.prose == [] && c.voiced == 0 && c.heldProse == [] && c.order.ahead == [] && c.order.next == 0
    && !c.awaiting && c.questions == None && c.leadIn == None && c.reply == None && c.replied == None
    && !c.released && !c.ended && !c.skipReply && c.pending == [] && c.held == None && c.wait == None
    && c.inflight == 0 && !c.settleArmed && !c.newPara && c.lastIndex == None && c.order.skipped == {}
  }

  /** A turn's start leaves nothing of the one before; its decisions are dropped, and its queued text is wiped, with
      what was being read to go on. */
  lemma {:induction false} StartClears(s: Rules, ch: Id, turn: Option<string>, t: Option<int>)
    requires !IsStale(s, ch, turn, t)
    ensures var (s', out) := TurnStart(s, ch, turn, t); var c := Was(s, ch);
            && ch in s'.turns && New(s'.turns[ch])
            && s'.turns[ch].current == turn && s'.turns[ch].hinted == c.hinted
            && s'.turns[ch].t == (if t.Some? then t else c.t)
            && out == Wipes(ch, c.pending + HeldIn(c)) + [Wipe(ch, true)]
  {
    hide D.Release, Retire, IsStale, Cancelling, Wipes;
    var c := Ensure(Renamed(Renamed(s)), ch).turns[ch];
    ReleasedOrder(c.order);
    CancellingIs(ch, Waiting(c));
  }

  /** What a turn's start refuses from then on: messages of the turn before, those of the turns refused already (of
      them it remembers the last sixteen), and those sent before it; none of its own. */
  lemma {:induction false} StartRefuses(s: Rules, ch: Id, turn: Option<string>, t: Option<int>)
    requires !IsStale(s, ch, turn, t)
    ensures var s' := TurnStart(s, ch, turn, t).0; var c := Was(s, ch);
            && !IsStale(s', ch, turn, t)
            && (c.current.Some? && turn != c.current ==> forall t1 :: IsStale(s', ch, c.current, t1))
            && (forall k, t1 :: 0 <= k < |c.retired| ==>
                  || IsStale(s', ch, Some(c.retired[k]), t1) || (k == 0 && |c.retired| == 16 && turn != c.current)
                  || |c.retired| > 16)
            && (t.Some? ==> forall turn1, t1 :: t1 < t.value ==> IsStale(s', ch, turn1, Some(t1)))
            && (|c.retired| <= 16 ==> |s'.turns[ch].retired| <= 16)
  {
    hide D.Release;
    var c := Was(s, ch);
    var c' := TurnStart(s, ch, turn, t).0.turns[ch];
    assert c'.retired == Retire(c, turn);
    RetireIs(c, turn);
    hide Retire, TurnStart;
  }

  lemma {:induction false} RetireIs(c: Turn, turn: Option<string>)
    ensures var r := Retire(c, turn);
            && (c.current.Some? && turn != c.current ==> c.current.value in r)
            && (forall k :: 0 <= k < |c.retired| ==>
                  c.retired[k] in r || (k == 0 && |c.retired| >= 16 && turn != c.current))
            && (forall x :: x in r ==> x in c.retired || Some(x) == c.current)
            && (turn == c.current ==> r == c.retired)
            && (|c.retired| <= 16 ==> |r| <= 16)
  {
    var r := c.retired + (if c.current.Some? then [c.current.value] else []);
    forall k | 0 <= k < |c.retired| ensures r[k] == c.retired[k] && (k > 0 ==> r[1..][k - 1] == r[k]) {
    }
    if c.current.Some? && |r| > 1 {
      assert r[1..][|r| - 2] == r[|r| - 1] == c.current.value;
    }
  }

  /** An answer drops what waited in its channel and wipes what is queued; the question is over. */
  lemma {:induction false} AnswerClears(s: Rules, ch: Id)
    ensures var (s', out) := RulesModel.Answered(s, ch); var c := Was(s, ch);
            && ch in s'.turns && Cleared(c, s'.turns[ch]) && !s'.turns[ch].awaiting && s'.turns[ch].questions == None
            && out == Wipes(ch, c.pending + HeldIn(c)) + [Wipe(ch, false)]
  {
    hide CatchUp, Cancelling, Wipes;
    var s1 := Ensure(s, ch);
    var s2 := Set(s1, ch, Settled(s1.turns[ch]));
    CatchesUp(s2, ch);
    CaughtMarks(s2, ch);
    CancellingIs(ch, CatchUp(s2, ch).1);
  }

  lemma {:induction false} CaughtMarks(s: Rules, ch: Id)
    requires ch in s.turns
    ensures var c, c' := s.turns[ch], CatchUp(s, ch).0.turns[ch];
            c'.awaiting == c.awaiting && c'.questions == c.questions
    ensures forall x :: x != ch ==> (x in CatchUp(s, ch).0.turns <==> x in s.turns)
    ensures forall x :: x != ch && x in s.turns ==> CatchUp(s, ch).0.turns[x] == s.turns[x]
  {
    hide D.Release;
  }

  /** A stop clears each channel it goes through. */
  lemma {:induction false} StopClears(s: Rules, chs: seq<Id>, x: Id)
    ensures var s' := StopAll(s, chs).0;
            if x in chs then x in s'.turns && Quiet(s'.turns[x])
            else (x in s'.turns <==> x in s.turns) && (x in s.turns ==> s'.turns[x] == s.turns[x])
    decreases |chs|
  {
    hide CatchUp, Cancelling, Cleared;
    if chs != [] {
      var s1 := Ensure(s, chs[0]);
      var s2 := Set(s1, chs[0], s1.turns[chs[0]].(awaiting := false));
      CatchesUp(s2, chs[0]);
      CaughtMarks(s2, chs[0]);
      ClearedQuiet(s2.turns[chs[0]], CatchUp(s2, chs[0]).0.turns[chs[0]]);
      StopClears(CatchUp(s2, chs[0]).0, chs[1..], x);
    }
  }

  predicate Quiet(c: Turn) {
    && c.heldProse == [] && c.order.ahead == [] && c.pending == [] && c.held == None && c.wait == None
    && c.inflight == 0 && !c.settleArmed && !c.awaiting
  }

  lemma {:induction false} ClearedQuiet(c: Turn, c': Turn)
    requires Cleared(c, c') && !c'.awaiting
    ensures Quiet(c')
  {
  }

  /** Once a turn ended, the next tool or decision begins a new one, and only the first; a new one is not skipped. */
  lemma {:induction false} NewTurnOnce(s: Rules, ch: Id)
    ensures var (s', began) := TakeNewTurn(s, ch);
            && began == (ch in s.turns && s.turns[ch].ended && !s.turns[ch].batchCut)
            && (!began ==> s' == s)
            && (began ==>
                  && ch in s'.turns && !s'.turns[ch].ended && !s'.turns[ch].released && !s'.turns[ch].skipReply
                  && s'.turns[ch].reply == None && s'.turns[ch].replied == None
                  && s'.turns[ch].pending == s.turns[ch].pending && s'.turns[ch].held == s.turns[ch].held
                  && s'.turns[ch].heldProse == s.turns[ch].heldProse)
            && !TakeNewTurn(s', ch).1
  {
  }

  /** The level is at most 2; muting makes what sounds now silent. */
  lemma {:induction false} MuteSets(s: Rules, level: nat)
    ensures var (s', out) := SetMute(s, level);
            && s' == s.(settings := s.settings.(muteLevel := s'.settings.muteLevel))
            && s'.settings.muteLevel <= 2 && s'.settings.muteLevel <= level
            && (level <= 2 ==> s'.settings.muteLevel == level) && (level > 2 ==> s'.settings.muteLevel == 2)
            && (Silence in out <==> level > 0) && (level == 0 ==> out == [])
  {
  }

  // ---- Read once -------------------------------------------------------------

  /** A delta that is not read: of an earlier turn, the lead-in or the reply again, or in a reply that is
      skipped. */
  predicate Unread(env: Env, s: Rules, ch: Id, turn: Option<string>, x: D.Delta, t: Option<int>) {
    var c := Was(s, ch);
    || IsStale(s, ch, turn, t)
    || (x.index == 0 && x.fin && c.leadIn == Some(env.fold(x.text)))
    || (c.ended && c.replied.Some? && env.within(env.fold(x.text), c.replied.value))
    || c.skipReply
  }

  /** Such a delta is neither read nor held. */
  lemma {:induction false} UnreadIsSilent(env: Env, s: Rules, ch: Id, turn: Option<string>, x: D.Delta, t: Option<int>)
    requires Unread(env, s, ch, turn, x, t)
    ensures var (s', out) := Stream(env, s, ch, turn, x, t);
            && out == [] && Was(s', ch).heldProse == Was(s, ch).heldProse
            && Was(s', ch).order.ahead == Was(s, ch).order.ahead && Was(s', ch).prose == Was(s, ch).prose
  {
    hide Ordered, IsStale, Noted, Set;
    var s1 := Ensure(s, ch);
    var c := Noted(env, s1.turns[ch], x);
    NotedIs(env, s1.turns[ch], x);
    SetHas(s1, ch, c);
    SetHas(s1, ch, c.(leadIn := None));
    SetHas(s1, ch, c.(fed := c.fed + [x]));
    hide Ensure;
    EnsuredIs(s, ch);
  }

  lemma {:induction false} NotedIs(env: Env, c: Turn, x: D.Delta)
    ensures Noted(env, c, x) == c.(wait := Noted(env, c, x).wait)
    ensures c.wait.Some? ==>
              && Noted(env, c, x).wait.Some? && Noted(env, c, x).wait.value.id == c.wait.value.id
              && (x.index == 0 && x.fin ==> env.fold(x.text) in Noted(env, c, x).wait.value.seen)
  {
  }

  /** Any other is taken: fed to the assembler, or held for its order. */
  lemma {:induction false} OthersAreTaken(env: Env, s: Rules, ch: Id, turn: Option<string>, x: D.Delta, t: Option<int>)
    requires Reading(s, ch) && !Unread(env, s, ch, turn, x, t)
    ensures var s' := Stream(env, s, ch, turn, x, t).0;
            multiset(FedOf(s', ch)) + multiset(AheadOf(s', ch))
            == multiset(FedOf(s, ch)) + multiset(AheadOf(s, ch)) + multiset{x}
  {
    hide IsStale, Stream;
    StreamFlows(env, s, ch, turn, x, t, ch);
    hide Reading, Made, Heard, FedOf, AheadOf, HeldOf, Tight;
    TakesIt(env, s, ch, turn, x, t);
  }

  lemma {:induction false} TakesIt(env: Env, s: Rules, ch: Id, turn: Option<string>, x: D.Delta, t: Option<int>)
    requires !Unread(env, s, ch, turn, x, t)
    ensures If(true, StreamTakes(env, s, ch, turn, x, t)) == multiset{x}
  {
    hide IsStale;
  }

  /** The hook's lead-in, then the same text streamed: it is read once. */
  lemma {:induction false} LeadInThenEcho(env: Env, s: Rules, ch: Id, text: string, t: Option<int>,
      turn: Option<string>, t1: Option<int>)
    requires !IsStale(s, ch, turn, t) && !Blank(text)
    requires Was(s, ch).wait == None
    ensures var s' := TakeLeadIn(env, s, ch, turn, text, None, t).0;
            Unread(env, s', ch, turn, D.Delta(text, 0, true), t1)
  {
    hide Stream, IsStale, Blank, DropHeld;
  }

  /** The same text streamed while a decision waits for it, then the lead-in: it is not read again, and the decision
      waits no longer. */
  lemma {:induction false} EchoThenLeadIn(env: Env, s: Rules, ch: Id, id: Option<string>, text: string, t: Option<int>,
      turn: Option<string>, seen: Wait)
    requires ch in s.turns && !IsStale(s, ch, turn, t) && s.turns[ch].wait == Some(seen)
    requires env.fold(text) in seen.seen && env.fold(text) != ""
    requires id == None || id == seen.id
    ensures TakeLeadIn(env, s, ch, turn, text, id, t) == ReleaseWait(env, s, ch)
    ensures ch in ReleaseWait(env, s, ch).0.turns && ReleaseWait(env, s, ch).0.turns[ch].wait == None
  {
    hide ReadLeadIn, EnqueueAll, IsStale, Blank;
    NothingBefore(ReleaseWait(env, s, ch).1);
    var s2 := Set(s, ch, s.turns[ch].(wait := None));
    EnqueueWaits(env, Set(s2, ch, s2.turns[ch].(pending := [])), ch, s.turns[ch].pending);
  }

  lemma {:induction false} EnqueueWaits(env: Env, s: Rules, ch: Id, items: seq<Decision>)
    requires ch in s.turns
    ensures var s' := EnqueueAll(env, s, ch, items, false).0; ch in s'.turns && s'.turns[ch].wait == s.turns[ch].wait
    decreases |items|
  {
    hide Enqueue;
    if items != [] {
      EnqueueWait(env, s, ch, items[0]);
      EnqueueWaits(env, Enqueue(env, s, ch, items[0], false).0, ch, items[1..]);
    }
  }

  lemma {:induction false} EnqueueWait(env: Env, s: Rules, ch: Id, item: Decision)
    requires ch in s.turns
    ensures var s' := Enqueue(env, s, ch, item, false).0; ch in s'.turns && s'.turns[ch].wait == s.turns[ch].wait
  {
    hide FlushProse, SayDecision, Blank, Textual, ProseOf;
    FlushIsText(env, s, ch, 0);
    TextualSays(s.turns[ch], FlushProse(env, s, ch).0.turns[ch]);
  }

  /** A whole block streamed while a decision waits for its lead-in is remembered for it. */
  lemma {:induction false} WaitSees(env: Env, s: Rules, ch: Id, turn: Option<string>, text: string, t: Option<int>)
    requires ch in s.turns && s.turns[ch].wait.Some? && !IsStale(s, ch, turn, t)
    ensures var s' := Stream(env, s, ch, turn, D.Delta(text, 0, true), t).0;
            && ch in s'.turns && s'.turns[ch].wait.Some? && env.fold(text) in s'.turns[ch].wait.value.seen
            && s'.turns[ch].wait.value.id == s.turns[ch].wait.value.id
  {
    hide IsStale, Ordered, Noted, Set, Ensure;
    var x := D.Delta(text, 0, true);
    Existing(s, ch);
    var c := Noted(env, s.turns[ch], x);
    NotedIs(env, s.turns[ch], x);
    SetHas(s, ch, c);
    SetHas(s, ch, c.(leadIn := None));
    SetHas(s, ch, c.(fed := c.fed + [x]));
    OrderedWait(env, Set(s, ch, c), ch, x);
  }

  lemma {:induction false} OrderedWait(env: Env, s: Rules, ch: Id, x: D.Delta)
    requires ch in s.turns
    ensures var s' := Ordered(env, s, ch, x).0; ch in s'.turns && s'.turns[ch].wait == s.turns[ch].wait
  {
    hide ReleaseGap, Accepted, Textual, ProseOf;
    GapIsText(env, s, ch);
    TextualSays(s.turns[ch], ReleaseGap(env, s, ch).0.turns[ch]);
    AcceptedWait(env, s, ch, x);
    AcceptedWait(env, ReleaseGap(env, s, ch).0, ch, x);
  }

  lemma {:induction false} AcceptedWait(env: Env, s: Rules, ch: Id, x: D.Delta)
    requires ch in s.turns
    ensures var s' := Accepted(env, s, ch, x).0; ch in s'.turns && s'.turns[ch].wait == s.turns[ch].wait
  {
    hide Assemble, D.Accept, Textual, ProseOf, Set, Ensure;
    Existing(s, ch);
    var c := s.turns[ch];
    var order := D.Accept(c.order, x).0;
    var ready := D.Accept(c.order, x).1;
    var named := c.(order := order.(gen := s.nextGen + 1));
    SetHas(Renamed(s), ch, named);
    SetHas(s, ch, c.(order := order));
    AssembledWait(env, Set(Renamed(s), ch, named), ch, ready);
    AssembledWait(env, Set(s, ch, c.(order := order)), ch, ready);
  }

  lemma {:induction false} AssembledWait(env: Env, s: Rules, ch: Id, deltas: seq<D.Delta>)
    requires ch in s.turns
    ensures var s' := Assemble(env, s, ch, deltas).0; ch in s'.turns && s'.turns[ch].wait == s.turns[ch].wait
  {
    hide Assemble, Textual, ProseOf;
    AssembleIsText(env, s, ch, deltas);
    TextualSays(s.turns[ch], Assemble(env, s, ch, deltas).0.turns[ch]);
  }

  /** A late lead-in nothing waits for (another one's, or one given up) is not read. */
  lemma {:induction false} LateLeadIn(env: Env, s: Rules, ch: Id, turn: Option<string>, text: string, id: string,
      t: Option<int>)
    requires Was(s, ch).wait == None || Was(s, ch).wait.value.id != Some(id)
    ensures TakeLeadIn(env, s, ch, turn, text, Some(id), t) == (s, [])
  {
    hide IsStale, ReadLeadIn, ReleaseWait, Blank;
  }

  /** A lead-in timer that is not the one waited for does nothing. */
  lemma {:induction false} OldLeadInTimer(env: Env, s: Rules, ch: Id, gen: nat, focused: Option<Id>)
    requires Was(s, ch).wait == None || Was(s, ch).wait.value.gen != gen
    ensures Fire(env, s, LeadIn(ch, gen), focused) == (s, [])
  {
    hide ReleaseWait;
  }

  /** The final reply is kept, trimmed, with the text before it, until the turn ends; a blank one is none. */
  lemma {:induction false} ReplyIsKept(env: Env, s: Rules, ch: Id, turn: Option<string>, text: string,
      before: Option<string>, t: Option<int>)
    requires !IsStale(s, ch, turn, t)
    ensures var s' := Reply(env, s, ch, turn, text, before, t);
            && ch in s'.turns
            && (Blank(text) ==> s'.turns[ch].reply == None)
            && (!Blank(text) ==>
                  && s'.turns[ch].reply.Some? && s'.turns[ch].reply.value.0 == Trim(text)
                  && s'.turns[ch].reply.value.1
                     == if before == None || Blank(before.value) then None else Some(Trim(before.value)))
            && s'.turns[ch] == Was(s, ch).(reply := s'.turns[ch].reply, gen := s'.turns[ch].gen)
  {
    hide IsStale, Blank, Trim;
    TrimmedIs(text);
    if before.Some? {
      TrimmedIs(before.value);
    }
  }
}
