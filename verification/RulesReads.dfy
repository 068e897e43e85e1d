/** How the decisions that waited are read: each once, in the order they waited, where they are let go. */
module RulesReads {
  import opened Options
  import opened Wordings
  import D = DeltaOrders
  import opened RulesModel
  import opened RulesFrames
  import opened RulesSpeech
  import opened RulesTexts
  import opened RulesRecaps

  /** Decisions read one after the other, at the mute level there is. */
  function Alouds(level: nat, ch: Id, ds: seq<Decision>): seq<Action> {
    if ds == [] then []
    else [Aloud(level, ch, ds[0].text, Some(ds[0].id), None, ds[0].kind, [])] + Alouds(level, ch, ds[1..])
  }

  predicate Numbers(a: Action) {
    (a.Speak? || a.Store?) && a.number.Some?
  }

  function IfNumbered(a: Action): seq<Action> {
    if Numbers(a) then [a] else []
  }

  /** The decisions read in `out`. */
  function DecisionsOf(out: seq<Action>): seq<Action> {
    if out == [] then [] else IfNumbered(out[0]) + DecisionsOf(out[1..])
  }

  lemma {:induction false} DecisionsAdd(a: seq<Action>, b: seq<Action>)
    ensures DecisionsOf(a + b) == DecisionsOf(a) + DecisionsOf(b)
  {
    hide IfNumbered;
    if a == [] {
      assert a + b == b;
    } else {
      assert (a + b)[1..] == a[1..] + b;
      DecisionsAdd(a[1..], b);
      assert IfNumbered(a[0]) + (DecisionsOf(a[1..]) + DecisionsOf(b))
          == (IfNumbered(a[0]) + DecisionsOf(a[1..])) + DecisionsOf(b);
    }
  }

  lemma {:induction false} ProseHasNone(out: seq<Action>, ch: Id)
    requires forall a :: a in out ==> ProseOf(a, ch)
    ensures DecisionsOf(out) == []
  {
    if out != [] {
      assert out[0] in out;
      ProseHasNone(out[1..], ch);
    }
  }

  lemma {:induction false} SayingIs(env: Env, s: Rules, ch: Id, ds: seq<Decision>)
    ensures SayDecisions(env, s, ch, ds) == Alouds(s.settings.muteLevel, ch, ds)
  {
    hide Say, Aloud, Blank;
    if ds != [] {
      SayIs(env, s, ch, ds[0].text, Some(ds[0].id), None, ds[0].kind, []);
      SayingIs(env, s, ch, ds[1..]);
    }
  }

  // ---- Letting several go ----------------------------------------------------

  lemma {:induction false} EnqueueIs(env: Env, s: Rules, ch: Id, item: Decision)
    requires ch in s.turns && s.turns[ch].inflight == 0
    ensures var (s', out) := Enqueue(env, s, ch, item, false);
            && DecisionsOf(out) == Alouds(s.settings.muteLevel, ch, [item])
            && ch in s'.turns && s'.turns[ch].inflight == 0 && s'.settings == s.settings
  {
    hide FlushProse, Blank, Aloud, ProseOf, Textual, Say, DecisionsOf;
    FlushIsText(env, s, ch, 0);
    var flushed := FlushProse(env, s, ch);
    TextualSays(s.turns[ch], flushed.0.turns[ch]);
    ProseHasNone(flushed.1, ch);
    SayIs(env, s, ch, item.text, Some(item.id), None, item.kind, []);
    DecisionsAdd(flushed.1, SayDecision(env, s, ch, item));
    OneDecision(s.settings.muteLevel, ch, item);
  }

  lemma {:induction false} OneDecision(level: nat, ch: Id, item: Decision)
    ensures Alouds(level, ch, [item]) == [Aloud(level, ch, item.text, Some(item.id), None, item.kind, [])]
    ensures DecisionsOf(Alouds(level, ch, [item])) == Alouds(level, ch, [item])
  {
    hide Blank;
    assert Alouds(level, ch, [item])[1..] == [] && [item][1..] == [];
  }

  /** With nothing in flight all are read now, in order; only prose of the channel between them. */
  lemma {:induction false} AllRead(env: Env, s: Rules, ch: Id, items: seq<Decision>)
    requires ch in s.turns && s.turns[ch].inflight == 0
    ensures DecisionsOf(EnqueueAll(env, s, ch, items, false).1) == Alouds(s.settings.muteLevel, ch, items)
    decreases |items|
  {
    hide Enqueue, Aloud, Blank;
    if items != [] {
      var first := Enqueue(env, s, ch, items[0], false);
      EnqueueIs(env, s, ch, items[0]);
      AllRead(env, first.0, ch, items[1..]);
      DecisionsAdd(first.1, EnqueueAll(env, first.0, ch, items[1..], false).1);
    }
  }

  function Caps(ch: Id, items: seq<Decision>): seq<Action> {
    if items == [] then [] else [Arm(HoldCap(ch, items[0].id))] + Caps(ch, items[1..])
  }

  function HeldIn(c: Turn): seq<Decision> {
    if c.held.Some? then c.held.value.1 else []
  }

  /** Behind a summary all are held for the last job, in order, each with its cap. */
  lemma {:induction false} AllHeld(env: Env, s: Rules, ch: Id, items: seq<Decision>, digesting: bool)
    requires ch in s.turns && (digesting || s.turns[ch].inflight > 0)
    ensures var (s', out) := EnqueueAll(env, s, ch, items, digesting); var c := s.turns[ch];
            && out == Caps(ch, items) && ch in s'.turns
            && s'.turns[ch] == if items == [] then c else c.(held := Some((c.lastToken, HeldIn(c) + items)))
    decreases |items|
  {
    hide FlushProse, SayDecision, Blank;
    if items != [] {
      var c := s.turns[ch];
      var s1 := Enqueue(env, s, ch, items[0], digesting).0;
      assert s1 == Set(s, ch, c.(held := Some((c.lastToken, HeldIn(c) + [items[0]]))));
      AllHeld(env, s1, ch, items[1..], digesting);
      assert HeldIn(c) + [items[0]] + items[1..] == HeldIn(c) + items;
      assert items[1..] == [] ==> HeldIn(c) + [items[0]] == HeldIn(c) + items;
    }
  }

  // ---- Where decisions are let go --------------------------------------------

  /** The settle window: the recap first; then what was pending, read in order when no summary is in flight, held
      behind the last one otherwise. */
  lemma {:induction false} SettleReads(env: Env, s: Rules, ch: Id, focused: Option<Id>)
    requires ch in s.turns && s.turns[ch].settleArmed && s.turns[ch].wait == None
    ensures var c := s.turns[ch];
            var bare := Set(s, ch, c.(settleArmed := false, pending := []));
            var (s1, recap, digesting) := Summarizing(env, bare, ch, c.pending != [], focused);
            var (s', out) := Fire(env, s, Settle(ch, c.settleGen), focused);
            && recap <= out
            && (ch in s1.turns && !digesting && s1.turns[ch].inflight == 0 ==>
                  DecisionsOf(out[|recap|..]) == Alouds(s1.settings.muteLevel, ch, c.pending))
            && (ch in s1.turns && (digesting || s1.turns[ch].inflight > 0) ==>
                  out[|recap|..] == Caps(ch, c.pending)
                  && ch in s'.turns && s'.turns[ch].pending == s1.turns[ch].pending
                  && HeldIn(s'.turns[ch]) == HeldIn(s1.turns[ch]) + c.pending)
  {
    hide Summarizing, EnqueueAll, DecisionsOf, Alouds, Caps;
    SettleIs(env, s, ch, focused);
    hide Fire;
    var c := s.turns[ch];
    var bare := Set(s, ch, c.(settleArmed := false, pending := []));
    var (s1, recap, digesting) := Summarizing(env, bare, ch, c.pending != [], focused);
    hide Set;
    var more := EnqueueAll(env, s1, ch, c.pending, digesting);
    assert (recap + more.1)[|recap|..] == more.1;
    if ch in s1.turns {
      if digesting || s1.turns[ch].inflight > 0 {
        AllHeld(env, s1, ch, c.pending, digesting);
        assert HeldIn(s1.turns[ch]) + [] == HeldIn(s1.turns[ch]);
      } else {
        AllRead(env, s1, ch, c.pending);
      }
    }
  }

  lemma {:induction false} SettleIs(env: Env, s: Rules, ch: Id, focused: Option<Id>)
    requires ch in s.turns && s.turns[ch].settleArmed && s.turns[ch].wait == None
    ensures var c := s.turns[ch];
            var bare := Set(s, ch, c.(settleArmed := false, pending := []));
            var (s1, recap, digesting) := Summarizing(env, bare, ch, c.pending != [], focused);
            Fire(env, s, Settle(ch, c.settleGen), focused)
            == Then((s1, recap), EnqueueAll(env, s1, ch, c.pending, digesting))
  {
    hide Summarizing, EnqueueAll, Land, SayDecisions, ReleaseWait, ReleaseGap, Set;
    var c := s.turns[ch];
    SetHas(s, ch, c.(settleArmed := false));
    SetAgain(s, ch, c.(settleArmed := false), c.(settleArmed := false, pending := []));
    var s0 := Set(s, ch, c.(settleArmed := false));
    assert s0.turns[ch].(pending := []) == c.(settleArmed := false, pending := []);
  }

  lemma {:induction false} SetAgain(s: Rules, ch: Id, c: Turn, c': Turn)
    ensures Set(Set(s, ch, c), ch, c') == Set(s, ch, c')
  {
  }

  /** A settle window that is not the armed one, or that a lead-in holds up, reads nothing. */
  lemma {:induction false} SettleWaits(env: Env, s: Rules, ch: Id, gen: nat, focused: Option<Id>)
    requires ch in s.turns ==> s.turns[ch].settleGen != gen || !s.turns[ch].settleArmed || s.turns[ch].wait.Some?
    ensures Fire(env, s, Settle(ch, gen), focused).1 == []
  {
    hide Summarizing;
  }

  /** The cap of a decision still held lets everything held go, in order. */
  lemma {:induction false} CapReads(env: Env, s: Rules, ch: Id, id: nat, focused: Option<Id>)
    requires ch in s.turns
    ensures var (s', out) := Fire(env, s, HoldCap(ch, id), focused); var c := s.turns[ch];
            if exists d :: d in HeldIn(c) && d.id == id then
              out == Alouds(s.settings.muteLevel, ch, HeldIn(c)) && s' == Set(s, ch, c.(held := None))
            else (s', out) == (s, [])
  {
    hide SayDecisions, Alouds, Blank;
    SayingIs(env, s, ch, HeldIn(s.turns[ch]));
  }

  /** A job's answer lets go what was held behind it, after the recap, in order. */
  lemma {:induction false} AnswerReads(env: Env, s: Rules, job: Job, recap: Option<string>)
    ensures var out := DigestDone(env, s, job, recap).1;
            var held := if job.channel in s.turns && s.turns[job.channel].held.Some?
                           && s.turns[job.channel].held.value.0 == job.token
                        then s.turns[job.channel].held.value.1 else [];
            DecisionsOf(out) == Alouds(s.settings.muteLevel, job.channel, held)
  {
    hide Land, DecisionsOf, Alouds, Blank, SayDecisions;
    var r := RecapOf(job, recap);
    var s1 := Delivered(s, job);
    assert s1.settings == s.settings;
    hide Delivered;
    LandTuned(env, s1, job.slot, r);
    LandNone(env, s1, job.slot, r);
    var landed := Land(env, s1, job.slot, r);
    SayingIs(env, landed.0, job.channel, HeldFor(s, job));
    DecisionsAdd(landed.1, SayDecisions(env, landed.0, job.channel, HeldFor(s, job)));
    AloudsAre(s.settings.muteLevel, job.channel, HeldFor(s, job));
  }

  lemma {:induction false} AloudsAre(level: nat, ch: Id, ds: seq<Decision>)
    ensures DecisionsOf(Alouds(level, ch, ds)) == Alouds(level, ch, ds)
  {
    hide Blank;
    if ds != [] {
      AloudsAre(level, ch, ds[1..]);
    }
  }

  lemma {:induction false} LandNone(env: Env, s: Rules, slot: Option<nat>, r: Release)
    ensures DecisionsOf(Land(env, s, slot, r).1) == []
  {
    hide Serve, Apply;
    ApplyNone(env, s, r);
    if slot.Some? {
      ServeNone(env, s.(watched := s.watched - {slot.value}, parked := s.parked[slot.value := r]));
    }
  }

  lemma {:induction false} ApplyNone(env: Env, s: Rules, r: Release)
    ensures DecisionsOf(Apply(env, s, r)) == []
  {
    hide Blank;
    assert |Apply(env, s, r)| <= 1;
    assert Apply(env, s, r) != [] ==> Apply(env, s, r)[1..] == [];
  }

  lemma {:induction false} ServeNone(env: Env, s: Rules)
    ensures DecisionsOf(Serve(env, s).1) == []
    decreases s.parked.Keys
  {
    hide Apply;
    if s.serveSeq in s.parked {
      var r := s.parked[s.serveSeq];
      var s1 := s.(parked := s.parked - {s.serveSeq}, serveSeq := s.serveSeq + 1);
      ApplyNone(env, s1, r);
      ServeNone(env, s1);
      var mark := [Served(TicketOf(s.serveSeq, r))];
      assert mark[1..] == [];
      hide DecisionsOf;
      DecisionsAdd(mark, Apply(env, s1, r));
      DecisionsAdd(mark + Apply(env, s1, r), Serve(env, s1).1);
      NoMark(TicketOf(s.serveSeq, r));
    }
  }

  lemma {:induction false} NoMark(t: Ticket)
    ensures DecisionsOf([Served(t)]) == []
  {
    assert [Served(t)][1..] == [];
  }

  /** A late lead-in that came, or was waited for too long: with summaries off and nothing in flight what waited for
      it is read, in order. */
  lemma {:induction false} WaitReads(env: Env, s: Rules, ch: Id)
    requires ch in s.turns && !s.settings.summaries && s.turns[ch].inflight == 0
    ensures DecisionsOf(ReleaseWait(env, s, ch).1) == Alouds(s.settings.muteLevel, ch, s.turns[ch].pending)
  {
    hide EnqueueAll, DecisionsOf, Alouds, Blank;
    var s2 := Set(s, ch, s.turns[ch].(wait := None));
    AllRead(env, Set(s2, ch, s2.turns[ch].(pending := [])), ch, s.turns[ch].pending);
  }

  /** The flush hotkey reads what was pending, then what was held, and skips the rest of the reply; nothing waits,
      nothing is in flight and no text is held after it. */
  lemma {:induction false} FlushReads(env: Env, s: Rules, ch: Id)
    requires ch in s.turns
    ensures var (s', out) := Flush(env, s, ch); var c := s.turns[ch];
            && out == Alouds(s.settings.muteLevel, ch, c.pending + HeldIn(c))
            && ch in s'.turns && Cleared(s.turns[ch], s'.turns[ch]) && s'.turns[ch].skipReply
  {
    hide D.Release, SayDecisions, Alouds, Blank;
    CatchesUp(Set(s, ch, s.turns[ch].(skipReply := true)), ch);
    hide CatchUp;
    var s1 := CatchUp(Set(s, ch, s.turns[ch].(skipReply := true)), ch);
    SayingIs(env, s1.0, ch, s1.1);
  }

  /** Nothing waits and no text is held. */
  predicate Cleared(c: Turn, c': Turn) {
    && c'.heldProse == [] && c'.order.ahead == [] && c'.pending == [] && c'.held == None && c'.wait == None
    && c'.inflight == 0 && !c'.settleArmed && c'.prose == c.prose && c'.voiced == |c.prose|
  }

  lemma {:induction false} CatchesUp(s: Rules, ch: Id)
    requires ch in s.turns
    ensures var (s', ds, _) := CatchUp(s, ch); var c := s.turns[ch];
            && ds == c.pending + HeldIn(c) && s'.settings == s.settings
            && ch in s'.turns && Cleared(c, s'.turns[ch]) && s'.turns[ch].skipReply == c.skipReply
            && s'.turns[ch].ended == c.ended
  {
    hide D.Release;
    ReleasedOrder(s.turns[ch].order);
  }

  /** Whether a flush finds something in `ch`: text or deltas held, prose no recap covered (summaries on), a summary
      in flight or parked, a settle window, a decision. */
  predicate Something(s: Rules, ch: Id)
    requires ch in s.turns
  {
    var c := s.turns[ch];
    || c.heldProse != [] || c.order.ahead != [] || (s.settings.summaries && c.voiced < |c.prose|)
    || c.inflight > 0 || c.settleArmed || c.pending != [] || HeldIn(c) != []
    || exists k :: k in s.parked && s.parked[k].channel == ch && s.parked[k].gen == c.gen
  }

  /** For another session: exactly when its turn ended and something was there (or `queued`) its decisions are read
      and the rest of its reply is skipped. */
  lemma {:induction false} FlushReadyReads(env: Env, s: Rules, ch: Id, queued: bool)
    ensures var (s', out, flushed) := FlushReady(env, s, ch, queued);
            && flushed == (ch in s.turns && s.turns[ch].ended && (queued || Something(s, ch)))
            && (!flushed ==> out == [])
            && (flushed ==>
                  && out == Alouds(s.settings.muteLevel, ch, s.turns[ch].pending + HeldIn(s.turns[ch]))
                  && ch in s'.turns && Cleared(s.turns[ch], s'.turns[ch]) && s'.turns[ch].skipReply)
  {
    hide SayDecisions, Alouds, Blank, D.Release;
    if ch in s.turns && s.turns[ch].ended {
      CatchesUp(s, ch);
      FindsSomething(s, ch);
      hide CatchUp;
      SayingIs(env, CatchUp(s, ch).0, ch, CatchUp(s, ch).1);
    }
  }

  lemma {:induction false} FindsSomething(s: Rules, ch: Id)
    requires ch in s.turns
    ensures CatchUp(s, ch).2 == Something(s, ch)
  {
    ReleasedAll(s.turns[ch].order);
    hide D.Release, Cancel;
  }

  lemma {:induction false} ReleasedAll(o: D.Order)
    ensures |D.Release(o).1| == |o.ahead|
  {
  }
}
