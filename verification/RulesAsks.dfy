/** What becomes of a decision the agent asks for: numbered or not, worded, announced, read or waiting. */
module RulesAsks {
  import opened Options
  import opened Wordings
  import D = DeltaOrders
  import opened RulesModel
  import opened RulesFrames
  import opened RulesSpeech
  import opened RulesTexts

  // ---- What it should say ----------------------------------------------------

  /** Two decisions are not read: the permission prompt of the question that awaits its answer, and, stepping
      on, a later question of the set being shown. */
  predicate Swallowed(s: Rules, ch: Id, ask: Ask) {
    var c := Was(s, ch);
    match ask.kind
    case Permission => c.awaiting
    case Question =>
      && s.settings.questionStep
      && ask.part.Some? && 0 < ask.part.value.0 < ask.part.value.1 && c.questions == Some(ask.part.value.1)
    case _ => false
  }

  /** A question of a set of two or more. */
  predicate OfSet(ask: Ask) {
    ask.kind == Question && ask.part.Some? && ask.part.value.0 < ask.part.value.1 && 2 <= ask.part.value.1
  }

  /** The wording: without stepping every question of a set says its place, else the first. */
  function Wording(settings: Settings, ask: Ask): string {
    if ask.kind == Permission then PermissionText(ask.text)
    else if ask.kind == Plan then PlanText(ask.text)
    else if OfSet(ask) && !(settings.questionStep && ask.part.value.0 > 0)
    then NumberedQuestion(ask.part.value.0, ask.part.value.1, QuestionText(ask.text, ask.options, ask.multi))
    else QuestionText(ask.text, ask.options, ask.multi)
  }

  function Given(o: Option<string>): seq<string> {
    if o.Some? then [o.value] else []
  }

  /** What rides on it: its notes, and at verbosity `everything` its hint and the hint given once a session;
      nothing on a later question of a set read in order. */
  function Riders(settings: Settings, c: Turn, ask: Ask): seq<string> {
    if OfSet(ask) && ask.part.value.0 > 0 && !settings.questionStep then []
    else if settings.verbosity != Everything then Given(ask.notes)
    else Given(ask.notes) + Given(ask.hint) + (if c.hinted then [] else Given(ask.hintOnce))
  }

  /** The decision asked next in `ch`. */
  function Due(s: Rules, ch: Id, ask: Ask): Numbered {
    Numbered(s.nextDecision + 1, WithExtras(Wording(s.settings, ask), Riders(s.settings, Was(s, ch), ask)), ask.kind)
  }

  /** The chime for it: a question that is asked while another awaits its answer has none. */
  function ChimeFor(s: Rules, ch: Id, ask: Ask): seq<Action> {
    if s.settings.muteLevel >= 2 then []
    else if ask.kind == Permission then [Play(PermissionChime)]
    else if ask.kind == Question && !Was(s, ch).awaiting then [Play(Chime.Choice)]
    else []
  }

  // ---- The parts of `AskFor` -------------------------------------------------

  lemma {:induction false} SwallowedIs(s: Rules, c: Turn, ch: Id, s1: Rules, ask: Ask)
    requires Textual(Was(s, ch), c) && s1.settings == s.settings
    ensures Asked(s1, c, ask) <==> !Swallowed(s, ch, ask)
    ensures KeptForLater(c, ask, !s1.settings.questionStep) ==> ask.kind == Question
  {
    hide Was;
  }

  lemma {:induction false} ItemIs(s: Rules, c: Turn, ch: Id, s1: Rules, ask: Ask)
    requires Textual(Was(s, ch), c) && s1.settings == s.settings && s1.nextDecision == s.nextDecision
    ensures Item(s1, c, ask) == Due(s, ch, ask) && AskChimes(s1, c, ask) == ChimeFor(s, ch, ask)
  {
    hide Was, Blank, QuestionText, PlanText, PermissionText, NumberedQuestion, WithExtras;
    RidersAre(s, c, ch, s1, ask);
    assert AskText(ask, !s1.settings.questionStep) == Wording(s.settings, ask);
  }

  lemma {:induction false} RidersAre(s: Rules, c: Turn, ch: Id, s1: Rules, ask: Ask)
    requires Textual(Was(s, ch), c) && s1.settings == s.settings
    ensures Extras(c, ask, s1) == Riders(s.settings, Was(s, ch), ask)
  {
    hide Was;
  }

  /** The turn once the number is taken: text perhaps dropped, the marks of the question set. */
  ghost predicate Marked(c: Turn, c': Turn, ask: Ask) {
    && c'.pending == c.pending && c'.held == c.held && c'.wait == c.wait && c'.inflight == c.inflight
    && c'.lastToken == c.lastToken
    && c'.awaiting == (ask.kind == Question || c.awaiting)
    && (ask.kind != Question ==> c'.questions == c.questions)
  }

  lemma {:induction false} TakenIs(s: Rules, ch: Id, ask: Ask)
    requires ch in s.turns
    ensures var s' := TakeNumber(s, ch, ask);
            && s'.nextDecision == s.nextDecision + 1 && s'.settings == s.settings && s'.whole == s.whole
            && ch in s'.turns && Marked(s.turns[ch], s'.turns[ch], ask)
            && s'.turns[ch].heldProse == (if DropsBefore(s, s.turns[ch], ask) then [] else s.turns[ch].heldProse)
            && s'.turns[ch].hinted == Hints(s.turns[ch], ask, s)
            && (ask.kind == Question ==> s'.turns[ch].questions == Shown(ask, !s.settings.questionStep))
  {
    hide DropHeld, DropsBefore, Shown, Hints, Textual;
    var c := Awaits(s.turns[ch], ask, !s.settings.questionStep);
    var s2 := Set(s, ch, c);
    DropIsText(s2, ch);
    TextualSays(c, DropHeld(s2, ch).0.turns[ch]);
    HintsSame(s.turns[ch], c, DropHeld(s2, ch).0.turns[ch], ask, s);
  }

  lemma {:induction false} HintsSame(c: Turn, c1: Turn, c2: Turn, ask: Ask, s: Rules)
    requires c1 == Awaits(c, ask, !s.settings.questionStep) && c2.hinted == c1.hinted
    ensures Hints(c1, ask, s) == Hints(c2, ask, s) == Hints(c, ask, s)
  {
    hide Shown;
  }

  /** The parts of an ask that is numbered. */
  lemma {:induction false} AskParts(env: Env, s: Rules, ch: Id, ask: Ask)
    requires !Swallowed(s, ch, ask)
    ensures var gap := ReleaseGap(env, s, ch); var s2 := TakeNumber(gap.0, ch, ask);
            && TextOnly(s, ch, gap)
            && !Blank(Due(s, ch, ask).text)
            && AskFor(env, s, ch, ask)
               == Then((s2, gap.1 + ChimeFor(s, ch, ask)), Decided(env, s2, ch, ask, Due(s, ch, ask)))
  {
    hide ReleaseGap, TakeNumber, Decided, Swallowed, Asked, KeptForLater, Item, Due, AskChimes, ChimeFor, Blank,
        Textual;
    GapIsText(env, s, ch);
    var s1 := ReleaseGap(env, s, ch).0;
    var c := s1.turns[ch];
    SwallowedIs(s, c, ch, s1, ask);
    ItemIs(s, c, ch, s1, ask);
    Existing(s1, ch);
  }

  // ---- Numbered or not -------------------------------------------------------

  /** Every decision asked gets the next number, but those two; they are not heard either. */
  lemma {:induction false} EveryAskIsNumbered(env: Env, s: Rules, ch: Id, ask: Ask)
    ensures var (s', out) := AskFor(env, s, ch, ask);
            && s'.nextDecision == s.nextDecision + (if Swallowed(s, ch, ask) then 0 else 1)
            && (Swallowed(s, ch, ask) ==>
                  && ch in s'.turns
                  && s'.turns[ch].awaiting == (Was(s, ch).awaiting && ask.kind != Permission)
                  && s'.turns[ch].pending == Was(s, ch).pending && s'.turns[ch].held == Was(s, ch).held
                  && forall a :: a in out ==> ProseOf(a, ch))
  {
    hide ReleaseGap, TakeNumber, Decided, Asked, Item, AskChimes, Due, ChimeFor, ProseOf, Textual, KeptForLater;
    if Swallowed(s, ch, ask) {
      GapIsText(env, s, ch);
      var s1 := ReleaseGap(env, s, ch).0;
      Existing(s1, ch);
      SwallowedIs(s, s1.turns[ch], ch, s1, ask);
      TextualSays(Was(s, ch), s1.turns[ch]);
      SwallowedKind(s1, s1.turns[ch], ask);
    } else {
      hide Swallowed;
      AskParts(env, s, ch, ask);
      var s1 := ReleaseGap(env, s, ch).0;
      hide Marked, DropsBefore, Hints, Shown;
      TakenIs(s1, ch, ask);
      DecidedNumber(env, TakeNumber(s1, ch, ask), ch, ask, Due(s, ch, ask));
    }
  }

  lemma {:induction false} SwallowedKind(s: Rules, c: Turn, ask: Ask)
    requires !Asked(s, c, ask)
    ensures KeptForLater(c, ask, !s.settings.questionStep) <==> ask.kind == Question
  {
  }

  lemma {:induction false} DecidedNumber(env: Env, s: Rules, ch: Id, ask: Ask, item: Decision)
    requires ch in s.turns
    ensures Decided(env, s, ch, ask, item).0.nextDecision == s.nextDecision
  {
    hide FlushProse, SayDecision, Blank;
    EnqueueNumber(env, s, ch, item);
    EnqueueNumber(env, Set(s, ch, s.turns[ch].(heldProse := [])), ch, item);
    hide Enqueue;
  }

  lemma {:induction false} EnqueueNumber(env: Env, s: Rules, ch: Id, item: Decision)
    requires ch in s.turns
    ensures Enqueue(env, s, ch, item, false).0.nextDecision == s.nextDecision
  {
    hide FlushProse, SayDecision, Blank;
    FlushIsText(env, s, ch, 0);
  }

  // ---- Where it goes ---------------------------------------------------------

  /** It is read at once. */
  predicate AtOnce(s: Rules, ch: Id, ask: Ask) {
    !s.settings.summaries && !ask.later && Was(s, ch).wait == None && Was(s, ch).inflight == 0
  }

  /** It waits for the settle window or for its lead-in. */
  predicate Awaiting(s: Rules, ch: Id, ask: Ask) {
    s.settings.summaries || ask.later || Was(s, ch).wait.Some?
  }

  /** What comes before it in the output: prose of its channel, and its chime. */
  ghost predicate Before(s: Rules, ch: Id, ask: Ask, out: seq<Action>) {
    && (forall a :: a in out ==> ProseOf(a, ch) || a in ChimeFor(s, ch, ask))
    && (forall a :: a in ChimeFor(s, ch, ask) ==> a in out)
  }

  /** With summaries off, no lead-in to come and nothing in flight it is read in the same step, last, after its
      chime, at the mute level there is; all the prose held is read before it. */
  lemma {:induction false} AskedIsRead(env: Env, s: Rules, ch: Id, ask: Ask)
    requires !Swallowed(s, ch, ask) && AtOnce(s, ch, ask)
    ensures var (s', out) := AskFor(env, s, ch, ask); var due := Due(s, ch, ask);
            && out != []
            && out[|out| - 1] == Aloud(s.settings.muteLevel, ch, due.text, Some(due.id), None, due.kind, [])
            && Before(s, ch, ask, out[..|out| - 1])
            && ch in s'.turns && s'.turns[ch].pending == Was(s, ch).pending && s'.turns[ch].held == Was(s, ch).held
            && (s.settings.mode != Final || ask.kind != Permission ==> s'.turns[ch].heldProse == [])
  {
    hide ReleaseGap, TakeNumber, Decided, Due, ChimeFor, ProseOf, Textual, Blank, Aloud, Swallowed, Was, DropsBefore,
        Hints, Shown;
    AskParts(env, s, ch, ask);
    var s1 := ReleaseGap(env, s, ch).0;
    TextualSays(Was(s, ch), s1.turns[ch]);
    TakenIs(s1, ch, ask);
    var s2 := TakeNumber(s1, ch, ask);
    DecidedReads(env, s2, ch, ask, Due(s, ch, ask));
    var first := ReleaseGap(env, s, ch).1 + ChimeFor(s, ch, ask);
    var more := Decided(env, s2, ch, ask, Due(s, ch, ask)).1;
    assert (first + more)[..|first + more| - 1] == first + more[..|more| - 1];
  }

  lemma {:induction false} DecidedReads(env: Env, s: Rules, ch: Id, ask: Ask, item: Decision)
    requires ch in s.turns && !s.settings.summaries && !ask.later && s.turns[ch].wait == None
        && s.turns[ch].inflight == 0
    ensures var (s', out) := Decided(env, s, ch, ask, item);
            && out != []
            && out[|out| - 1] == Aloud(s.settings.muteLevel, ch, item.text, Some(item.id), None, item.kind, [])
            && (forall a :: a in out[..|out| - 1] ==> ProseOf(a, ch))
            && ch in s'.turns && s'.turns[ch].pending == s.turns[ch].pending && s'.turns[ch].held == s.turns[ch].held
            && (s.settings.mode != Final || ask.kind != Permission ==> s'.turns[ch].heldProse == [])
  {
    hide Enqueue, Blank, Aloud, ProseOf;
    EnqueueReads(env, s, ch, item);
    EnqueueReads(env, Set(s, ch, s.turns[ch].(heldProse := [])), ch, item);
  }

  lemma {:induction false} EnqueueReads(env: Env, s: Rules, ch: Id, item: Decision)
    requires ch in s.turns && s.turns[ch].inflight == 0
    ensures var (s', out) := Enqueue(env, s, ch, item, false);
            && out != []
            && out[|out| - 1] == Aloud(s.settings.muteLevel, ch, item.text, Some(item.id), None, item.kind, [])
            && (forall a :: a in out[..|out| - 1] ==> ProseOf(a, ch))
            && ch in s'.turns && s'.turns[ch].pending == s.turns[ch].pending && s'.turns[ch].held == s.turns[ch].held
            && s'.turns[ch].heldProse == []
  {
    hide FlushUpto, Blank, Aloud, ProseOf, Textual, Say;
    FlushSays(env, s, ch, |s.turns[ch].heldProse|);
    FlushIsText(env, s, ch, 0);
    TextualSays(s.turns[ch], FlushProse(env, s, ch).0.turns[ch]);
    SayIs(env, s, ch, item.text, Some(item.id), None, item.kind, []);
  }

  /** Behind a summary in flight it is held for the last job, capped by a timer. */
  lemma {:induction false} AskedIsHeld(env: Env, s: Rules, ch: Id, ask: Ask)
    requires !Swallowed(s, ch, ask) && !Awaiting(s, ch, ask) && Was(s, ch).inflight > 0
    ensures var (s', out) := AskFor(env, s, ch, ask); var c, due := Was(s, ch), Due(s, ch, ask);
            && ch in s'.turns && s'.turns[ch].pending == c.pending
            && s'.turns[ch].held == Some((c.lastToken, (if c.held.Some? then c.held.value.1 else []) + [due]))
            && out != [] && out[|out| - 1] == Arm(HoldCap(ch, due.id)) && Before(s, ch, ask, out[..|out| - 1])
  {
    hide ReleaseGap, TakeNumber, Decided, Due, ChimeFor, ProseOf, Textual, Blank, Swallowed, Was, DropsBefore, Hints,
        Shown;
    AskParts(env, s, ch, ask);
    var s1 := ReleaseGap(env, s, ch).0;
    TextualSays(Was(s, ch), s1.turns[ch]);
    TakenIs(s1, ch, ask);
    var s2 := TakeNumber(s1, ch, ask);
    DecidedHolds(env, s2, ch, ask, Due(s, ch, ask));
    var first := ReleaseGap(env, s, ch).1 + ChimeFor(s, ch, ask);
    var more := [Arm(HoldCap(ch, Due(s, ch, ask).id))];
    assert (first + more)[..|first + more| - 1] == first;
  }

  lemma {:induction false} DecidedHolds(env: Env, s: Rules, ch: Id, ask: Ask, item: Decision)
    requires ch in s.turns && !s.settings.summaries && !ask.later && s.turns[ch].wait == None
        && s.turns[ch].inflight > 0
    ensures var (s', out) := Decided(env, s, ch, ask, item); var c := s.turns[ch];
            && ch in s'.turns && s'.turns[ch].pending == c.pending
            && s'.turns[ch].held == Some((c.lastToken, (if c.held.Some? then c.held.value.1 else []) + [item]))
            && out == [Arm(HoldCap(ch, item.id))]
  {
    hide Blank, Enqueue;
    EnqueueHolds(env, s, ch, item);
    EnqueueHolds(env, Set(s, ch, s.turns[ch].(heldProse := [])), ch, item);
  }

  lemma {:induction false} EnqueueHolds(env: Env, s: Rules, ch: Id, item: Decision)
    requires ch in s.turns && s.turns[ch].inflight > 0
    ensures var (s', out) := Enqueue(env, s, ch, item, false); var c := s.turns[ch];
            && ch in s'.turns && s'.turns[ch].pending == c.pending
            && s'.turns[ch].held == Some((c.lastToken, (if c.held.Some? then c.held.value.1 else []) + [item]))
            && out == [Arm(HoldCap(ch, item.id))]
  {
    hide Blank, FlushProse, SayDecision;
  }

  /** Otherwise it is pending behind those that are, and its timer is there: the settle window is armed (summaries
      on), its lead-in is waited for (one to come, or waited for already). */
  lemma {:induction false} AskedIsPending(env: Env, s: Rules, ch: Id, ask: Ask)
    requires !Swallowed(s, ch, ask) && Awaiting(s, ch, ask)
    ensures var (s', out) := AskFor(env, s, ch, ask); var c := Was(s, ch);
            && ch in s'.turns && s'.turns[ch].pending == c.pending + [Due(s, ch, ask)] && s'.turns[ch].held == c.held
            && (s.settings.summaries ==>
                  s'.turns[ch].settleArmed && out != []
                  && out[|out| - 1] == Arm(Settle(ch, s'.turns[ch].settleGen)))
            && (ask.later || c.wait.Some? ==> s'.turns[ch].wait.Some?)
            && (c.wait.Some? ==> s'.turns[ch].wait == c.wait)
            && (ask.later && c.wait == None ==>
                  s'.turns[ch].wait.value.id == ask.leadInId
                  && Arm(LeadIn(ch, s'.turns[ch].wait.value.gen)) in out)
  {
    hide ReleaseGap, TakeNumber, Decided, Due, ChimeFor, ProseOf, Textual, Blank, Swallowed, Was, DropsBefore, Hints,
        Shown;
    AskParts(env, s, ch, ask);
    var s1 := ReleaseGap(env, s, ch).0;
    TextualSays(Was(s, ch), s1.turns[ch]);
    TakenIs(s1, ch, ask);
    DecidedWaits(env, TakeNumber(s1, ch, ask), ch, ask, Due(s, ch, ask));
  }

  lemma {:induction false} DecidedWaits(env: Env, s: Rules, ch: Id, ask: Ask, item: Decision)
    requires ch in s.turns && (s.settings.summaries || ask.later || s.turns[ch].wait.Some?)
    ensures var (s', out) := Decided(env, s, ch, ask, item); var c := s.turns[ch];
            && ch in s'.turns && s'.turns[ch].pending == c.pending + [item] && s'.turns[ch].held == c.held
            && (s.settings.summaries ==>
                  s'.turns[ch].settleArmed && out != []
                  && out[|out| - 1] == Arm(Settle(ch, s'.turns[ch].settleGen)))
            && (ask.later || c.wait.Some? ==> s'.turns[ch].wait.Some?)
            && (c.wait.Some? ==> s'.turns[ch].wait == c.wait)
            && (ask.later && c.wait == None ==>
                  s'.turns[ch].wait.value.id == ask.leadInId
                  && Arm(LeadIn(ch, s'.turns[ch].wait.value.gen)) in out)
  {
    hide Blank, Enqueue;
  }

  // ---- The marks it leaves ---------------------------------------------------

  /** The size of the set the navigation then goes through: a question on its own is a set of one; none for one
      read in order, and none for a later one whose first never came. */
  function Navigable(settings: Settings, ask: Ask): Option<nat> {
    if OfSet(ask) then (if settings.questionStep && ask.part.value.0 == 0 then Some(ask.part.value.1) else None)
    else if ask.part == None || ask.part.value.0 == 0 then Some(1)
    else None
  }

  /** The hint given once a session rides on it. */
  predicate GivesOnce(settings: Settings, ask: Ask) {
    ask.hintOnce.Some? && settings.verbosity == Everything
    && (!OfSet(ask) || ask.part.value.0 == 0 || settings.questionStep)
  }

  /** A question that is read awaits its answer; a hint given once is not given again. */
  lemma {:induction false} AskMarks(env: Env, s: Rules, ch: Id, ask: Ask)
    requires !Swallowed(s, ch, ask)
    ensures var s' := AskFor(env, s, ch, ask).0; var c := Was(s, ch);
            && ch in s'.turns
            && s'.turns[ch].awaiting == (ask.kind == Question || c.awaiting)
            && s'.turns[ch].questions == (if ask.kind == Question then Navigable(s.settings, ask) else c.questions)
            && (c.hinted ==> s'.turns[ch].hinted)
            && s'.turns[ch].hinted == (c.hinted || GivesOnce(s.settings, ask))
  {
    hide ReleaseGap, TakeNumber, Decided, Due, ChimeFor, ProseOf, Textual, Blank, Swallowed, Was, DropsBefore, Hints,
        Shown, Navigable, GivesOnce;
    AskParts(env, s, ch, ask);
    var s1 := ReleaseGap(env, s, ch).0;
    TextualSays(Was(s, ch), s1.turns[ch]);
    TakenIs(s1, ch, ask);
    DecidedMarks(env, TakeNumber(s1, ch, ask), ch, ask, Due(s, ch, ask));
    if ask.kind == Question {
      ShownIs(s.settings, ask);
    }
    HintedIs(s1, s1.turns[ch], Was(s, ch), ask);
  }

  lemma {:induction false} ShownIs(settings: Settings, ask: Ask)
    requires ask.kind == Question
    ensures Shown(ask, !settings.questionStep) == Navigable(settings, ask)
  {
  }

  lemma {:induction false} HintedIs(s: Rules, c: Turn, c0: Turn, ask: Ask)
    requires c.hinted == c0.hinted
    ensures Hints(c, ask, s) == (c0.hinted || GivesOnce(s.settings, ask))
  {
  }

  predicate SameMarks(c: Turn, c': Turn) {
    c'.awaiting == c.awaiting && c'.questions == c.questions && c'.hinted == c.hinted
  }

  lemma {:induction false} DecidedMarks(env: Env, s: Rules, ch: Id, ask: Ask, item: Decision)
    requires ch in s.turns
    ensures ch in Decided(env, s, ch, ask, item).0.turns
    ensures SameMarks(s.turns[ch], Decided(env, s, ch, ask, item).0.turns[ch])
  {
    hide Blank, Enqueue, WaitLeadIn, ArmSettle;
    var c := s.turns[ch];
    var s2 := Set(s, ch, c.(pending := c.pending + [item]));
    WaitMarks(s2, ch, ask.leadInId);
    ArmMarks(s2, ch);
    ArmMarks(WaitLeadIn(s2, ch, ask.leadInId).0, ch);
    EnqueueMarks(env, s, ch, item);
    EnqueueMarks(env, Set(s, ch, c.(heldProse := [])), ch, item);
  }

  lemma {:induction false} WaitMarks(s: Rules, ch: Id, id: Option<string>)
    requires ch in s.turns
    ensures ch in WaitLeadIn(s, ch, id).0.turns && SameMarks(s.turns[ch], WaitLeadIn(s, ch, id).0.turns[ch])
  {
  }

  lemma {:induction false} ArmMarks(s: Rules, ch: Id)
    requires ch in s.turns
    ensures ch in ArmSettle(s, ch).0.turns && SameMarks(s.turns[ch], ArmSettle(s, ch).0.turns[ch])
  {
  }

  lemma {:induction false} EnqueueMarks(env: Env, s: Rules, ch: Id, item: Decision)
    requires ch in s.turns
    ensures ch in Enqueue(env, s, ch, item, false).0.turns
    ensures SameMarks(s.turns[ch], Enqueue(env, s, ch, item, false).0.turns[ch])
  {
    hide FlushProse, SayDecision, Blank, Textual, ProseOf;
    Existing(s, ch);
    hide Ensure;
    if s.turns[ch].inflight == 0 {
      FlushIsText(env, s, ch, 0);
      TextualSays(s.turns[ch], FlushProse(env, s, ch).0.turns[ch]);
    }
  }

  // ---- In mode `final` -------------------------------------------------------

  lemma {:induction false} AssembleIsQuiet(env: Env, s: Rules, ch: Id, deltas: seq<D.Delta>)
    requires ch in s.turns && s.settings.mode == Final && !s.turns[ch].released && !s.settings.summaries
    ensures var (s', out) := Assemble(env, s, ch, deltas);
            out == [] && ch in s'.turns && s.turns[ch].heldProse <= s'.turns[ch].heldProse
  {
    hide FeedDeltas, Kept, Fed, FlushProse, FlushUpto;
    if deltas != [] {
      var c0 := s.turns[ch];
      var d0 := Draft(c0.(voiced := |c0.prose|), Kept(c0), None);
      DeltasFed(env, d0, deltas, s.settings.verbosity == SkipCode);
      FedHolds(d0.c, FeedDeltas(env, d0, deltas, s.settings.verbosity == SkipCode).c);
    }
  }

  lemma {:induction false} FedHolds(c: Turn, c': Turn)
    requires Fed(c, c')
    ensures c'.heldProse == c.heldProse && c'.released == c.released
  {
  }

  lemma {:induction false} GapIsQuiet(env: Env, s: Rules, ch: Id)
    requires s.settings.mode == Final && !Was(s, ch).released && !s.settings.summaries
    ensures var (s', out) := ReleaseGap(env, s, ch);
            out == [] && ch in s'.turns && Was(s, ch).heldProse <= s'.turns[ch].heldProse
  {
    hide Assemble, D.Release;
    var s1 := Ensure(s, ch);
    var (order, ready) := D.Release(s1.turns[ch].order);
    AssembleIsQuiet(env, Set(s1, ch, s1.turns[ch].(order := order)), ch, ready);
  }

  /** In mode `final`, before the reply, a decision is read with no text before it, but for a question's lead-in:
      a permission prompt leaves the text held, a plan and a question drop it. */
  lemma {:induction false} FinalReadsItAlone(env: Env, s: Rules, ch: Id, ask: Ask)
    requires !Swallowed(s, ch, ask) && AtOnce(s, ch, ask) && s.settings.mode == Final && !Was(s, ch).released
    requires ask.kind == Question ==> Was(s, ch).leadIn == None
    ensures var (s', out) := AskFor(env, s, ch, ask); var due := Due(s, ch, ask);
            && out == ChimeFor(s, ch, ask)
                      + [Aloud(s.settings.muteLevel, ch, due.text, Some(due.id), None, due.kind, [])]
            && ch in s'.turns
            && (if ask.kind == Permission then Was(s, ch).heldProse <= s'.turns[ch].heldProse
                else s'.turns[ch].heldProse == [])
  {
    hide ReleaseGap, TakeNumber, Decided, Due, ChimeFor, ProseOf, Textual, Blank, Aloud, Swallowed, Was, DropsBefore,
        Hints, Shown;
    AskParts(env, s, ch, ask);
    GapIsQuiet(env, s, ch);
    var s1 := ReleaseGap(env, s, ch).0;
    TextualSays(Was(s, ch), s1.turns[ch]);
    TakenIs(s1, ch, ask);
    var s2 := TakeNumber(s1, ch, ask);
    DropsIs(s1, s1.turns[ch], ask);
    DecidedAlone(env, s2, ch, ask, Due(s, ch, ask));
    assert [] + ChimeFor(s, ch, ask) == ChimeFor(s, ch, ask);
  }

  lemma {:induction false} DropsIs(s: Rules, c: Turn, ask: Ask)
    requires s.settings.mode == Final && (ask.kind == Question ==> c.leadIn == None)
    ensures DropsBefore(s, c, ask) <==> ask.kind != Permission
  {
  }

  lemma {:induction false} DecidedAlone(env: Env, s: Rules, ch: Id, ask: Ask, item: Decision)
    requires ch in s.turns && !s.settings.summaries && !ask.later && s.turns[ch].wait == None
        && s.turns[ch].inflight == 0 && s.settings.mode == Final
    requires ask.kind != Permission ==> s.turns[ch].heldProse == []
    ensures var (s', out) := Decided(env, s, ch, ask, item);
            && out == [Aloud(s.settings.muteLevel, ch, item.text, Some(item.id), None, item.kind, [])]
            && ch in s'.turns && s'.turns[ch].heldProse == s.turns[ch].heldProse
  {
    hide Enqueue, Blank, Aloud;
    if ask.kind != Permission {
      EnqueueAlone(env, s, ch, item);
    }
    EnqueueAlone(env, Set(s, ch, s.turns[ch].(heldProse := [])), ch, item);
  }

  lemma {:induction false} EnqueueAlone(env: Env, s: Rules, ch: Id, item: Decision)
    requires ch in s.turns && s.turns[ch].inflight == 0 && s.turns[ch].heldProse == []
    ensures var (s', out) := Enqueue(env, s, ch, item, false);
            && out == [Aloud(s.settings.muteLevel, ch, item.text, Some(item.id), None, item.kind, [])]
            && ch in s'.turns && s'.turns[ch].heldProse == []
  {
    hide Blank, Aloud, Say;
    SayIs(env, s, ch, item.text, Some(item.id), None, item.kind, []);
    FlushSays(env, s, ch, 0);
  }
}
