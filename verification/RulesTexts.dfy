/** The texts prose is read as, and the announcement of a tool. */
module RulesTexts {
  import opened Options
  import opened Wordings
  import D = DeltaOrders
  import opened RulesModel
  import opened RulesFrames
  import opened RulesSpeech

  // ---- Several chunks as one text --------------------------------------------

  /** Chunks, each after its separator: a blank line before a paragraph, else a space. */
  function Following(held: seq<(string, bool)>): string {
    if held == [] then "" else (if held[0].1 then "\n\n" else " ") + held[0].0 + Following(held[1..])
  }

  /** Chunks as one text: no separator before the first that says something. */
  function Message(held: seq<(string, bool)>): string {
    if held == [] then ""
    else if held[0].0 == "" then Message(held[1..])
    else held[0].0 + Following(held[1..])
  }

  /** Joining puts after `text` the chunks as one text. */
  lemma {:induction false} JoinedIs(text: string, empty: bool, held: seq<(string, bool)>)
    ensures Joined(text, empty, held) == text + (if empty then Message(held) else Following(held))
    decreases |held|
  {
    if held == [] {
      assert text + "" == text;
    } else {
      var sep := if empty then "" else if held[0].1 then "\n\n" else " ";
      var first, rest := held[0].0, held[1..];
      JoinedIs(text + sep + first, empty && first == "", rest);
      hide Joined, Message, Following;
      MessageIs(held);
      if empty {
        assert text + sep == text && text + "" == text;
        Apart(text, first, Following(rest));
      } else {
        Apart(text, sep + first, Following(rest));
        Apart(text, sep, first);
      }
    }
  }

  lemma {:induction false} Apart(a: string, b: string, c: string)
    ensures (a + b) + c == a + (b + c)
  {
  }

  lemma {:induction false} MessageIs(held: seq<(string, bool)>)
    requires held != []
    ensures Message(held) == if held[0].0 == "" then Message(held[1..]) else held[0].0 + Following(held[1..])
    ensures Following(held) == (if held[0].1 then "\n\n" else " ") + held[0].0 + Following(held[1..])
  {
  }

  lemma {:induction false} MarkedText(text: string)
    ensures !Blank(MARK + text)
  {
    MarkedNotBlank(MARK + text);
  }

  lemma {:induction false} EachIsSaid(env: Env, s: Rules, ch: Id, texts: seq<string>)
    ensures var out := SayEach(env, s, ch, MARK, texts);
            && |out| == |texts|
            && forall i :: 0 <= i < |texts| ==>
                 out[i] == Aloud(s.settings.muteLevel, ch, MARK + texts[i], None, None, Prose, [texts[i]])
  {
    hide Say, Aloud;
    if texts != [] {
      MarkedText(texts[0]);
      SayIs(env, s, ch, MARK + texts[0], None, None, Prose, [texts[0]]);
      EachIsSaid(env, s, ch, texts[1..]);
    }
  }

  /** The first `n` chunks held are read, and only they: joined to one text when messages are read whole,
      each on its own otherwise. */
  lemma {:induction false} FlushSays(env: Env, s: Rules, ch: Id, n: nat)
    requires ch in s.turns
    ensures var held := s.turns[ch].heldProse;
            var k := if n < |held| then n else |held|;
            var (s', out) := FlushUpto(env, s, ch, n);
            && s' == s.(turns := s.turns[ch := s.turns[ch].(heldProse := held[k..])])
            && (k == 0 ==> out == [])
            && (k > 0 && s.whole ==>
                  out == [Aloud(s.settings.muteLevel, ch, MARK + Message(held[..k]), None, None, Prose,
                                Parts(held[..k]))])
            && (!s.whole ==>
                  && |out| == k
                  && forall i :: 0 <= i < k ==>
                       out[i] == Aloud(s.settings.muteLevel, ch, MARK + held[i].0, None, None, Prose, [held[i].0]))
  {
    hide Say, SayEach, Joined, Aloud, Message;
    var held := s.turns[ch].heldProse;
    var k := if n < |held| then n else |held|;
    var taken := held[..k];
    JoinedIs(MARK, true, taken);
    MarkedText(Message(taken));
    SayIs(env, s, ch, MARK + Message(taken), None, None, Prose, Parts(taken));
    EachIsSaid(env, s, ch, Parts(taken));
  }

  // ---- A tool ----------------------------------------------------------------

  lemma {:induction false} ToolTextIs(name: string, summary: string)
    ensures !Blank(ToolText(name, summary))
    ensures Blank(summary) ==> ToolText(name, summary) == "Running " + Trim(name) + "."
    ensures !Blank(summary) ==> ToolText(name, summary) == Trim(summary)
  {
    hide Blank, Trim;
    TrimmedIs(summary);
    if Trim(summary) == "" {
      assert ToolText(name, summary)[0] == 'R';
      NotWhite(ToolText(name, summary));
    }
  }

  lemma {:induction false} NotWhite(s: string)
    requires s != "" && !White(s[0])
    ensures !Blank(s)
  {
  }

  /** A tool is announced, last of all, exactly at verbosity `everything` in a reply that is not skipped; the
      question that waited for an answer is over in any case. */
  lemma {:induction false} ToolIsAnnounced(env: Env, s: Rules, ch: Id, name: string, summary: string)
    ensures var (s', out) := ToolRuns(env, s, ch, name, summary);
            && ch in s'.turns && !s'.turns[ch].awaiting && s'.turns[ch].questions == None
            && (Was(s, ch).skipReply || s.settings.verbosity != Everything ==> out == [])
            && (!Was(s, ch).skipReply && s.settings.verbosity == Everything ==>
                  && out != []
                  && out[|out| - 1] == Aloud(s.settings.muteLevel, ch, ToolText(name, summary), None, None, Tool, [])
                  && forall a :: a in out[..|out| - 1] ==> ProseOf(a, ch))
  {
    hide ReleaseGap, FlushProse, Say, ToolText, Blank, Aloud, Textual, ProseOf;
    ToolTextIs(name, summary);
    SayIs(env, s, ch, ToolText(name, summary), None, None, Tool, []);
    var s1 := Ensure(s, ch);
    var c := Settled(s1.turns[ch]);
    var s2 := Set(s1, ch, c);
    var s3 := if s.whole then s2 else Set(s2, ch, c.(released := true));
    GapIsText(env, s3, ch);
    var let := ReleaseGap(env, s3, ch);
    FlushIsText(env, let.0, ch, 0);
    TextThen(s3, ch, let, FlushProse(env, let.0, ch));
    TextualSays(s3.turns[ch], FlushProse(env, let.0, ch).0.turns[ch]);
  }

  lemma {:induction false} TextualSays(c: Turn, c': Turn)
    requires Textual(c, c')
    ensures c'.awaiting == c.awaiting && c'.questions == c.questions && c'.pending == c.pending && c'.held == c.held
    ensures c'.wait == c.wait && c'.inflight == c.inflight && c'.lastToken == c.lastToken
    ensures c'.hinted == c.hinted && c'.leadIn == c.leadIn && c'.skipReply == c.skipReply && c'.released == c.released
  {
  }

  // ---- What letting go of text leaves alone ----------------------------------

  /** Only text, its assembling and the settle window change; `gen` of a turn just made. */
  ghost predicate Textual(c: Turn, c': Turn) {
    c' == c.(fed := c'.fed, heldProse := c'.heldProse, newPara := c'.newPara, lastIndex := c'.lastIndex,
             order := c'.order, prose := c'.prose, voiced := c'.voiced, settleGen := c'.settleGen,
             settleArmed := c'.settleArmed, gen := c'.gen)
  }

  /** Prose of `ch`, or its settle window armed. */
  predicate ProseOf(a: Action, ch: Id) {
    match a
    case Speak(x, _, number, _, kind, _) => x == ch && number == None && kind == Prose
    case Store(x, _, number, _, kind, _) => x == ch && number == None && kind == Prose
    case Arm(t) => t.Settle? && t.channel == ch
    case _ => false
  }

  /** `r` comes of `s` by letting go of text of `ch`. */
  ghost predicate TextOnly(s: Rules, ch: Id, r: Out) {
    && ch in r.0.turns && Textual(Was(s, ch), r.0.turns[ch])
    && r.0.settings == s.settings && r.0.nextDecision == s.nextDecision && r.0.whole == s.whole
    && forall a :: a in r.1 ==> ProseOf(a, ch)
  }

  lemma {:induction false} TextThen(s: Rules, ch: Id, first: Out, more: Out)
    requires TextOnly(s, ch, first) && TextOnly(first.0, ch, more)
    ensures TextOnly(s, ch, Then(first, more))
  {
    hide ProseOf;
  }

  lemma {:induction false} SaidIsProse(env: Env, s: Rules, ch: Id, text: string, parts: seq<string>)
    ensures forall a :: a in Say(env, s, ch, text, None, None, Prose, parts) ==> ProseOf(a, ch)
  {
    hide Blank;
  }

  lemma {:induction false} EachIsProse(env: Env, s: Rules, ch: Id, head: string, texts: seq<string>)
    ensures forall a :: a in SayEach(env, s, ch, head, texts) ==> ProseOf(a, ch)
  {
    hide Say, ProseOf;
    if texts != [] {
      SaidIsProse(env, s, ch, head + texts[0], [texts[0]]);
      EachIsProse(env, s, ch, head, texts[1..]);
    }
  }

  lemma {:induction false} FlushIsText(env: Env, s: Rules, ch: Id, n: nat)
    requires ch in s.turns
    ensures TextOnly(s, ch, FlushUpto(env, s, ch, n)) && TextOnly(s, ch, FlushProse(env, s, ch))
  {
    hide SayProse, ProseOf;
    var held := s.turns[ch].heldProse;
    ProseIsProse(env, s, ch, held[..if n < |held| then n else |held|]);
    ProseIsProse(env, s, ch, held[..|held|]);
  }

  lemma {:induction false} ProseIsProse(env: Env, s: Rules, ch: Id, held: seq<(string, bool)>)
    ensures forall a :: a in SayProse(env, s, ch, held) ==> ProseOf(a, ch)
  {
    hide Say, SayEach, ProseOf, Joined, Parts;
    SaidIsProse(env, s, ch, Joined(MARK, true, held), Parts(held));
    EachIsProse(env, s, ch, MARK, Parts(held));
  }

  lemma {:induction false} FedIsText(c: Turn, c': Turn, voiced: nat, held: seq<(string, bool)>)
    requires Fed(c, c')
    ensures Textual(c, c'.(voiced := voiced, heldProse := held))
  {
  }

  lemma {:induction false} SetIsText(s: Rules, ch: Id, c: Turn)
    requires ch in s.turns && Textual(s.turns[ch], c)
    ensures TextOnly(s, ch, (Set(s, ch, c), []))
  {
  }

  lemma {:induction false} HoldIsText(env: Env, s: Rules, ch: Id, c: Turn, texts: seq<(string, bool)>,
      breaks: Option<nat>)
    requires ch in s.turns && Textual(s.turns[ch], c)
    ensures TextOnly(s, ch, Hold(env, s, ch, c, texts, breaks))
  {
    hide FlushUpto, FlushProse, Ready, TextOnly, Textual;
    SetIsText(s, ch, c);
    var c1 := c.(heldProse := c.heldProse + texts);
    HoldsText(s.turns[ch], c, c.heldProse + texts);
    SetIsText(s, ch, c1);
    var s1 := Set(s, ch, c1);
    var upto := |c.heldProse| + (if breaks.Some? then breaks.value else 0);
    FlushIsText(env, s1, ch, upto);
    TextThen(s, ch, (s1, []), FlushProse(env, s1, ch));
    TextThen(s, ch, (s1, []), FlushUpto(env, s1, ch, upto));
    NothingBefore(FlushProse(env, s1, ch).1);
    NothingBefore(FlushUpto(env, s1, ch, upto).1);
  }

  lemma {:induction false} HoldsText(c: Turn, c1: Turn, held: seq<(string, bool)>)
    requires Textual(c, c1)
    ensures Textual(c, c1.(heldProse := held))
  {
  }

  lemma {:induction false} ArmIsText(s: Rules, ch: Id)
    requires ch in s.turns
    ensures TextOnly(s, ch, ArmSettle(s, ch))
  {
  }

  lemma {:induction false} AssembleIsText(env: Env, s: Rules, ch: Id, deltas: seq<D.Delta>)
    requires ch in s.turns
    ensures TextOnly(s, ch, Assemble(env, s, ch, deltas))
  {
    hide FeedDeltas, Hold, Kept, ArmSettle, TextOnly, Textual, Fed;
    Unchanged(s.turns[ch]);
    SetIsText(s, ch, s.turns[ch]);
    assert Set(s, ch, s.turns[ch]) == s;
    if deltas != [] {
      var c0 := s.turns[ch];
      var skip := s.settings.verbosity == SkipCode;
      if s.settings.summaries {
        var d := FeedDeltas(env, Draft(c0, [], None), deltas, skip);
        DeltasFed(env, Draft(c0, [], None), deltas, skip);
        FedIsText(c0, d.c, d.c.voiced, d.c.heldProse);
        SetIsText(s, ch, d.c);
        ArmIsText(Set(s, ch, d.c), ch);
        TextThen(s, ch, (Set(s, ch, d.c), []), ArmSettle(Set(s, ch, d.c), ch));
        NothingBefore(ArmSettle(Set(s, ch, d.c), ch).1);
      } else {
        var c := c0.(voiced := |c0.prose|);
        var d := FeedDeltas(env, Draft(c, Kept(c0), None), deltas, skip);
        DeltasFed(env, Draft(c, Kept(c0), None), deltas, skip);
        FedIsText(c, d.c, |d.c.prose|, d.c.heldProse);
        VoicedIsText(c0, d.c.(voiced := |d.c.prose|));
        HoldIsText(env, s, ch, d.c.(voiced := |d.c.prose|), d.texts, d.breaks);
      }
    }
  }

  lemma {:induction false} Unchanged(c: Turn)
    ensures Textual(c, c)
  {
  }

  lemma {:induction false} VoicedIsText(c: Turn, c': Turn)
    requires Textual(c.(voiced := |c.prose|), c')
    ensures Textual(c, c')
  {
  }

  lemma {:induction false} GapIsText(env: Env, s: Rules, ch: Id)
    ensures TextOnly(s, ch, ReleaseGap(env, s, ch))
  {
    hide Assemble, D.Release, TextOnly;
    var s1 := Ensure(s, ch);
    var (order, ready) := D.Release(s1.turns[ch].order);
    OrderIsText(s, ch, order);
    var s2 := Set(s1, ch, s1.turns[ch].(order := order));
    AssembleIsText(env, s2, ch, ready);
    TextThen(s, ch, (s2, []), Assemble(env, s2, ch, ready));
    NothingBefore(Assemble(env, s2, ch, ready).1);
  }

  lemma {:induction false} OrderIsText(s: Rules, ch: Id, order: D.Order)
    ensures var s1 := Ensure(s, ch); TextOnly(s, ch, (Set(s1, ch, s1.turns[ch].(order := order)), []))
  {
    EnsuredIs(s, ch);
    hide Ensure, Was, ProseOf;
  }

  lemma {:induction false} EnsuredIs(s: Rules, ch: Id)
    ensures var s1 := Ensure(s, ch);
            && s1.turns[ch] == Was(s, ch).(gen := s1.turns[ch].gen)
            && s1.settings == s.settings && s1.nextDecision == s.nextDecision && s1.whole == s.whole
  {
  }

  lemma {:induction false} DropIsText(s: Rules, ch: Id)
    ensures TextOnly(s, ch, (DropHeld(s, ch).0, [])) && DropHeld(s, ch).0.turns[ch].heldProse == []
  {
    hide D.Release;
  }
}
