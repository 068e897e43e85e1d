/** What assembling lets go of, with which paragraph marks; and what the end of a turn reads in each mode. */
module RulesEndings {
  import opened Options
  import opened Wordings
  import D = DeltaOrders
  import opened RulesModel
  import opened RulesFrames
  import opened RulesSpeech
  import opened RulesTexts
  import opened RulesAsks
  import opened RulesProse

  // ---- Paragraphs ------------------------------------------------------------

  /** What assembling gives: a text to read, or the end of a paragraph. */
  datatype Piece = Says(text: string) | Ends

  function PieceOf(env: Env, chunk: Chunk, skipCode: bool): seq<Piece> {
    match chunk
    case Text(t) => [Says(t)]
    case Code(summary, lines, end) => if skipCode then [] else [Says(env.codeBlock(summary, lines, end))]
    case ParagraphBreak => [Ends]
  }

  function PiecesOf(env: Env, chunks: seq<Chunk>, skipCode: bool): seq<Piece> {
    if chunks == [] then [] else PieceOf(env, chunks[0], skipCode) + PiecesOf(env, chunks[1..], skipCode)
  }

  /** The texts of `pieces`, each marked when a paragraph ended before it (`para`: one had ended already). */
  function Marked(pieces: seq<Piece>, para: bool): seq<(string, bool)> {
    if pieces == [] then []
    else match pieces[0]
      case Says(t) => [(t, para)] + Marked(pieces[1..], false)
      case Ends => Marked(pieces[1..], true)
  }

  /** Whether a paragraph ended last. */
  function EndsLast(pieces: seq<Piece>, para: bool): bool {
    if pieces == [] then para
    else EndsLast(pieces[1..], pieces[0].Ends?)
  }

  lemma {:induction false} MarkedAdd(a: seq<Piece>, b: seq<Piece>, para: bool)
    ensures Marked(a + b, para) == Marked(a, para) + Marked(b, EndsLast(a, para))
    ensures EndsLast(a + b, para) == EndsLast(b, EndsLast(a, para))
  {
    if a == [] {
      assert a + b == b;
    } else {
      assert (a + b)[1..] == a[1..] + b;
      MarkedAdd(a[1..], b, a[0].Ends?);
    }
  }

  /** What a delta gives: an end first when it starts another block of the reply, an end last when it ends its
      block. */
  function DeltaGives(env: Env, c: Turn, x: D.Delta, skipCode: bool): seq<Piece> {
    (if x.index == 0 && c.lastIndex.Some? && c.lastIndex.value > 0 then [Ends] else [])
    + PiecesOf(env, env.feed(c.fed, x), skipCode) + (if x.fin then [Ends] else [])
  }

  lemma {:induction false} ChunkMarked(env: Env, d: Draft, chunk: Chunk, skipCode: bool)
    ensures var d', piece := FeedChunk(env, d, chunk, skipCode), PieceOf(env, chunk, skipCode);
            && d'.texts == d.texts + Marked(piece, d.c.newPara) && d'.c.newPara == EndsLast(piece, d.c.newPara)
            && d'.c.lastIndex == d.c.lastIndex
  {
    var piece := PieceOf(env, chunk, skipCode);
    if piece != [] {
      assert piece[1..] == [];
    }
  }

  lemma {:induction false} ChunksMarked(env: Env, d: Draft, chunks: seq<Chunk>, skipCode: bool)
    ensures var d', pieces := FeedChunks(env, d, chunks, skipCode), PiecesOf(env, chunks, skipCode);
            && d'.texts == d.texts + Marked(pieces, d.c.newPara) && d'.c.newPara == EndsLast(pieces, d.c.newPara)
            && d'.c.lastIndex == d.c.lastIndex
    decreases |chunks|
  {
    hide FeedChunk, PieceOf, Marked;
    if chunks == [] {
      NoneMarked(d.c.newPara);
      assert d.texts + [] == d.texts;
    } else {
      var d1 := FeedChunk(env, d, chunks[0], skipCode);
      ChunkMarked(env, d, chunks[0], skipCode);
      ChunksMarked(env, d1, chunks[1..], skipCode);
      var first, rest := PieceOf(env, chunks[0], skipCode), PiecesOf(env, chunks[1..], skipCode);
      MarkedAdd(first, rest, d.c.newPara);
      hide EndsLast;
      assert d.texts + Marked(first, d.c.newPara) + Marked(rest, d1.c.newPara)
          == d.texts + (Marked(first, d.c.newPara) + Marked(rest, d1.c.newPara));
    }
  }

  lemma {:induction false} NoneMarked(para: bool)
    ensures Marked([], para) == [] && EndsLast([], para) == para
    ensures Marked([Ends], para) == [] && EndsLast([Ends], para)
  {
    assert [Ends][1..] == [];
  }

  /** The texts a delta adds are those the assembler makes, each marked when a paragraph ended before it: within the
      delta, at the end of the block before it, or with the block's start. */
  lemma {:induction false} DeltaMarked(env: Env, d: Draft, x: D.Delta, skipCode: bool)
    ensures var d', pieces := FeedDelta(env, d, x, skipCode), DeltaGives(env, d.c, x, skipCode);
            && d'.texts == d.texts + Marked(pieces, d.c.newPara) && d'.c.newPara == EndsLast(pieces, d.c.newPara)
            && d'.c.lastIndex == Some(x.index)
  {
    hide FeedChunks, PiecesOf, Marked, EndsLast;
    var c := Numbering(d.c, x);
    var before := if x.index == 0 && d.c.lastIndex.Some? && d.c.lastIndex.value > 0 then [Ends] else [];
    var pieces := PiecesOf(env, env.feed(d.c.fed, x), skipCode);
    var after := if x.fin then [Ends] else [];
    ChunksMarked(env, d.(c := c), env.feed(d.c.fed, x), skipCode);
    NoneMarked(d.c.newPara);
    NoneMarked(EndsLast(pieces, c.newPara));
    MarkedAdd(before, pieces, d.c.newPara);
    MarkedAdd(before + pieces, after, d.c.newPara);
    assert [] + Marked(pieces, c.newPara) == Marked(pieces, c.newPara);
    assert Marked(pieces, c.newPara) + [] == Marked(pieces, c.newPara);
  }

  /** How many texts come before the last end of a paragraph, after `n` before; `ends`: that of an end before. */
  function LastEnd(pieces: seq<Piece>, n: nat, ends: Option<nat>): Option<nat>
    decreases |pieces|
  {
    if pieces == [] then ends
    else match pieces[0]
      case Says(_) => LastEnd(pieces[1..], n + 1, ends)
      case Ends => LastEnd(pieces[1..], n, Some(n))
  }

  function Texts(pieces: seq<Piece>): nat {
    if pieces == [] then 0 else (if pieces[0].Says? then 1 else 0) + Texts(pieces[1..])
  }

  lemma {:induction false} LastEndAdd(a: seq<Piece>, b: seq<Piece>, n: nat, ends: Option<nat>)
    ensures LastEnd(a + b, n, ends) == LastEnd(b, n + Texts(a), LastEnd(a, n, ends))
    decreases |a|
  {
    if a == [] {
      assert a + b == b;
    } else {
      assert (a + b)[1..] == a[1..] + b;
      LastEndAdd(a[1..], b, if a[0].Says? then n + 1 else n, if a[0].Says? then ends else Some(n));
    }
  }

  lemma {:induction false} ChunkEnds(env: Env, d: Draft, chunk: Chunk, skipCode: bool)
    ensures var d', piece := FeedChunk(env, d, chunk, skipCode), PieceOf(env, chunk, skipCode);
            d'.breaks == LastEnd(piece, |d.texts|, d.breaks) && |d'.texts| == |d.texts| + Texts(piece)
  {
    var piece := PieceOf(env, chunk, skipCode);
    if piece != [] {
      assert piece[1..] == [];
    }
  }

  lemma {:induction false} ChunksEnd(env: Env, d: Draft, chunks: seq<Chunk>, skipCode: bool)
    ensures var d', pieces := FeedChunks(env, d, chunks, skipCode), PiecesOf(env, chunks, skipCode);
            d'.breaks == LastEnd(pieces, |d.texts|, d.breaks) && |d'.texts| == |d.texts| + Texts(pieces)
    decreases |chunks|
  {
    hide FeedChunk, PieceOf;
    if chunks != [] {
      var d1 := FeedChunk(env, d, chunks[0], skipCode);
      var first, rest := PieceOf(env, chunks[0], skipCode), PiecesOf(env, chunks[1..], skipCode);
      ChunkEnds(env, d, chunks[0], skipCode);
      ChunksEnd(env, d1, chunks[1..], skipCode);
      LastEndAdd(first, rest, |d.texts|, d.breaks);
      TextsAdd(first, rest);
    }
  }

  lemma {:induction false} TextsAdd(a: seq<Piece>, b: seq<Piece>)
    ensures Texts(a + b) == Texts(a) + Texts(b)
  {
    if a == [] {
      assert a + b == b;
    } else {
      assert (a + b)[1..] == a[1..] + b;
      TextsAdd(a[1..], b);
    }
  }

  /** What may be let go when a whole message is read at once: the texts before the last paragraph end, the one that
      ends a block with it. */
  lemma {:induction false} DeltaEnds(env: Env, d: Draft, x: D.Delta, skipCode: bool)
    ensures var pieces := PiecesOf(env, env.feed(d.c.fed, x), skipCode) + (if x.fin then [Ends] else []);
            FeedDelta(env, d, x, skipCode).breaks == LastEnd(pieces, |d.texts|, d.breaks)
  {
    hide FeedChunks, PiecesOf, LastEnd;
    var pieces := PiecesOf(env, env.feed(d.c.fed, x), skipCode);
    ChunksEnd(env, d.(c := Numbering(d.c, x)), env.feed(d.c.fed, x), skipCode);
    LastEndAdd(pieces, if x.fin then [Ends] else [], |d.texts|, d.breaks);
    JustEnds(|d.texts| + Texts(pieces), LastEnd(pieces, |d.texts|, d.breaks));
  }

  lemma {:induction false} JustEnds(n: nat, ends: Option<nat>)
    ensures LastEnd([], n, ends) == ends && LastEnd([Ends], n, ends) == Some(n)
  {
    assert [Ends][1..] == [];
  }

  // ---- What a recap covers ---------------------------------------------------

  /** What a recap is made of: the texts, and of code its summary, read or not. */
  function CoveredBy(chunk: Chunk): seq<string> {
    match chunk
    case Text(t) => [t]
    case Code(summary, _, _) => [summary]
    case ParagraphBreak => []
  }

  function Covered(chunks: seq<Chunk>): seq<string> {
    if chunks == [] then [] else CoveredBy(chunks[0]) + Covered(chunks[1..])
  }

  function CoveredOf(env: Env, fed: seq<D.Delta>, more: seq<D.Delta>): seq<string>
    decreases |more|
  {
    if more == [] then [] else Covered(env.feed(fed, more[0])) + CoveredOf(env, fed + [more[0]], more[1..])
  }

  lemma {:induction false} ChunkCovered(env: Env, d: Draft, chunk: Chunk, skipCode: bool)
    ensures var d' := FeedChunk(env, d, chunk, skipCode);
            d'.c.prose == d.c.prose + CoveredBy(chunk) && d'.c.fed == d.c.fed
  {
    match chunk
    case Text(t) =>
    case Code(summary, _, _) =>
    case ParagraphBreak =>
      assert d.c.prose + [] == d.c.prose;
  }

  lemma {:induction false} ChunksCovered(env: Env, d: Draft, chunks: seq<Chunk>, skipCode: bool)
    ensures FeedChunks(env, d, chunks, skipCode).c.prose == d.c.prose + Covered(chunks)
    ensures FeedChunks(env, d, chunks, skipCode).c.fed == d.c.fed
    decreases |chunks|
  {
    hide FeedChunk, CoveredBy;
    if chunks == [] {
      assert d.c.prose + [] == d.c.prose;
    } else {
      ChunkCovered(env, d, chunks[0], skipCode);
      ChunksCovered(env, FeedChunk(env, d, chunks[0], skipCode), chunks[1..], skipCode);
      Grouped(d.c.prose, CoveredBy(chunks[0]), Covered(chunks[1..]));
    }
  }

  lemma {:induction false} DeltasCovered(env: Env, d: Draft, deltas: seq<D.Delta>, skipCode: bool)
    ensures FeedDeltas(env, d, deltas, skipCode).c.prose == d.c.prose + CoveredOf(env, d.c.fed, deltas)
    decreases |deltas|
  {
    hide FeedChunks, Covered;
    if deltas == [] {
      assert d.c.prose + [] == d.c.prose;
    } else {
      ChunksCovered(env, d.(c := Numbering(d.c, deltas[0])), env.feed(d.c.fed, deltas[0]), skipCode);
      var d1 := FeedDelta(env, d, deltas[0], skipCode);
      hide FeedDelta;
      assert d1.c.fed == d.c.fed + [deltas[0]];
      DeltasCovered(env, d1, deltas[1..], skipCode);
      assert d.c.prose + Covered(env.feed(d.c.fed, deltas[0])) + CoveredOf(env, d.c.fed + [deltas[0]], deltas[1..])
          == d.c.prose + (Covered(env.feed(d.c.fed, deltas[0])) + CoveredOf(env, d.c.fed + [deltas[0]], deltas[1..]));
    }
  }

  /** With summaries on nothing of the prose is read: the turn keeps for its recap all the assembler made, in order,
      whatever the verbosity; a settle window that runs starts anew. */
  lemma {:induction false} SummariesKeep(env: Env, s: Rules, ch: Id, deltas: seq<D.Delta>)
    requires s.settings.summaries && ch in s.turns && deltas != []
    ensures var (s', out) := Assemble(env, s, ch, deltas); var c := s.turns[ch];
            && ch in s'.turns && s'.turns[ch].prose == c.prose + CoveredOf(env, c.fed, deltas)
            && s'.turns[ch].voiced == c.voiced && s'.turns[ch].heldProse == c.heldProse
            && out == (if c.settleArmed then [Arm(Settle(ch, s'.turns[ch].settleGen))] else [])
            && s'.turns[ch].settleArmed == c.settleArmed
  {
    hide FeedDeltas, CoveredOf, Fed;
    var c := s.turns[ch];
    var skip := s.settings.verbosity == SkipCode;
    DeltasCovered(env, Draft(c, [], None), deltas, skip);
    DeltasFed(env, Draft(c, [], None), deltas, skip);
    FedKeeps(c, FeedDeltas(env, Draft(c, [], None), deltas, skip).c);
  }

  lemma {:induction false} FedKeeps(c: Turn, c': Turn)
    requires Fed(c, c')
    ensures c'.voiced == c.voiced && c'.heldProse == c.heldProse && c'.settleArmed == c.settleArmed
  {
  }

  /** Turned off while the turn settled, the prose kept for a recap is read instead, before the text held. */
  lemma {:induction false} KeptIsRead(env: Env, s: Rules, ch: Id, leadin: bool, focused: Option<Id>)
    requires !s.settings.summaries && ch in s.turns
    ensures var (s', out, went) := Summarizing(env, s, ch, leadin, focused); var c := s.turns[ch];
            var kept := if c.voiced <= |c.prose| then c.prose[c.voiced..] else [];
            && !went && ch in s'.turns && s'.turns[ch].voiced == |c.prose|
            && Heard(out, ch) == (if kept == [] then [] else kept + Parts(c.heldProse))
            && s'.turns[ch].heldProse == if kept == [] then c.heldProse else []
  {
    hide Parts, FlushProse, Heard;
    var c := s.turns[ch];
    var kept := if c.voiced <= |c.prose| then c.prose[c.voiced..] else [];
    KeptAre(c);
    var s1 := HoldKept(s, ch);
    PartsAdd(Kept(c), c.heldProse);
    FlushIsAll(env, s1, ch);
    NothingHeard(ch, c.heldProse);
    assert kept == [] ==> Kept(c) + c.heldProse == c.heldProse;
  }

  lemma {:induction false} KeptAre(c: Turn)
    ensures Parts(Kept(c)) == if c.voiced <= |c.prose| then c.prose[c.voiced..] else []
    ensures |Kept(c)| == |if c.voiced <= |c.prose| then c.prose[c.voiced..] else []|
  {
  }

  // ---- What is not ready waits -----------------------------------------------

  /** Prose is not read yet: the turn did not let it go, and the mode holds it: fewer chunks than asked for, the
      message is read whole, or only at the end. */
  predicate HeldBack(s: Rules, c: Turn) {
    && !c.released
    && match s.settings.mode
       case Immediate => s.whole
       case Queue => |c.heldProse| < s.settings.minqueue
       case _ => true
  }

  lemma {:induction false} HeldBackIs(s: Rules, c: Turn)
    ensures HeldBack(s, c) <==> !Ready(s, c)
  {
  }

  /** What is held back stays held, but for whole messages read at once: those that ended are read, exactly up to
      the last paragraph end. */
  lemma {:induction false} HeldBackWaits(env: Env, s: Rules, ch: Id, c: Turn, texts: seq<(string, bool)>,
      breaks: Option<nat>)
    requires ch in s.turns && HeldBack(s, c.(heldProse := c.heldProse + texts))
    requires breaks.Some? ==> breaks.value <= |texts|
    ensures var (s', out) := Hold(env, s, ch, c, texts, breaks); var all := c.heldProse + texts;
            && ch in s'.turns
            && (s.settings.mode != Immediate || breaks == None ==> out == [] && s'.turns[ch].heldProse == all)
            && (s.settings.mode == Immediate && breaks.Some? ==>
                  var k := |c.heldProse| + breaks.value;
                  Heard(out, ch) == Parts(all[..k]) && s'.turns[ch].heldProse == all[k..])
  {
    hide FlushProse, FlushUpto, Parts, Heard, Ready, Set;
    HoldIs(env, s, ch, c, texts, breaks);
    hide Hold;
    var c1 := c.(heldProse := c.heldProse + texts);
    var s1 := Set(s, ch, c1);
    SetHas(s, ch, c);
    SetHas(s, ch, c1);
    SetSettings(s, ch, c1);
    HeldBackIs(s1, c1);
    assert c.heldProse + [] == c.heldProse;
    if breaks.Some? {
      UptoHeard(env, s1, ch, |c.heldProse| + breaks.value);
      NothingHeard(ch, c1.heldProse);
    }
  }

  /** The ways of `Hold`. */
  lemma {:induction false} HoldIs(env: Env, s: Rules, ch: Id, c: Turn, texts: seq<(string, bool)>, breaks: Option<nat>)
    ensures var c1 := c.(heldProse := c.heldProse + texts); var s1 := Set(s, ch, c1);
            var ends := s.whole && s.settings.mode == Immediate && breaks.Some?;
            var k := |c.heldProse| + (if breaks.Some? then breaks.value else 0);
            Hold(env, s, ch, c, texts, breaks)
            == if texts == [] && !ends then (Set(s, ch, c), [])
               else if Ready(s1, c1) then FlushProse(env, s1, ch)
               else if ends && k > 0 then FlushUpto(env, s1, ch, k)
               else (s1, [])
  {
    hide FlushProse, FlushUpto;
  }

  lemma {:induction false} UptoHeard(env: Env, s: Rules, ch: Id, k: nat)
    requires ch in s.turns && k <= |s.turns[ch].heldProse|
    ensures var (s', out) := FlushUpto(env, s, ch, k); var held := s.turns[ch].heldProse;
            Heard(out, ch) == Parts(held[..k]) && ch in s'.turns && s'.turns[ch].heldProse == held[k..]
  {
    hide SayProse, Parts, Heard;
    ProseHeard(env, s, ch, s.turns[ch].heldProse[..k], ch);
  }

  lemma {:induction false} NothingHeard(ch: Id, held: seq<(string, bool)>)
    ensures Heard([], ch) == [] && Parts(held[..0]) == [] && held[0..] == held
  {
  }

  // ---- The end of a turn -----------------------------------------------------

  ghost predicate NoPlay(out: seq<Action>) {
    forall a :: a in out ==> !a.Play?
  }

  lemma {:induction false} ProseNoPlay(out: seq<Action>, ch: Id)
    requires forall a :: a in out ==> ProseOf(a, ch)
    ensures NoPlay(out)
  {
    forall a | a in out ensures !a.Play? {
      assert ProseOf(a, ch);
    }
  }

  lemma {:induction false} AssembleKeepsOrder(env: Env, s: Rules, ch: Id, deltas: seq<D.Delta>)
    requires ch in s.turns
    ensures var s' := Assemble(env, s, ch, deltas).0; ch in s'.turns && s'.turns[ch].order == s.turns[ch].order
  {
    if s.settings.summaries {
      hide FeedDeltas, Fed;
      var skip := s.settings.verbosity == SkipCode;
      DeltasFed(env, Draft(s.turns[ch], [], None), deltas, skip);
      FedOrder(s.turns[ch], FeedDeltas(env, Draft(s.turns[ch], [], None), deltas, skip).c);
    } else {
      hide Assemble;
      AssembleOrder(env, s, ch, deltas);
    }
  }

  lemma {:induction false} FedOrder(c: Turn, c': Turn)
    requires Fed(c, c')
    ensures c'.order == c.order
  {
  }

  lemma {:induction false} GapIsEmptied(env: Env, s: Rules, ch: Id)
    ensures var s' := ReleaseGap(env, s, ch).0; ch in s'.turns && s'.turns[ch].order.ahead == []
  {
    hide Assemble, D.Release;
    var s1 := Ensure(s, ch);
    var (order, ready) := D.Release(s1.turns[ch].order);
    ReleasedOrder(s1.turns[ch].order);
    AssembleKeepsOrder(env, Set(s1, ch, s1.turns[ch].(order := order)), ch, ready);
  }

  lemma {:induction false} ReplyTaken(env: Env, s: Rules, ch: Id)
    requires ch in s.turns && s.turns[ch].order.ahead == []
    ensures var (s', out) := TakeReply(env, s, ch);
            && ch in s'.turns && s'.turns[ch].reply == None && s'.turns[ch].order.ahead == []
            && s'.settings == s.settings && (forall a :: a in out ==> ProseOf(a, ch))
  {
    hide Assemble, D.Release, ProseOf, Restarted, Ensure, Set, Textual;
    Existing(s, ch);
    var c := s.turns[ch].(reply := None);
    var s2 := Set(s, ch, c);
    SetHas(s, ch, c);
    SetSettings(s, ch, c);
    if s.turns[ch].reply.Some? {
      var text := ReplyText(env, s.turns[ch].reply.value);
      DropIsText(s2, ch);
      DroppedAhead(s2, ch);
      TakesReply(env, DropHeld(s2, ch).0, ch, text);
      var s3 := DropHeld(s2, ch).0;
      var s5 := Assemble(env, Set(s3, ch, Restarted(env, s3.turns[ch], text)), ch, [D.Delta(text, 0, true)]).0;
      Existing(s5, ch);
      SetHas(s5, ch, Rewound(s5.turns[ch]));
      SetSettings(s5, ch, Rewound(s5.turns[ch]));
      DropSettings(s2, ch);
    }
  }

  lemma {:induction false} SetSettings(s: Rules, ch: Id, c: Turn)
    ensures Set(s, ch, c).settings == s.settings && Set(s, ch, c).whole == s.whole
  {
  }

  lemma {:induction false} DropSettings(s: Rules, ch: Id)
    requires ch in s.turns
    ensures DropHeld(s, ch).0.settings == s.settings && ch in DropHeld(s, ch).0.turns
    ensures DropHeld(s, ch).0.turns[ch].reply == s.turns[ch].reply
  {
    hide D.Release;
  }

  /** The reply assembled. */
  lemma {:induction false} TakesReply(env: Env, s: Rules, ch: Id, text: string)
    requires ch in s.turns && s.turns[ch].order.ahead == []
    ensures var r := Assemble(env, Set(s, ch, Restarted(env, s.turns[ch], text)), ch, [D.Delta(text, 0, true)]);
            && ch in r.0.turns && r.0.turns[ch].order.ahead == [] && r.0.settings == s.settings
            && r.0.turns[ch].reply == s.turns[ch].reply
            && (forall a :: a in r.1 ==> ProseOf(a, ch))
  {
    hide Assemble, ProseOf;
    var s1 := Set(s, ch, Restarted(env, s.turns[ch], text));
    AssembleIsText(env, s1, ch, [D.Delta(text, 0, true)]);
    AssembleKeepsOrder(env, s1, ch, [D.Delta(text, 0, true)]);
  }

  lemma {:induction false} EndingIs(env: Env, s: Rules, ch: Id)
    requires ch in s.turns
    ensures var (s', out) := Ending(env, s, ch);
            && ch in s'.turns && s'.turns[ch].ended && s'.turns[ch].released && !s'.turns[ch].batchCut
            && s'.turns[ch].heldProse == [] && s'.turns[ch].order == s.turns[ch].order
            && s'.turns[ch].reply == s.turns[ch].reply
            && (forall a :: a in out ==> ProseOf(a, ch))
            && (s.settings.summaries ==>
                  s'.turns[ch].settleArmed && out != [] && out[|out| - 1] == Arm(Settle(ch, s'.turns[ch].settleGen)))
  {
    hide FlushUpto, Kept, ProseOf, Textual;
    Existing(s, ch);
    var s2 := Set(s, ch, Ended(s.turns[ch]));
    var s3 := if s.settings.summaries then s2 else HoldKept(s2, ch);
    FlushedTurn(env, s3, ch, |s3.turns[ch].heldProse|);
    FlushIsText(env, s3, ch, 0);
    EndedStays(s3.turns[ch], FlushProse(env, s3, ch).0.turns[ch]);
    ArmIsText(FlushProse(env, s3, ch).0, ch);
  }

  lemma {:induction false} EndedStays(c: Turn, c': Turn)
    requires Textual(c, c')
    ensures c'.ended == c.ended && c'.released == c.released && c'.batchCut == c.batchCut && c'.reply == c.reply
  {
  }

  /** The end of a turn: the chime first and no other; nothing stays held, for its order either, whatever the mode;
      the reply is used up; with summaries the settle window is armed. */
  lemma {:induction false} EndSays(env: Env, s: Rules, ch: Id, turn: Option<string>, t: Option<int>)
    requires !IsStale(s, ch, turn, t)
    ensures var (s', out) := TurnEnd(env, s, ch, turn, t);
            && (if s.settings.muteLevel < 2 then out != [] && out[0] == Play(TurnDone) && NoPlay(out[1..])
                else NoPlay(out))
            && ch in s'.turns && s'.turns[ch].ended && s'.turns[ch].released && !s'.turns[ch].batchCut
            && s'.turns[ch].heldProse == [] && s'.turns[ch].order.ahead == [] && s'.turns[ch].reply == None
            && (s.settings.summaries ==>
                  s'.turns[ch].settleArmed && out != [] && out[|out| - 1] == Arm(Settle(ch, s'.turns[ch].settleGen)))
  {
    hide ReleaseGap, TakeReply, Ending, IsStale, ProseOf, Textual;
    var (s1, out1) := ReleaseGap(env, s, ch);
    GapIsText(env, s, ch);
    GapIsEmptied(env, s, ch);
    var (s2, out2) := TakeReply(env, s1, ch);
    ReplyTaken(env, s1, ch);
    var (s3, out3) := Ending(env, s2, ch);
    EndingIs(env, s2, ch);
    ProseNoPlay(out1 + out2 + out3, ch);
    var chime := if s.settings.muteLevel < 2 then [Play(TurnDone)] else [];
    var out := TurnEnd(env, s, ch, turn, t).1;
    assert out == chime + out1 + out2 + out3;
    assert chime + out1 + out2 + out3 == chime + (out1 + out2 + out3);
    assert s.settings.muteLevel < 2 ==> out[1..] == out1 + out2 + out3;
  }

  // ---- A decision and the deltas before it -----------------------------------

  /** Whatever becomes of a decision, what its channel held for its order was let go before it. */
  lemma {:induction false} AskLetsGo(env: Env, s: Rules, ch: Id, ask: Ask)
    ensures var s' := AskFor(env, s, ch, ask).0; ch in s'.turns && s'.turns[ch].order.ahead == []
  {
    hide ReleaseGap, TakeNumber, Decided, Asked, Item, AskChimes, KeptForLater;
    GapIsEmptied(env, s, ch);
    var s1 := ReleaseGap(env, s, ch).0;
    Existing(s1, ch);
    NumberEmpties(s1, ch, ask);
    DecidedOrder(env, TakeNumber(s1, ch, ask), ch, ask, Item(s1, s1.turns[ch], ask));
  }

  lemma {:induction false} NumberEmpties(s: Rules, ch: Id, ask: Ask)
    requires ch in s.turns && s.turns[ch].order.ahead == []
    ensures var s' := TakeNumber(s, ch, ask); ch in s'.turns && s'.turns[ch].order.ahead == []
  {
    hide DropHeld, DropsBefore, Shown, Hints;
    var s2 := Set(s, ch, Awaits(s.turns[ch], ask, !s.settings.questionStep));
    DroppedAhead(s2, ch);
  }

  lemma {:induction false} DecidedOrder(env: Env, s: Rules, ch: Id, ask: Ask, item: Decision)
    requires ch in s.turns
    ensures var s' := Decided(env, s, ch, ask, item).0; ch in s'.turns && s'.turns[ch].order == s.turns[ch].order
  {
    hide Blank, Enqueue, WaitLeadIn, ArmSettle;
    var c := s.turns[ch];
    var s2 := Set(s, ch, c.(pending := c.pending + [item]));
    WaitOrder(s2, ch, ask.leadInId);
    ArmOrder(s2, ch);
    ArmOrder(WaitLeadIn(s2, ch, ask.leadInId).0, ch);
    EnqueueOrder(env, s, ch, item);
    EnqueueOrder(env, Set(s, ch, c.(heldProse := [])), ch, item);
  }

  lemma {:induction false} WaitOrder(s: Rules, ch: Id, id: Option<string>)
    requires ch in s.turns
    ensures var s' := WaitLeadIn(s, ch, id).0; ch in s'.turns && s'.turns[ch].order == s.turns[ch].order
  {
  }

  lemma {:induction false} ArmOrder(s: Rules, ch: Id)
    requires ch in s.turns
    ensures var s' := ArmSettle(s, ch).0; ch in s'.turns && s'.turns[ch].order == s.turns[ch].order
  {
  }

  lemma {:induction false} EnqueueOrder(env: Env, s: Rules, ch: Id, item: Decision)
    requires ch in s.turns
    ensures var s' := Enqueue(env, s, ch, item, false).0; ch in s'.turns && s'.turns[ch].order == s.turns[ch].order
  {
    hide FlushUpto, SayDecision, Blank;
    FlushedTurn(env, s, ch, |s.turns[ch].heldProse|);
  }

  // ---- Mode `final` ----------------------------------------------------------

  /** A short reply after a long report is read after the report. */
  function ReplyWithReport(reply: (string, Option<string>)): string {
    match reply.1
    case Some(report) =>
      if Words(report) >= 60 && Words(reply.0) < 40 then report + "\n\n" + reply.0 else reply.0
    case None => reply.0
  }

  /** In mode `final` the end reads the reply (and the report before a short one), all of it, and of the text
      between the tools nothing; a late block of it is known then. */
  lemma {:induction false} FinalReadsTheReply(env: Env, s: Rules, ch: Id, turn: Option<string>, t: Option<int>)
    requires !IsStale(s, ch, turn, t) && s.settings.mode == Final && !s.settings.summaries
    requires ch in s.turns && s.turns[ch].reply.Some? && !s.turns[ch].skipReply && !s.turns[ch].released
    ensures var (s', out) := TurnEnd(env, s, ch, turn, t); var text := ReplyWithReport(s.turns[ch].reply.value);
            && Heard(out, ch)
               == ReadOfAll(env, env.feed([], D.Delta(text, 0, true)), s.settings.verbosity == SkipCode)
            && ch in s'.turns && s'.turns[ch].replied == Some(env.fold(text))
  {
    hide ReleaseGap, TakeReply, Ending, IsStale, Textual, Heard, ReadOfAll, Words, ProseOf, Chimed;
    GapIsQuiet(env, s, ch);
    GapIsText(env, s, ch);
    var s1 := ReleaseGap(env, s, ch).0;
    GapKeepsReply(s.turns[ch], s1.turns[ch]);
    ReplyIsHeard(env, s1, ch);
    var (s2, out2) := TakeReply(env, s1, ch);
    EndingIsQuiet(env, s2, ch);
    ChimeHeard(s, ch);
    HeardAdd(Chimed(s, TurnDone) + [] + out2, Ending(env, s2, ch).1, ch);
    HeardAdd(Chimed(s, TurnDone) + [], out2, ch);
    assert Chimed(s, TurnDone) + [] == Chimed(s, TurnDone);
    assert [] + Heard(out2, ch) + [] == Heard(out2, ch);
  }

  lemma {:induction false} ChimeHeard(s: Rules, ch: Id)
    ensures Heard(Chimed(s, TurnDone), ch) == []
  {
    assert [Play(TurnDone)][1..] == [];
  }

  lemma {:induction false} GapKeepsReply(c: Turn, c': Turn)
    requires Textual(c, c')
    ensures c'.reply == c.reply && c'.skipReply == c.skipReply
  {
  }

  lemma {:induction false} ReplyIsHeard(env: Env, s: Rules, ch: Id)
    requires s.settings.mode == Final && !s.settings.summaries
    requires ch in s.turns && s.turns[ch].reply.Some? && !s.turns[ch].skipReply
    ensures var (s', out) := TakeReply(env, s, ch); var text := ReplyWithReport(s.turns[ch].reply.value);
            && Heard(out, ch)
               == ReadOfAll(env, env.feed([], D.Delta(text, 0, true)), s.settings.verbosity == SkipCode)
            && ch in s'.turns && s'.turns[ch].heldProse == [] && s'.turns[ch].voiced == |s'.turns[ch].prose|
            && s'.turns[ch].replied == Some(env.fold(text)) && s'.settings == s.settings
  {
    hide Heard, ReadOfAll, Words, Assemble, D.Release, Set;
    var c := s.turns[ch];
    var text := ReplyText(env, c.reply.value);
    assert text == ReplyWithReport(c.reply.value);
    var s2 := Set(s, ch, c.(reply := None));
    SetHas(s, ch, c.(reply := None));
    SetSettings(s, ch, c.(reply := None));
    var s3 := DropHeld(s2, ch).0;
    DropIsText(s2, ch);
    DropSettings(s2, ch);
    var c4 := Restarted(env, s3.turns[ch], text);
    SetHas(s3, ch, c4);
    SetSettings(s3, ch, c4);
    ReleasedReads(env, Set(s3, ch, c4), ch, D.Delta(text, 0, true));
    var s5 := Assemble(env, Set(s3, ch, c4), ch, [D.Delta(text, 0, true)]).0;
    SetHas(s5, ch, Rewound(s5.turns[ch]));
    SetSettings(s5, ch, Rewound(s5.turns[ch]));
    hide Restarted;
  }

  lemma {:induction false} ReleasedReads(env: Env, s: Rules, ch: Id, x: D.Delta)
    requires !s.settings.summaries && ch in s.turns && s.turns[ch].released && s.turns[ch].heldProse == []
    requires s.turns[ch].voiced >= |s.turns[ch].prose| && s.turns[ch].fed == []
    ensures var (s', out) := Assemble(env, s, ch, [x]);
            && Heard(out, ch) == ReadOfAll(env, env.feed([], x), s.settings.verbosity == SkipCode)
            && ch in s'.turns && s'.turns[ch].heldProse == [] && s'.turns[ch].voiced == |s'.turns[ch].prose|
            && s'.turns[ch].replied == s.turns[ch].replied && s'.settings == s.settings
  {
    hide Heard, ReadOfAll, Hold, FeedDelta, Fed, Parts;
    var c := s.turns[ch];
    var skip := s.settings.verbosity == SkipCode;
    var d0 := Draft(c.(voiced := |c.prose|), [], None);
    assert Kept(c) == [];
    assert [x][1..] == [] && [x][0] == x;
    var d := FeedDelta(env, d0, x, skip);
    assert FeedDeltas(env, d0, [x], skip) == d;
    DeltaMade(env, d0, x, skip);
    DeltaFed(env, d0, x, skip);
    FedReleased(d0.c, d.c);
    NoTexts();
    assert [] + ReadOfAll(env, env.feed([], x), skip) == ReadOfAll(env, env.feed([], x), skip);
    HoldReads(env, s, ch, d.c.(voiced := |d.c.prose|), d.texts, d.breaks);
  }

  lemma {:induction false} NoTexts()
    ensures Parts([]) == []
  {
  }

  lemma {:induction false} FedReleased(c: Turn, c': Turn)
    requires Fed(c, c')
    ensures c'.released == c.released && c'.heldProse == c.heldProse && c'.replied == c.replied
  {
  }

  lemma {:induction false} HoldReads(env: Env, s: Rules, ch: Id, c: Turn, texts: seq<(string, bool)>,
      breaks: Option<nat>)
    requires ch in s.turns && c.released && c.heldProse == [] && c.voiced == |c.prose|
    ensures var (s', out) := Hold(env, s, ch, c, texts, breaks);
            && Heard(out, ch) == Parts(texts)
            && ch in s'.turns && s'.turns[ch].heldProse == [] && s'.turns[ch].voiced == |s'.turns[ch].prose|
            && s'.turns[ch].replied == c.replied && s'.settings == s.settings
  {
    hide SayProse, Set;
    var c1 := c.(heldProse := texts);
    assert c.heldProse + texts == texts && texts[..|texts|] == texts && texts[|texts|..] == [];
    HoldIs(env, s, ch, c, texts, breaks);
    SetHas(s, ch, c);
    SetHas(s, ch, c1);
    SetSettings(s, ch, c);
    SetSettings(s, ch, c1);
    hide Hold;
    FlushIsAll(env, Set(s, ch, c1), ch);
    NothingHeard(ch, texts);
    hide Parts, Heard;
    if texts == [] {
      NoTexts();
    }
  }

  lemma {:induction false} FlushIsAll(env: Env, s: Rules, ch: Id)
    requires ch in s.turns
    ensures var (s', out) := FlushProse(env, s, ch); var c := s.turns[ch];
            && Heard(out, ch) == Parts(c.heldProse) && ch in s'.turns && s'.settings == s.settings
            && s'.turns[ch] == c.(heldProse := [])
  {
    hide SayProse, Heard, Parts;
    var held := s.turns[ch].heldProse;
    assert held[..|held|] == held && held[|held|..] == [];
    ProseHeard(env, s, ch, held, ch);
  }

  lemma {:induction false} EndingIsQuiet(env: Env, s: Rules, ch: Id)
    requires !s.settings.summaries && ch in s.turns && s.turns[ch].heldProse == []
    requires s.turns[ch].voiced == |s.turns[ch].prose|
    ensures var (s', out) := Ending(env, s, ch);
            Heard(out, ch) == [] && ch in s'.turns && s'.turns[ch].replied == s.turns[ch].replied
  {
    assert Kept(s.turns[ch]) == [];
    assert [] + s.turns[ch].heldProse == [];
  }

  /** A block of one delta, with nothing held for its order, is ready at once. */
  lemma {:induction false} WholeBlock(o: D.Order, text: string)
    requires o.ahead == []
    ensures var (o', ready, gap) := D.Accept(o, D.Delta(text, 0, true));
            ready == [D.Delta(text, 0, true)] && !gap && o'.ahead == []
  {
    var x := D.Delta(text, 0, true);
    assert [] + [x] == [x] && [x] + [] == [x];
  }

  /** In mode `final`, before the reply, a lead-in takes the place of the text held before it, and waits with it for
      its decision. */
  lemma {:induction false} LeadInTakesThePlace(env: Env, s: Rules, ch: Id, turn: Option<string>, text: string,
      t: Option<int>)
    requires s.settings.mode == Final && !s.settings.summaries && ch in s.turns && !s.turns[ch].released
    requires s.turns[ch].voiced >= |s.turns[ch].prose| && !IsStale(s, ch, turn, t)
    requires s.turns[ch].leadIn != Some(env.fold(text)) && !s.turns[ch].ended
    ensures var (s', out) := ReadLeadIn(env, s, ch, turn, text, t); var c := s.turns[ch];
            && out == [] && ch in s'.turns
            && Parts(s'.turns[ch].heldProse)
               == ReadOfAll(env, env.feed(c.fed, D.Delta(text, 0, true)), s.settings.verbosity == SkipCode)
            && s'.turns[ch].leadIn == Some(env.fold(text)) && s'.turns[ch].skipReply == c.skipReply
  {
    hide D.Release, D.Accept, Assemble, ReadOfAll, Parts;
    var x, c := D.Delta(text, 0, true), s.turns[ch];
    DroppedAhead(s, ch);
    DropIsText(s, ch);
    DropSettings(s, ch);
    var s0 := DropHeld(s, ch).0;
    DropTexts(s, ch);
    Existing(s0, ch);
    var c1 := s0.turns[ch].(skipReply := false);
    var s1 := Set(s0, ch, c1);
    hide DropHeld;
    SetHas(s0, ch, c1);
    SetSettings(s0, ch, c1);
    hide Set, IsStale, TextOnly;
    StaleSame(s, s1, ch, turn, t);
    StreamedWhole(env, s1, ch, turn, text, t);
    var (s2, out) := Stream(env, s1, ch, turn, x, t);
    hide Stream;
    Existing(s2, ch);
    SetHas(s2, ch, Led(s2.turns[ch], c.skipReply, env.fold(text)));
  }

  lemma {:induction false} DropTexts(s: Rules, ch: Id)
    requires ch in s.turns
    ensures var c, c' := s.turns[ch], DropHeld(s, ch).0.turns[ch];
            c' == c.(heldProse := [], order := c'.order)
  {
    hide D.Release;
  }

  lemma {:induction false} StaleSame(s: Rules, s': Rules, ch: Id, turn: Option<string>, t: Option<int>)
    requires ch in s.turns && ch in s'.turns
    requires s'.turns[ch].t == s.turns[ch].t && s'.turns[ch].retired == s.turns[ch].retired
    ensures IsStale(s', ch, turn, t) <==> IsStale(s, ch, turn, t)
  {
  }

  lemma {:induction false} StreamedWhole(env: Env, s: Rules, ch: Id, turn: Option<string>, text: string,
      t: Option<int>)
    requires s.settings.mode == Final && !s.settings.summaries && ch in s.turns && !s.turns[ch].released
    requires s.turns[ch].voiced >= |s.turns[ch].prose| && !IsStale(s, ch, turn, t) && !s.turns[ch].skipReply
    requires s.turns[ch].leadIn != Some(env.fold(text)) && !s.turns[ch].ended
    requires s.turns[ch].order.ahead == [] && s.turns[ch].heldProse == []
    ensures var (s', out) := Stream(env, s, ch, turn, D.Delta(text, 0, true), t);
            && out == [] && ch in s'.turns
            && Parts(s'.turns[ch].heldProse)
               == ReadOfAll(env, env.feed(s.turns[ch].fed, D.Delta(text, 0, true)), s.settings.verbosity == SkipCode)
  {
    hide D.Accept, Assemble, ReadOfAll, Parts, IsStale, Set;
    var x := D.Delta(text, 0, true);
    Existing(s, ch);
    var c := Noted(env, s.turns[ch], x);
    var s1 := Set(s, ch, c);
    SetHas(s, ch, c);
    SetSettings(s, ch, c);
    Existing(s1, ch);
    WholeBlock(c.order, text);
    var c2 := c.(order := D.Accept(c.order, x).0);
    var s2 := Set(s1, ch, c2);
    SetHas(s1, ch, c2);
    SetSettings(s1, ch, c2);
    QuietTexts(env, s2, ch, x);
    NothingBefore(Assemble(env, s2, ch, [x]).1);
  }

  lemma {:induction false} QuietTexts(env: Env, s: Rules, ch: Id, x: D.Delta)
    requires s.settings.mode == Final && !s.settings.summaries && ch in s.turns && !s.turns[ch].released
    requires s.turns[ch].voiced >= |s.turns[ch].prose| && s.turns[ch].heldProse == []
    ensures var (s', out) := Assemble(env, s, ch, [x]);
            && out == [] && ch in s'.turns
            && Parts(s'.turns[ch].heldProse)
               == ReadOfAll(env, env.feed(s.turns[ch].fed, x), s.settings.verbosity == SkipCode)
  {
    hide ReadOfAll, Hold, FeedDelta, Fed, Parts;
    var c := s.turns[ch];
    var skip := s.settings.verbosity == SkipCode;
    var d0 := Draft(c.(voiced := |c.prose|), [], None);
    assert Kept(c) == [];
    assert [x][1..] == [] && [x][0] == x;
    var d := FeedDelta(env, d0, x, skip);
    assert FeedDeltas(env, d0, [x], skip) == d;
    DeltaMade(env, d0, x, skip);
    DeltaFed(env, d0, x, skip);
    FedReleased(d0.c, d.c);
    NoTexts();
    assert [] + ReadOfAll(env, env.feed(c.fed, x), skip) == ReadOfAll(env, env.feed(c.fed, x), skip);
    HoldKeeps(env, s, ch, d.c.(voiced := |d.c.prose|), d.texts, d.breaks);
  }

  lemma {:induction false} HoldKeeps(env: Env, s: Rules, ch: Id, c: Turn, texts: seq<(string, bool)>,
      breaks: Option<nat>)
    requires s.settings.mode == Final && !c.released && c.heldProse == []
    ensures var (s', out) := Hold(env, s, ch, c, texts, breaks);
            out == [] && ch in s'.turns && s'.turns[ch].heldProse == texts
  {
    hide FlushProse, FlushUpto;
    assert c.heldProse + texts == texts;
  }

  // ---- Words -----------------------------------------------------------------

  /** Words are counted as one each, apart by white space. */
  lemma {:induction false} WordsAdd(a: string, sep: char, b: string)
    requires White(sep)
    ensures Words(a + [sep] + b) == Words(a) + Words(b)
    decreases |a|
  {
    var all := a + [sep] + b;
    if a == [] {
      assert all[1..] == b;
    } else {
      assert all[1..] == a[1..] + [sep] + b;
      assert all[1] == (if |a| == 1 then sep else a[1]);
      WordsAdd(a[1..], sep, b);
    }
  }

  lemma {:induction false} OneWord(a: string)
    requires a != "" && forall i :: 0 <= i < |a| ==> !White(a[i])
    ensures Words(a) == 1
  {
    if |a| > 1 {
      OneWord(a[1..]);
    } else {
      assert a[1..] == "";
    }
  }

  // ---- A tool ----------------------------------------------------------------

  /** A tool announced while prose is read as it comes (not at the end of the reply, or only its final part) comes
      after all the prose before it. */
  lemma {:induction false} ToolComesAfterProse(env: Env, s: Rules, ch: Id, name: string, summary: string)
    requires s.settings.verbosity == Everything && !Was(s, ch).skipReply
    ensures var (s', out) := ToolRuns(env, s, ch, name, summary);
            && ch in s'.turns
            && (s.settings.mode == Immediate || s.settings.mode == Queue ==>
                  s'.turns[ch].heldProse == [] && s'.turns[ch].order.ahead == [])
            && (s.settings.mode == Done || s.settings.mode == Final ==>
                  |out| == 1 && s'.turns[ch].heldProse == Was(s, ch).heldProse)
  {
    hide ReleaseGap, FlushUpto, Say, ToolText, Blank, Aloud;
    ToolTextIs(name, summary);
    SayIs(env, s, ch, ToolText(name, summary), None, None, Tool, []);
    var s1 := Ensure(s, ch);
    var c := Settled(s1.turns[ch]);
    var s2 := Set(s1, ch, c);
    var s3 := if s.whole then s2 else Set(s2, ch, c.(released := true));
    GapIsEmptied(env, s3, ch);
    var s4 := ReleaseGap(env, s3, ch).0;
    FlushedTurn(env, s4, ch, |s4.turns[ch].heldProse|);
  }
}
