/** The rules as the object the agent keeps: every message and timer updates its fields step by step. */
module RuleBooks {
  import opened Options
  import opened Wordings
  import D = DeltaOrders
  import opened RulesModel
  import M = RulesModel
  import RulesFrames

  class RuleBook {
    const env: Env
    var settings: Settings
    var turns: map<Id, Turn>
    var nextGen: nat
    var nextDecision: nat
    var nextToken: nat
    var whole: bool
    var nextSeq: nat
    var serveSeq: nat
    var parked: map<nat, Release>
    var watched: map<nat, Release>

    function View(): Rules
      reads this
    {
      Rules(settings, turns, nextGen, nextDecision, nextToken, whole, nextSeq, serveSeq, parked, watched)
    }

    constructor (env: Env, settings: Settings)
      ensures this.env == env && View() == Start(settings)
    {
      this.env, this.settings := env, settings;
      turns, nextGen, nextDecision, nextToken, whole := map[], 0, 0, 0, false;
      nextSeq, serveSeq, parked, watched := 0, 0, map[], map[];
    }

    method Gen() returns (gen: nat)
      modifies this`nextGen
      ensures View() == Renamed(old(View())) && gen == nextGen
    {
      nextGen := nextGen + 1;
      gen := nextGen;
    }

    /** The turn state of `ch`, made if there is none. */
    method TurnOf(ch: Id) returns (c: Turn)
      modifies this`turns, this`nextGen
      ensures View() == Ensure(old(View()), ch) && ch in turns && c == turns[ch]
    {
      if ch !in turns {
        var gen := Gen();
        turns := turns[ch := Begun(gen)];
      }
      c := turns[ch];
    }

    // ---- Saying --------------------------------------------------------------

    /** Several texts, one after the other. */
    method SayTexts(ch: Id, head: string, texts: seq<string>) returns (out: seq<Action>)
      ensures out == SayEach(env, View(), ch, head, texts)
    {
      hide Say;
      out := [];
      for i := 0 to |texts|
        invariant out + SayEach(env, View(), ch, head, texts[i..]) == SayEach(env, View(), ch, head, texts)
      {
        var said := Say(env, View(), ch, head + texts[i], None, None, Prose, [texts[i]]);
        assert texts[i..][1..] == texts[i + 1..];
        Regroup(out, said, SayEach(env, View(), ch, head, texts[i + 1..]));
        out := out + said;
      }
    }

    static lemma {:induction false} Regroup(a: seq<Action>, b: seq<Action>, c: seq<Action>)
      ensures a + (b + c) == (a + b) + c
    {
    }

    /** Held prose: one text of all of it when whole messages are sent, else one for each chunk. */
    method SayHeld(ch: Id, held: seq<(string, bool)>) returns (out: seq<Action>)
      ensures out == SayProse(env, View(), ch, held)
    {
      hide Say, SayEach;
      if held == [] {
        out := [];
      } else if !whole {
        out := SayTexts(ch, MARK, Parts(held));
      } else {
        var text := MARK;
        for i := 0 to |held|
          invariant |text| >= |MARK|
          invariant Joined(text, |text| == |MARK|, held[i..]) == Joined(MARK, true, held)
        {
          var (t, para) := held[i];
          assert held[i..][1..] == held[i + 1..];
          if |text| > |MARK| {
            text := text + (if para then "\n\n" else " ");
          } else {
            assert text + "" == text;
          }
          text := text + t;
        }
        out := Say(env, View(), ch, text, None, None, Prose, Parts(held));
      }
    }

    method SayAll(ch: Id, ds: seq<Decision>) returns (out: seq<Action>)
      ensures out == SayDecisions(env, View(), ch, ds)
    {
      hide Say;
      out := [];
      for i := 0 to |ds|
        invariant out + SayDecisions(env, View(), ch, ds[i..]) == SayDecisions(env, View(), ch, ds)
      {
        var said := SayDecision(env, View(), ch, ds[i]);
        assert ds[i..][1..] == ds[i + 1..];
        Regroup(out, said, SayDecisions(env, View(), ch, ds[i + 1..]));
        out := out + said;
      }
    }

    /** Drop the prose held, and the deltas held for their order; how much it was. */
    method DropHeld(ch: Id) returns (n: nat)
      modifies this
      ensures (View(), n) == M.DropHeld(old(View()), ch)
    {
      hide Ensure;
      var c := TurnOf(ch);
      n := |c.heldProse|;
      var order := new D.DeltaOrder(c.order);
      var deltas := order.ReleaseHeld();
      turns := turns[ch := c.(heldProse := [], order := order.View())];
      n := n + |deltas|;
    }

    /** The prose kept for a summary goes before the held prose; how much it was. */
    method HoldKept(ch: Id) returns (n: nat)
      modifies this
      ensures View() == M.HoldKept(old(View()), ch) && n == |Kept(Ensure(old(View()), ch).turns[ch])|
    {
      hide Ensure;
      var c := TurnOf(ch);
      var kept := Kept(c);
      turns := turns[ch := c.(heldProse := kept + c.heldProse, voiced := |c.prose|)];
      n := |kept|;
    }

    /** Speak the first `n` chunks of the held prose. */
    method FlushUpto(ch: Id, n: nat) returns (out: seq<Action>)
      modifies this
      ensures (View(), out) == M.FlushUpto(env, old(View()), ch, n)
    {
      hide Ensure, SayProse;
      var c := TurnOf(ch);
      var k := if n < |c.heldProse| then n else |c.heldProse|;
      out := SayHeld(ch, c.heldProse[..k]);
      turns := turns[ch := c.(heldProse := c.heldProse[k..])];
    }

    method FlushProse(ch: Id) returns (out: seq<Action>)
      modifies this
      ensures (View(), out) == M.FlushProse(env, old(View()), ch)
    {
      hide M.FlushUpto;
      out := FlushUpto(ch, if ch in turns then |turns[ch].heldProse| else 0);
    }

    // ---- Assembling ----------------------------------------------------------

    /** Feed the assembler: the turn after it, the texts ready, and how many came before the last paragraph end. */
    static method FeedAll(env: Env, first: Turn, kept: seq<(string, bool)>, deltas: seq<D.Delta>, skipCode: bool)
      returns (c: Turn, texts: seq<(string, bool)>, breaks: Option<nat>)
      ensures Draft(c, texts, breaks) == FeedDeltas(env, Draft(first, kept, None), deltas, skipCode)
    {
      hide FeedChunk, Numbering, Closing;
      c, texts, breaks := first, kept, None;
      for i := 0 to |deltas|
        invariant FeedDeltas(env, Draft(c, texts, breaks), deltas[i..], skipCode)
            == FeedDeltas(env, Draft(first, kept, None), deltas, skipCode)
      {
        ghost var d := Draft(c, texts, breaks);
        var chunks := env.feed(c.fed, deltas[i]);
        c := Numbering(c, deltas[i]);
        c, texts, breaks := FeedOne(env, c, texts, breaks, chunks, skipCode);
        var closed := Closing(Draft(c, texts, breaks), deltas[i].fin);
        c, texts, breaks := closed.c, closed.texts, closed.breaks;
        assert Draft(c, texts, breaks) == FeedDelta(env, d, deltas[i], skipCode);
        assert deltas[i..][1..] == deltas[i + 1..];
      }
    }

    static method FeedOne(env: Env, first: Turn, had: seq<(string, bool)>, broke: Option<nat>, chunks: seq<Chunk>,
        skipCode: bool)
      returns (c: Turn, texts: seq<(string, bool)>, breaks: Option<nat>)
      ensures Draft(c, texts, breaks) == FeedChunks(env, Draft(first, had, broke), chunks, skipCode)
    {
      c, texts, breaks := first, had, broke;
      for i := 0 to |chunks|
        invariant FeedChunks(env, Draft(c, texts, breaks), chunks[i..], skipCode)
            == FeedChunks(env, Draft(first, had, broke), chunks, skipCode)
      {
        ghost var d := Draft(c, texts, breaks);
        assert chunks[i..][1..] == chunks[i + 1..];
        c, texts, breaks := TakeChunk(env, c, texts, breaks, chunks[i], skipCode);
        assert Draft(c, texts, breaks) == FeedChunk(env, d, chunks[i], skipCode);
        hide FeedChunk;
      }
    }

    static method TakeChunk(env: Env, first: Turn, had: seq<(string, bool)>, broke: Option<nat>, chunk: Chunk,
        skipCode: bool)
      returns (c: Turn, texts: seq<(string, bool)>, breaks: Option<nat>)
      ensures Draft(c, texts, breaks) == FeedChunk(env, Draft(first, had, broke), chunk, skipCode)
    {
      c, texts, breaks := first, had, broke;
      match chunk
      case Text(t) =>
        texts := texts + [(t, c.newPara)];
        c := c.(prose := c.prose + [t], newPara := false);
      case Code(summary, lines, end) =>
        if skipCode {
          c := c.(prose := c.prose + [summary]);
        } else {
          texts := texts + [(env.codeBlock(summary, lines, end), c.newPara)];
          c := c.(prose := c.prose + [summary], newPara := false);
        }
      case ParagraphBreak =>
        c := c.(newPara := true);
        breaks := Some(|texts|);
    }

    method ArmSettle(ch: Id) returns (out: seq<Action>)
      modifies this
      ensures (View(), out) == M.ArmSettle(old(View()), ch)
    {
      hide Ensure;
      var gen := Gen();
      var c := TurnOf(ch);
      turns := turns[ch := c.(settleGen := gen, settleArmed := true)];
      out := [Arm(Settle(ch, gen))];
    }

    /** Assemble deltas (in order) into chunks and speak or hold them as the read mode says. */
    method Assemble(ch: Id, deltas: seq<D.Delta>) returns (out: seq<Action>)
      modifies this
      ensures (View(), out) == M.Assemble(env, old(View()), ch, deltas)
    {
      hide Ensure, FeedDeltas, M.ArmSettle, Ready, M.FlushProse, M.FlushUpto, Kept;
      out := [];
      if deltas == [] {
        return;
      }
      ghost var s := View();
      var first := TurnOf(ch);
      SettingsStay(s, ch);
      var skipCode := settings.verbosity == SkipCode;
      if settings.summaries {
        var c, _, _ := FeedAll(env, first, [], deltas, skipCode);
        turns := turns[ch := c];
        if c.settleArmed {
          out := ArmSettle(ch);
        }
      } else {
        var c, texts, breaks := FeedAll(env, first.(voiced := |first.prose|), Kept(first), deltas, skipCode);
        out := HoldTexts(ch, c.(voiced := |c.prose|), texts, breaks);
      }
    }

    static lemma {:induction false} SettingsStay(s: Rules, ch: Id)
      ensures Ensure(s, ch).settings == s.settings && Ensure(s, ch).whole == s.whole
    {
    }

    method HoldTexts(ch: Id, turn: Turn, texts: seq<(string, bool)>, breaks: Option<nat>) returns (out: seq<Action>)
      modifies this
      ensures (View(), out) == Hold(env, old(View()), ch, turn, texts, breaks)
    {
      hide Ready, M.FlushProse, M.FlushUpto;
      out := [];
      var c := turn;
      var paraEnd := whole && settings.mode == Immediate && breaks.Some?;
      if texts == [] && !paraEnd {
        turns := turns[ch := c];
        return;
      }
      var before := |c.heldProse|;
      c := c.(heldProse := c.heldProse + texts);
      var ready := Ready(View(), c);
      turns := turns[ch := c];
      var upto := before + (if breaks.Some? then breaks.value else 0);
      if ready {
        out := FlushProse(ch);
      } else if paraEnd && upto > 0 {
        out := FlushUpto(ch, upto);
      }
    }

    /** Let go of the deltas held for their order. */
    method ReleaseGap(ch: Id) returns (out: seq<Action>)
      modifies this
      ensures (View(), out) == M.ReleaseGap(env, old(View()), ch)
    {
      hide Ensure, M.Assemble, D.Release;
      var c := TurnOf(ch);
      var order := new D.DeltaOrder(c.order);
      var ready := order.ReleaseHeld();
      turns := turns[ch := c.(order := order.View())];
      out := Assemble(ch, ready);
    }

    // ---- Messages ------------------------------------------------------------

    /** A delta of streamed prose. */
    method Stream(ch: Id, turn: Option<string>, x: D.Delta, t: Option<int>) returns (out: seq<Action>, stale: bool)
      modifies this
      ensures (View(), out) == M.Stream(env, old(View()), ch, turn, x, t) && stale == IsStale(old(View()), ch, turn, t)
    {
      hide Ensure, IsStale, Noted, LeadInAgain, ReplyAgain, M.Ordered;
      out, stale := [], IsStale(View(), ch, turn, t);
      if stale {
        return;
      }
      var c := TurnOf(ch);
      c := Noted(env, c, x);
      if LeadInAgain(env, c, x) {
        turns := turns[ch := c.(leadIn := None)];
      } else if ReplyAgain(env, c, x) {
        turns := turns[ch := c];
      } else if c.skipReply {
        turns := turns[ch := c.(fed := c.fed + [x])];
      } else {
        turns := turns[ch := c];
        out := Ordered(ch, x);
      }
    }

    /** The block's deltas in index order; the next block lets go of what the last one held. */
    method Ordered(ch: Id, x: D.Delta) returns (out: seq<Action>)
      requires ch in turns
      modifies this
      ensures (View(), out) == M.Ordered(env, old(View()), ch, x)
    {
      hide M.ReleaseGap, M.Accepted;
      out := [];
      if x.index == 0 && turns[ch].order.next > 0 && turns[ch].order.ahead != [] {
        out := ReleaseGap(ch);
      }
      var more := Accepted(ch, x);
      out := out + more;
    }

    method Accepted(ch: Id, x: D.Delta) returns (out: seq<Action>)
      modifies this
      ensures (View(), out) == M.Accepted(env, old(View()), ch, x)
    {
      hide Ensure, M.Assemble, D.Accept;
      out := [];
      var c := TurnOf(ch);
      var order := new D.DeltaOrder(c.order);
      var ready, gap := order.Take(x);
      if gap {
        var gen := Gen();
        order.gen := gen;
        out := [Arm(Gap(ch, gen))];
      }
      turns := turns[ch := c.(order := order.View())];
      var more := Assemble(ch, ready);
      assert [] + more == more;
      out := out + more;
    }

    method EnqueueAll(ch: Id, items: seq<Decision>, digesting: bool) returns (out: seq<Action>)
      modifies this
      ensures (View(), out) == M.EnqueueAll(env, old(View()), ch, items, digesting)
    {
      hide M.Enqueue;
      out := [];
      ghost var s := View();
      assert items[0..] == items && [] + M.EnqueueAll(env, s, ch, items, digesting).1
          == M.EnqueueAll(env, s, ch, items, digesting).1;
      for i := 0 to |items|
        invariant var (s', more) := M.EnqueueAll(env, View(), ch, items[i..], digesting);
                  (s', out + more) == M.EnqueueAll(env, s, ch, items, digesting)
      {
        assert items[i..][1..] == items[i + 1..];
        var first := Enqueue(ch, items[i], digesting);
        Regroup(out, first, M.EnqueueAll(env, View(), ch, items[i + 1..], digesting).1);
        out := out + first;
      }
      assert items[|items|..] == [] && out + [] == out;
    }

    /** Speak a decision now, or hold it (capped) behind the summary in flight. */
    method Enqueue(ch: Id, item: Decision, digesting: bool) returns (out: seq<Action>)
      modifies this
      ensures (View(), out) == M.Enqueue(env, old(View()), ch, item, digesting)
    {
      hide Ensure, M.FlushProse, Say;
      ghost var s := View();
      var c := TurnOf(ch);
      if digesting || c.inflight > 0 {
        var items := if c.held.Some? then c.held.value.1 else [];
        turns := turns[ch := c.(held := Some((c.lastToken, items + [item])))];
        out := [Arm(HoldCap(ch, item.id))];
      } else {
        var said := SayDecision(env, View(), ch, item);
        out := FlushProse(ch);
        out := out + said;
      }
    }

    /** The decisions that waited for a late lead-in go, in order. */
    method ReleaseWait(ch: Id) returns (out: seq<Action>)
      modifies this
      ensures (View(), out) == M.ReleaseWait(env, old(View()), ch)
    {
      hide Ensure, M.EnqueueAll, M.ArmSettle;
      ghost var s := View();
      var c := TurnOf(ch);
      SettingsStay(s, ch);
      c := c.(wait := None);
      turns := turns[ch := c];
      if settings.summaries {
        out := ArmSettle(ch);
      } else {
        turns := turns[ch := c.(pending := [])];
        out := EnqueueAll(ch, c.pending, false);
      }
    }

    method WaitLeadIn(ch: Id, id: Option<string>) returns (out: seq<Action>)
      modifies this
      ensures (View(), out) == M.WaitLeadIn(old(View()), ch, id)
    {
      hide Ensure;
      out := [];
      var c := TurnOf(ch);
      if c.wait == None {
        var gen := Gen();
        turns := turns[ch := c.(wait := Some(Wait(gen, id, [])))];
        out := [Arm(LeadIn(ch, gen))];
      }
    }

    /** A question's lead-in, sent with it (`id` is `None`) or after it. */
    method TakeLeadIn(ch: Id, turn: Option<string>, text: string, id: Option<string>, t: Option<int>)
      returns (out: seq<Action>, stale: bool)
      modifies this
      ensures (View(), out) == M.TakeLeadIn(env, old(View()), ch, turn, text, id, t)
          && stale == IsStale(old(View()), ch, turn, t)
    {
      hide IsStale, M.ReadLeadIn, M.ReleaseWait;
      out, stale := [], IsStale(View(), ch, turn, t);
      if stale {
        return;
      }
      var wait := if ch in turns then turns[ch].wait else None;
      var waiting := wait.Some? && (id == None || wait.value.id == id);
      var seen := wait.Some? && env.fold(text) in wait.value.seen;
      if id.Some? && !waiting {
        return;
      }
      if !(seen && env.fold(text) != "") && !Blank(text) {
        out := ReadLeadIn(ch, turn, text, t);
      }
      if waiting {
        var more := ReleaseWait(ch);
        out := out + more;
      }
    }

    /** It is read even in a flushed reply. Its own check for an earlier turn never fails here. */
    method ReadLeadIn(ch: Id, turn: Option<string>, text: string, t: Option<int>) returns (out: seq<Action>)
      requires !IsStale(View(), ch, turn, t)
      modifies this
      ensures (View(), out) == M.ReadLeadIn(env, old(View()), ch, turn, text, t)
    {
      hide Ensure, M.DropHeld, M.Stream, IsStale;
      StillOfThisTurn(View(), ch, turn, t);
      if settings.mode == Final {
        var _ := DropHeld(ch);
      }
      var c := TurnOf(ch);
      turns := turns[ch := c.(skipReply := false)];
      var stale;
      out, stale := Stream(ch, turn, D.Delta(text, 0, true), t);
      assert !stale;
      var c1 := TurnOf(ch);
      turns := turns[ch := c1.(skipReply := c.skipReply, leadIn := Some(env.fold(text)))];
    }

    static lemma {:induction false} StillOfThisTurn(s: Rules, ch: Id, turn: Option<string>, t: Option<int>)
      requires !IsStale(s, ch, turn, t)
      ensures var s1 := Ensure(s, ch); !IsStale(Set(s1, ch, s1.turns[ch].(skipReply := false)), ch, turn, t)
      ensures var s2 := Ensure(M.DropHeld(s, ch).0, ch);
          !IsStale(Set(s2, ch, s2.turns[ch].(skipReply := false)), ch, turn, t)
    {
      hide D.Release;
    }

    /** The final reply of the turn, and the text before it. */
    method Reply(ch: Id, turn: Option<string>, text: string, before: Option<string>, t: Option<int>)
        returns (stale: bool)
      modifies this
      ensures View() == M.Reply(env, old(View()), ch, turn, text, before, t)
          && stale == IsStale(old(View()), ch, turn, t)
    {
      hide IsStale, Ensure;
      stale := IsStale(View(), ch, turn, t);
      if stale {
        return;
      }
      var b := if before.Some? && Trim(before.value) != "" then Some(Trim(before.value)) else None;
      var c := TurnOf(ch);
      turns := turns[ch := c.(reply := if Trim(text) == "" then None else Some((Trim(text), b)))];
    }

    /** Final mode at the turn end: the reply is assembled in place of the text between tools. */
    method TakeReply(ch: Id) returns (out: seq<Action>)
      modifies this
      ensures (View(), out) == M.TakeReply(env, old(View()), ch)
    {
      hide Ensure, M.DropHeld, M.Assemble, ReplyText, Restarted, Rewound;
      ghost var s := View();
      out := [];
      var c := TurnOf(ch);
      SettingsStay(s, ch);
      var reply := c.reply;
      turns := turns[ch := c.(reply := None)];
      if reply == None || settings.mode != Final || c.skipReply {
        return;
      }
      var text := ReplyText(env, reply.value);
      DropHas(View(), ch);
      var _ := DropHeld(ch);
      turns := turns[ch := Restarted(env, turns[ch], text)];
      out := Assemble(ch, [D.Delta(text, 0, true)]);
      var last := TurnOf(ch);
      turns := turns[ch := Rewound(last)];
    }

    static lemma {:induction false} DropHas(s: Rules, ch: Id)
      ensures ch in M.DropHeld(s, ch).0.turns
    {
      hide D.Release;
    }

    /** A new turn: the old one's text, summary work and decisions are dropped. */
    method TurnStart(ch: Id, turn: Option<string>, t: Option<int>) returns (out: seq<Action>, stale: bool)
      modifies this
      ensures (View(), out) == M.TurnStart(old(View()), ch, turn, t) && stale == IsStale(old(View()), ch, turn, t)
    {
      hide IsStale, M.DropHeld, Waiting, Cancelling, Anew, Cancel;
      out, stale := [], IsStale(View(), ch, turn, t);
      if stale {
        return;
      }
      var gen := Gen();
      var settle := Gen();
      DropHas(View(), ch);
      var _ := DropHeld(ch);
      var c := turns[ch];
      out := Cancelling(ch, Waiting(c)) + [Wipe(ch, true)];
      c := StartTurn(c, turn, t);
      turns := turns[ch := Cancel(c, gen, settle)];
    }

    /** The turn as a new one, the summary work not yet cancelled. */
    static method StartTurn(turn: Turn, id: Option<string>, t: Option<int>) returns (c: Turn)
      ensures c == Anew(turn, id, t)
    {
      hide Retire;
      c := turn.(fed := []);
      if t.Some? {
        c := c.(t := t);
      }
      c := c.(retired := Retire(turn, id), current := id);
      c := c.(awaiting := false, questions := None, leadIn := None, reply := None, replied := None);
      c := c.(released := false, ended := false, skipReply := false, newPara := false, lastIndex := None);
      c := c.(order := c.order.(next := 0, skipped := {}), prose := [], voiced := 0);
    }

    /** The agent finished its turn. */
    method TurnEnd(ch: Id, turn: Option<string>, t: Option<int>) returns (out: seq<Action>, stale: bool)
      modifies this
      ensures (View(), out) == M.TurnEnd(env, old(View()), ch, turn, t) && stale == IsStale(old(View()), ch, turn, t)
    {
      hide IsStale, M.ReleaseGap, M.TakeReply, M.Ending, Chimed;
      out, stale := [], IsStale(View(), ch, turn, t);
      if stale {
        return;
      }
      out := Chimed(View(), TurnDone);
      var deltas := ReleaseGap(ch);
      out := out + deltas;
      var reply := TakeReply(ch);
      out := out + reply;
      var rest := Ending(ch);
      out := out + rest;
    }

    method Ending(ch: Id) returns (out: seq<Action>)
      modifies this
      ensures (View(), out) == M.Ending(env, old(View()), ch)
    {
      hide Ensure, M.HoldKept, M.FlushProse, M.ArmSettle, Kept;
      ghost var s := View();
      var c := TurnOf(ch);
      SettingsStay(s, ch);
      turns := turns[ch := c.(released := true, ended := true, batchCut := false)];
      var summaries := settings.summaries;
      if !summaries {
        var _ := HoldKept(ch);
      }
      out := FlushProse(ch);
      if summaries {
        var armed := ArmSettle(ch);
        out := out + armed;
      }
    }

    // ---- Decisions -----------------------------------------------------------

    /** A decision blocks the agent. */
    method AskFor(ch: Id, ask: Ask) returns (out: seq<Action>)
      modifies this
      ensures (View(), out) == M.AskFor(env, old(View()), ch, ask)
    {
      hide Ensure, M.ReleaseGap, Asked, KeptForLater, Item, AskChimes, M.Decided, M.TakeNumber;
      GapSettings(env, View(), ch);
      out := ReleaseGap(ch);
      SettingsStay(View(), ch);
      var c := TurnOf(ch);
      if !Asked(View(), c, ask) {
        if !KeptForLater(c, ask, !settings.questionStep) {
          turns := turns[ch := c.(awaiting := false)];
        }
        return;
      }
      out := out + AskChimes(View(), c, ask);
      var item := Item(View(), c, ask);
      TakeNumber(ch, ask);
      var more := Decided(ch, ask, item);
      out := out + more;
    }

    static lemma {:induction false} GapSettings(env: Env, s: Rules, ch: Id)
      ensures M.ReleaseGap(env, s, ch).0.settings == s.settings
    {
      hide M.ReleaseGap, RulesFrames.TurnStep, RulesFrames.AllPlain;
      RulesFrames.LightReleaseGap(env, s, ch);
    }

    /** The turn and the number taken, before the decision goes anywhere. */
    method TakeNumber(ch: Id, ask: Ask)
      modifies this
      ensures View() == M.TakeNumber(old(View()), ch, ask)
    {
      hide Ensure, Awaits, DropsBefore, Hints, M.DropHeld;
      ghost var s := View();
      var c := TurnOf(ch);
      SettingsStay(s, ch);
      SameSettings(s, View(), c, ask);
      var drops := DropsBefore(View(), c, ask);
      turns := turns[ch := Awaits(c, ask, !settings.questionStep)];
      if drops {
        DropSettings(View(), ch);
        var _ := DropHeld(ch);
      }
      SettingsStay(View(), ch);
      var c1 := TurnOf(ch);
      SameSettings(s, View(), c1, ask);
      turns := turns[ch := c1.(hinted := Hints(c1, ask, View()))];
      nextDecision := nextDecision + 1;
    }

    static lemma {:induction false} SameSettings(s: Rules, s1: Rules, c: Turn, ask: Ask)
      requires s1.settings == s.settings
      ensures DropsBefore(s1, c, ask) == DropsBefore(s, c, ask) && Hints(c, ask, s1) == Hints(c, ask, s)
    {
    }

    /** Where a decision goes: behind the settle window, behind its lead-in, behind a summary, or now. */
    method Decided(ch: Id, ask: Ask, item: Decision) returns (out: seq<Action>)
      modifies this
      ensures (View(), out) == M.Decided(env, old(View()), ch, ask, item)
    {
      hide Ensure, M.WaitLeadIn, M.ArmSettle, M.Enqueue;
      ghost var s := View();
      out := [];
      var c := TurnOf(ch);
      SettingsStay(s, ch);
      if settings.summaries {
        turns := turns[ch := c.(pending := c.pending + [item])];
        if ask.later {
          out := WaitLeadIn(ch, ask.leadInId);
        }
        var armed := ArmSettle(ch);
        out := out + armed;
      } else if ask.later || c.wait.Some? {
        turns := turns[ch := c.(pending := c.pending + [item])];
        out := WaitLeadIn(ch, ask.leadInId);
      } else if ask.kind == Permission && settings.mode == Final {
        turns := turns[ch := c.(heldProse := [])];
        out := Enqueue(ch, item, false);
        var c1 := TurnOf(ch);
        turns := turns[ch := c1.(heldProse := c.heldProse)];
      } else {
        out := Enqueue(ch, item, false);
      }
    }

    /** A tool runs: announced, after the prose held so far, at verbosity `everything`. */
    method ToolRuns(ch: Id, name: string, summary: string) returns (out: seq<Action>)
      modifies this
      ensures (View(), out) == M.ToolRuns(env, old(View()), ch, name, summary)
    {
      hide Ensure, M.ReleaseGap, M.FlushProse, Say;
      ghost var s := View();
      out := [];
      var c := TurnOf(ch);
      SettingsStay(s, ch);
      c := Settled(c);
      turns := turns[ch := c];
      if c.skipReply || settings.verbosity != Everything {
        return;
      }
      var said := Say(env, View(), ch, ToolText(name, summary), None, None, Tool, []);
      SaySame(env, s, View(), ch, ToolText(name, summary));
      if settings.mode != Done && settings.mode != Final {
        if !whole {
          turns := turns[ch := c.(released := true)];
        }
        out := ReleaseGap(ch);
        var prose := FlushProse(ch);
        out := out + prose;
      }
      out := out + said;
    }

    static lemma {:induction false} SaySame(env: Env, s: Rules, s1: Rules, ch: Id, text: string)
      requires s1.settings == s.settings
      ensures Say(env, s1, ch, text, None, None, Tool, []) == Say(env, s, ch, text, None, None, Tool, [])
    {
    }

    // ---- Cancelling ----------------------------------------------------------

    /** Skip the channel to now: the decisions that waited come back, and whether anything was there. */
    method CatchUp(ch: Id) returns (decisions: seq<Decision>, any: bool)
      modifies this
      ensures (View(), decisions, any) == M.CatchUp(old(View()), ch)
      ensures ch in turns
    {
      hide M.DropHeld, Waiting, Cancel;
      var gen := Gen();
      var settle := Gen();
      ghost var s := View();
      DropHas(s, ch);
      var dropped := DropHeld(ch);
      DropSettings(s, ch);
      var c := turns[ch];
      decisions := Waiting(c);
      any := dropped > 0 || (settings.summaries && c.voiced < |c.prose|) || c.inflight > 0 || c.settleArmed
             || (exists k :: k in parked && parked[k].channel == ch && parked[k].gen == c.gen) || decisions != [];
      c := c.(voiced := |c.prose|);
      turns := turns[ch := Cancel(c, gen, settle)];
    }

    static lemma {:induction false} DropSettings(s: Rules, ch: Id)
      ensures M.DropHeld(s, ch).0.settings == s.settings && M.DropHeld(s, ch).0.parked == s.parked
    {
      hide D.Release;
    }

    /** The user answered: what was queued before is dropped. */
    method Answered(ch: Id) returns (out: seq<Action>)
      modifies this
      ensures (View(), out) == M.Answered(old(View()), ch)
    {
      hide Ensure, M.CatchUp, Cancelling, Settled;
      var c := TurnOf(ch);
      turns := turns[ch := Settled(c)];
      var decisions, _ := CatchUp(ch);
      out := Cancelling(ch, decisions) + [Wipe(ch, false)];
    }

    /** Stop: every channel of `chs` is caught up. */
    method StopAll(chs: seq<Id>) returns (out: seq<Action>)
      modifies this
      ensures (View(), out) == M.StopAll(old(View()), chs)
    {
      hide Ensure, M.CatchUp, Cancelling;
      out := [];
      ghost var s := View();
      assert chs[0..] == chs && [] + M.StopAll(s, chs).1 == M.StopAll(s, chs).1;
      for i := 0 to |chs|
        invariant var (s', more) := M.StopAll(View(), chs[i..]); (s', out + more) == M.StopAll(s, chs)
      {
        assert chs[i..][1..] == chs[i + 1..];
        var c := TurnOf(chs[i]);
        turns := turns[chs[i] := c.(awaiting := false)];
        var decisions, _ := CatchUp(chs[i]);
        Regroup(out, Cancelling(chs[i], decisions), M.StopAll(View(), chs[i + 1..]).1);
        out := out + Cancelling(chs[i], decisions);
      }
      assert chs[|chs|..] == [] && out + [] == out;
    }

    /** The flush hotkey: the rest of the reply is skipped, the decisions that waited are spoken now. */
    method Flush(ch: Id) returns (out: seq<Action>)
      modifies this
      ensures (View(), out) == M.Flush(env, old(View()), ch)
    {
      hide M.CatchUp, SayDecisions;
      out := [];
      if ch in turns {
        turns := turns[ch := turns[ch].(skipReply := true)];
        var decisions, _ := CatchUp(ch);
        out := SayAll(ch, decisions);
      }
    }

    /** Flush scope `all` for another session: only when its turn ended and something was there. */
    method FlushReady(ch: Id, queued: bool) returns (out: seq<Action>, flushed: bool)
      modifies this
      ensures (View(), out, flushed) == M.FlushReady(env, old(View()), ch, queued)
    {
      hide M.CatchUp, SayDecisions, Ensure;
      out, flushed := [], false;
      if ch in turns && turns[ch].ended {
        var decisions, any := CatchUp(ch);
        if any || queued {
          RulesFrames.Existing(View(), ch);
          out := SayAll(ch, decisions);
          turns := turns[ch := turns[ch].(skipReply := true)];
          flushed := true;
        }
      }
    }

    /** A tool or decision after the turn's end, without a turn start: a new turn. */
    method TakeNewTurn(ch: Id) returns (isNew: bool)
      modifies this
      ensures (View(), isNew) == M.TakeNewTurn(old(View()), ch)
    {
      isNew := false;
      if ch in turns && turns[ch].ended && !turns[ch].batchCut {
        turns := turns[ch := Reopened(turns[ch])];
        isNew := true;
      }
    }

    /** The channel closed: its slots stay watched, its summaries land dead. */
    method Close(ch: Id) returns (out: seq<Action>)
      modifies this
      ensures (View(), out) == M.Close(old(View()), ch)
    {
      hide Cancelling, Waiting;
      out := [];
      if ch in turns {
        out := Cancelling(ch, Waiting(turns[ch]));
        turns := turns - {ch};
      }
    }

    method SetMute(level: nat) returns (out: seq<Action>)
      modifies this
      ensures (View(), out) == M.SetMute(old(View()), level)
    {
      var l := if level < 2 then level else 2;
      settings := settings.(muteLevel := l);
      out := if l >= 1 then [Silence] else [];
    }

    method SetWhole(on: bool)
      modifies this`whole
      ensures View() == old(View()).(whole := on)
    {
      whole := on;
    }

    // ---- Summaries -----------------------------------------------------------

    /** The turn's prose as it is, without a summary. */
    method SayChunks(ch: Id, chunks: seq<string>) returns (out: seq<Action>)
      ensures out == SayRaw(env, View(), ch, chunks)
    {
      hide Say, SayEach;
      if whole {
        out := Say(env, View(), ch, JoinSpace(chunks), None, None, Prose, chunks);
      } else {
        out := SayTexts(ch, "", chunks);
      }
    }

    /** Recap the prose not yet voiced: spoken as it is, through the reorder buffer, or by a job; true
        when a job went out. */
    method Summarizing(ch: Id, leadin: bool, focused: Option<Id>) returns (out: seq<Action>, digesting: bool)
      modifies this
      ensures (View(), out, digesting) == M.Summarizing(env, old(View()), ch, leadin, focused)
    {
      hide Ensure, Kept, M.HoldKept, M.FlushProse, SayRaw, M.Land, M.Dispatch, JoinSpace;
      ghost var s := View();
      out, digesting := [], false;
      var c := TurnOf(ch);
      SettingsStay(s, ch);
      if !settings.summaries {
        RulesFrames.Existing(View(), ch);
        var n := HoldKept(ch);
        if n > 0 {
          out := FlushProse(ch);
        }
        return;
      }
      var chunks := if c.voiced <= |c.prose| then c.prose[c.voiced..] else [];
      var text := Trim(JoinSpace(chunks));
      if text == "" {
        return;
      }
      turns := turns[ch := c.(voiced := |c.prose|)];
      if settings.muteLevel > 0 {
        out := SayChunks(ch, chunks);
      } else if |text| < SUMMARY_MIN && !leadin {
        if focused == Some(ch) {
          out := SayChunks(ch, chunks);
        } else {
          var slot := nextSeq;
          nextSeq := nextSeq + 1;
          out := Land(Some(slot), Release(ch, c.gen, text, false, None));
          out := [Slotted(Ticket(slot, ch, c.gen, text))] + out;
        }
      } else {
        out := Dispatch(ch, c.gen, text, leadin);
        digesting := true;
      }
    }

    /** A job goes out; a turn-end summary takes a slot and is watched. */
    method Dispatch(ch: Id, gen: nat, text: string, leadin: bool) returns (out: seq<Action>)
      modifies this
      ensures (View(), out, true) == M.Dispatch(old(View()), ch, gen, text, leadin)
    {
      hide Ensure;
      ghost var s := View();
      var c := TurnOf(ch);
      nextToken := nextToken + 1;
      turns := turns[ch := c.(lastToken := nextToken, inflight := c.inflight + 1)];
      if leadin {
        out := [Summarize(Job(nextToken, ch, gen, text, true, None))];
      } else {
        var k := nextSeq;
        nextSeq := nextSeq + 1;
        watched := watched[k := Release(ch, gen, text, false, None)];
        out := [Slotted(Ticket(k, ch, gen, text)), Arm(Watchdog(k)),
            Summarize(Job(nextToken, ch, gen, text, false, Some(k)))];
      }
    }

    /** Park a release under its slot and serve every ready one; a slot served or parked already is ignored. */
    method Land(slot: Option<nat>, r: Release) returns (out: seq<Action>)
      modifies this`parked, this`watched, this`serveSeq
      ensures (View(), out) == M.Land(env, old(View()), slot, r)
    {
      hide Apply;
      out := [];
      if slot == None {
        out := Apply(env, View(), r);
        return;
      }
      if slot.value < serveSeq || slot.value in parked {
        return;
      }
      watched := watched - {slot.value};
      parked := parked[slot.value := r];
      ghost var s := View();
      assert [] + Serve(env, s).1 == Serve(env, s).1;
      while serveSeq in parked
        invariant (Serve(env, View()).0, out + Serve(env, View()).1) == Serve(env, s)
        decreases parked.Keys
      {
        var next := parked[serveSeq];
        var served := [Served(Ticket(serveSeq, next.channel, next.gen, next.text))];
        parked := parked - {serveSeq};
        serveSeq := serveSeq + 1;
        served := served + Apply(env, View(), next);
        Regroup(out, served, Serve(env, View()).1);
        out := out + served;
      }
      assert out + [] == out;
    }

    /** The job is answered: it holds nothing any more, and is no longer in flight; what it held. */
    method Deliver(job: Job) returns (held: seq<Decision>)
      modifies this`turns
      ensures View() == Delivered(old(View()), job) && held == HeldFor(old(View()), job)
    {
      hide Owns, Answer;
      OwnerIs(View(), job);
      held := [];
      if job.channel in turns {
        var c := turns[job.channel];
        var owner := c.held.Some? && c.held.value.0 == job.token;
        if owner {
          held := c.held.value.1;
        }
        turns := turns[job.channel := Answer(c, owner, job.gen)];
      }
    }

    static lemma {:induction false} OwnerIs(s: Rules, job: Job)
      ensures Owns(s, job) == (job.channel in s.turns && s.turns[job.channel].held.Some?
          && s.turns[job.channel].held.value.0 == job.token)
    {
    }

    /** The summarizer answered a job. */
    method DigestDone(job: Job, summary: Option<string>) returns (out: seq<Action>)
      modifies this
      ensures (View(), out) == M.DigestDone(env, old(View()), job, summary)
    {
      hide M.Land, SayDecisions, Delivered, HeldFor;
      var held := Deliver(job);
      out := Land(job.slot, Release(job.channel, job.gen, job.text, job.leadin, summary));
      var said := SayAll(job.channel, held);
      out := out + said;
    }

    // ---- Timers --------------------------------------------------------------

    /** A timer fired. */
    method Fire(timer: Timer, focused: Option<Id>) returns (out: seq<Action>)
      modifies this
      ensures (View(), out) == M.Fire(env, old(View()), timer, focused)
    {
      hide M.FireSettle, M.ReleaseWait, M.ReleaseGap, M.Land, SayDecisions;
      out := [];
      match timer
      case Settle(ch, gen) =>
        out := FireSettle(ch, gen, focused);
      case HoldCap(ch, id) =>
        if ch in turns && turns[ch].held.Some? && (exists d :: d in turns[ch].held.value.1 && d.id == id) {
          var items := turns[ch].held.value.1;
          out := SayAll(ch, items);
          turns := turns[ch := turns[ch].(held := None)];
        }
      case Watchdog(k) =>
        if k in watched {
          var release := watched[k];
          watched := watched - {k};
          if k >= serveSeq && k !in parked {
            out := Land(Some(k), release);
          }
        }
      case LeadIn(ch, gen) =>
        if ch in turns && turns[ch].wait.Some? && turns[ch].wait.value.gen == gen {
          out := ReleaseWait(ch);
        }
      case Gap(ch, gen) =>
        if ch in turns && turns[ch].order.gen == gen {
          out := ReleaseGap(ch);
        }
    }

    /** The settle window elapsed: what waits goes after the turn's recap. */
    method FireSettle(ch: Id, gen: nat, focused: Option<Id>) returns (out: seq<Action>)
      modifies this
      ensures (View(), out) == M.FireSettle(env, old(View()), ch, gen, focused)
    {
      hide M.Summarizing, M.EnqueueAll;
      out := [];
      if ch !in turns || turns[ch].settleGen != gen || !turns[ch].settleArmed {
        return;
      }
      turns := turns[ch := turns[ch].(settleArmed := false)];
      if turns[ch].wait.Some? {
        return;
      }
      var items := turns[ch].pending;
      turns := turns[ch := turns[ch].(pending := [])];
      var digesting;
      out, digesting := Summarizing(ch, items != [], focused);
      var rest := EnqueueAll(ch, items, digesting);
      out := out + rest;
    }

    // ---- Every input ---------------------------------------------------------

    /** Any input: so what is proved of the runs of `Step` holds of every use of the object. */
    method Handle(op: Op) returns (out: seq<Action>, stale: bool)
      modifies this
      ensures (View(), out) == Step(env, old(View()), op) && stale == Refused(old(View()), op)
    {
      hide M.Stream, M.TakeLeadIn, M.Reply, M.TurnStart, M.TurnEnd, M.AskFor, M.ToolRuns, M.Answered, M.StopAll,
          M.Flush, M.FlushReady;
      hide M.TakeNewTurn, M.Close, M.SetMute, M.Fire, M.DigestDone, IsStale;
      out, stale := [], false;
      match op
      case OpStream(ch, turn, x, t) => out, stale := Stream(ch, turn, x, t);
      case OpLeadIn(ch, turn, text, id, t) => out, stale := TakeLeadIn(ch, turn, text, id, t);
      case OpReply(ch, turn, text, before, t) => stale := Reply(ch, turn, text, before, t);
      case OpTurnStart(ch, turn, t) => out, stale := TurnStart(ch, turn, t);
      case OpTurnEnd(ch, turn, t) => out, stale := TurnEnd(ch, turn, t);
      case OpAsk(ch, ask) => out := AskFor(ch, ask);
      case OpTool(ch, name, summary) => out := ToolRuns(ch, name, summary);
      case OpAnswered(ch) => out := Answered(ch);
      case OpStopAll(chs) => out := StopAll(chs);
      case OpFlush(ch) => out := Flush(ch);
      case OpFlushReady(ch, queued) =>
        var flushed;
        out, flushed := FlushReady(ch, queued);
      case OpNewTurn(ch) =>
        var _ := TakeNewTurn(ch);
      case OpClose(ch) => out := Close(ch);
      case OpMute(level) => out := SetMute(level);
      case OpWhole(on) => SetWhole(on);
      case OpConfigure(s) => settings := s;
      case OpFire(timer, focused) => out := Fire(timer, focused);
      case OpDigest(job, recap) => out := DigestDone(job, recap);
    }
  }
}
