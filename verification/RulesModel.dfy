/**
 The rules of the agent as a value: turns, streamed prose, decisions and summaries. Every input is a
 function from the state before to the state after and the actions asked for. Time comes in only as
 timers that fire.
 */
module RulesModel {
  import opened Options
  import opened Wordings
  import D = DeltaOrders

  type Id = string

  datatype Chunk = Text(text: string) | Code(summary: string, lines: seq<string>, end: string) | ParagraphBreak

  // What the rules take from elsewhere: the prose assembler (the chunks a delta completes after the
  // deltas fed before it) and text functions.
  datatype Env = Env(
    feed: (seq<D.Delta>, D.Delta) -> seq<Chunk>,
    fold: string -> string,
    normalize: string -> string,
    within: (string, string) -> bool,
    codeBlock: (string, seq<string>, string) -> string)

  datatype Kind = Prose | Question | Permission | Plan | Tool | Summary
  datatype Chime = TurnDone | Choice | PermissionChime | SummaryFailed
  datatype Verbosity = SkipCode | ReadCode | Everything
  datatype Mode = Immediate | Queue | Done | Final

  datatype Settings = Settings(muteLevel: nat, summaries: bool, verbosity: Verbosity, minqueue: nat, mode: Mode,
      questionStep: bool)

  datatype Timer =
    | Settle(channel: Id, gen: nat)
    | HoldCap(channel: Id, decision: nat)
    | Watchdog(seqNo: nat)
    | Gap(channel: Id, gen: nat)
    | LeadIn(channel: Id, gen: nat)

  datatype Job = Job(token: nat, channel: Id, gen: nat, text: string, leadin: bool, slot: Option<nat>)

  datatype Numbered = Numbered(id: nat, text: string, kind: Kind)

  // A decision always has something to read.
  type Decision = d: Numbered | !Blank(d.text) witness Numbered(0, Fallback("?"), Plan)

  // A summary (or the raw text) waiting for its turn to be spoken.
  datatype Release = Release(channel: Id, gen: nat, text: string, leadin: bool, summary: Option<string>)

  // What a slot of the reorder buffer was given out for.
  datatype Ticket = Ticket(slot: nat, channel: Id, gen: nat, text: string)

  // `number`: the decision it reads; `release`: the generation its summary was minted in; `parts`: the
  // chunks of prose it reads. The last three tell what happens without an action of its own: a decision
  // dropped, a slot given out and served.
  datatype Action =
    | Speak(channel: Id, text: string, number: Option<nat>, release: Option<nat>, kind: Kind, parts: seq<string>)
    | Store(channel: Id, text: string, number: Option<nat>, release: Option<nat>, kind: Kind, parts: seq<string>)
    | Play(chime: Chime)
    | Wipe(channel: Id, resume: bool)
    | Silence
    | Summarize(job: Job)
    | Arm(timer: Timer)
    | Cancelled(channel: Id, decision: nat)
    | Slotted(ticket: Ticket)
    | Served(ticket: Ticket)

  datatype Wait = Wait(gen: nat, id: Option<string>, seen: seq<string>)

  // One channel's turn. `fed`: what the assembler was fed since it was made. `questions`: the size
  // of the question set kept for navigation.
  datatype Turn = Turn(
    fed: seq<D.Delta>,
    t: Option<int>,
    current: Option<string>,
    retired: seq<string>,
    awaiting: bool,
    hinted: bool,
    questions: Option<nat>,
    leadIn: Option<string>,
    wait: Option<Wait>,
    reply: Option<(string, Option<string>)>,
    replied: Option<string>,
    heldProse: seq<(string, bool)>,
    newPara: bool,
    lastIndex: Option<nat>,
    order: D.Order,
    released: bool,
    ended: bool,
    batchCut: bool,
    skipReply: bool,
    prose: seq<string>,
    voiced: nat,
    gen: nat,
    settleGen: nat,
    settleArmed: bool,
    pending: seq<Decision>,
    held: Option<(nat, seq<Decision>)>,
    inflight: nat,
    lastToken: nat)

  datatype Rules = Rules(
    settings: Settings,
    turns: map<Id, Turn>,
    nextGen: nat,
    nextDecision: nat,
    nextToken: nat,
    whole: bool,
    nextSeq: nat,
    serveSeq: nat,
    parked: map<nat, Release>,
    watched: map<nat, Release>)

  type Out = (Rules, seq<Action>)

  const RETIRED := 16
  const SUMMARY_MIN := 280
  const SHORT_REPLY := 40
  const LONG_BEFORE := 60

  function Begun(gen: nat): Turn {
    Turn([], None, None, [], false, false, None, None, None, None, None, [], false, None, D.FRESH, false, false, false,
        false,
         [], 0, gen, 0, false, [], None, 0, 0)
  }

  function Start(settings: Settings): Rules {
    Rules(settings, map[], 0, 0, 0, false, 0, 0, map[], map[])
  }

  /** `ch`'s turn state, made if there is none. */
  function Ensure(s: Rules, ch: Id): (r: Rules)
    ensures ch in r.turns
  {
    if ch in s.turns then s else s.(nextGen := s.nextGen + 1, turns := s.turns[ch := Begun(s.nextGen + 1)])
  }

  function Set(s: Rules, ch: Id, c: Turn): Rules {
    s.(turns := s.turns[ch := c])
  }

  function Renamed(s: Rules): Rules {
    s.(nextGen := s.nextGen + 1)
  }

  /** First `first`, then what it leads to. */
  function Then(first: Out, more: Out): Out {
    (more.0, first.1 + more.1)
  }

  // ---- Saying ----------------------------------------------------------------

  function Chimed(s: Rules, chime: Chime): seq<Action> {
    if s.settings.muteLevel < 2 then [Play(chime)] else []
  }

  /** Muted text is kept as the session's latest message; text with nothing to read is not said. */
  function Say(env: Env, s: Rules, ch: Id, text: string, number: Option<nat>, release: Option<nat>, kind: Kind,
      parts: seq<string>): seq<Action> {
    if Blank(text) then []
    else if s.settings.muteLevel == 0 then [Speak(ch, text, number, release, kind, parts)]
    else [Store(ch, text, number, release, kind, parts)]
  }

  function SayDecision(env: Env, s: Rules, ch: Id, d: Decision): seq<Action> {
    Say(env, s, ch, d.text, Some(d.id), None, d.kind, [])
  }

  function SayDecisions(env: Env, s: Rules, ch: Id, ds: seq<Decision>): seq<Action> {
    if ds == [] then [] else SayDecision(env, s, ch, ds[0]) + SayDecisions(env, s, ch, ds[1..])
  }

  function Cancelling(ch: Id, ds: seq<Decision>): seq<Action> {
    if ds == [] then [] else [Cancelled(ch, ds[0].id)] + Cancelling(ch, ds[1..])
  }

  // ---- Prose held and let go -------------------------------------------------

  /** Drop the prose held, and the deltas held for their order; how much it was. */
  function DropHeld(s: Rules, ch: Id): (Rules, nat) {
    var s1 := Ensure(s, ch);
    var c := s1.turns[ch];
    var (order, out) := D.Release(c.order);
    (Set(s1, ch, c.(heldProse := [], order := order)), |c.heldProse| + |out|)
  }

  /** The prose kept for a summary, read as it is. */
  function Kept(c: Turn): seq<(string, bool)> {
    if c.voiced <= |c.prose| then seq(|c.prose| - c.voiced,
        i requires 0 <= i < |c.prose| - c.voiced => (c.prose[c.voiced + i], false))
    else []
  }

  function HoldKept(s: Rules, ch: Id): Rules {
    var s1 := Ensure(s, ch);
    var c := s1.turns[ch];
    Set(s1, ch, c.(heldProse := Kept(c) + c.heldProse, voiced := |c.prose|))
  }

  function Parts(held: seq<(string, bool)>): seq<string> {
    seq(|held|, i requires 0 <= i < |held| => held[i].0)
  }

  /** One text of several chunks: a blank line before a paragraph, else a space. */
  function Joined(text: string, empty: bool, held: seq<(string, bool)>): string
    decreases |held|
  {
    if held == [] then text
    else Joined(text + (if empty then "" else if held[0].1 then "\n\n" else " ") + held[0].0, empty
        && held[0].0 == "", held[1..])
  }

  function SayEach(env: Env, s: Rules, ch: Id, head: string, texts: seq<string>): seq<Action> {
    if texts == [] then []
    else Say(env, s, ch, head + texts[0], None, None, Prose, [texts[0]]) + SayEach(env, s, ch, head, texts[1..])
  }

  function SayProse(env: Env, s: Rules, ch: Id, held: seq<(string, bool)>): seq<Action> {
    if held == [] then []
    else if s.whole then Say(env, s, ch, Joined(MARK, true, held), None, None, Prose, Parts(held))
    else SayEach(env, s, ch, MARK, Parts(held))
  }

  /** Speak the first `n` chunks of the held prose. */
  function FlushUpto(env: Env, s: Rules, ch: Id, n: nat): Out {
    var s1 := Ensure(s, ch);
    var c := s1.turns[ch];
    var k := if n < |c.heldProse| then n else |c.heldProse|;
    (Set(s1, ch, c.(heldProse := c.heldProse[k..])), SayProse(env, s1, ch, c.heldProse[..k]))
  }

  function FlushProse(env: Env, s: Rules, ch: Id): Out {
    FlushUpto(env, s, ch, if ch in s.turns then |s.turns[ch].heldProse| else 0)
  }

  // ---- Assembling ------------------------------------------------------------

  // The turn while deltas are fed, the texts ready so far, and how many came before the last
  // paragraph end.
  datatype Draft = Draft(c: Turn, texts: seq<(string, bool)>, breaks: Option<nat>)

  function FeedChunk(env: Env, d: Draft, chunk: Chunk, skipCode: bool): Draft {
    match chunk
    case Text(t) => Draft(d.c.(prose := d.c.prose + [t], newPara := false), d.texts + [(t, d.c.newPara)], d.breaks)
    case Code(summary, lines, end) =>
      if skipCode then d.(c := d.c.(prose := d.c.prose + [summary]))
      else Draft(d.c.(prose := d.c.prose + [summary], newPara := false),
                 d.texts + [(env.codeBlock(summary, lines, end), d.c.newPara)], d.breaks)
    case ParagraphBreak => Draft(d.c.(newPara := true), d.texts, Some(|d.texts|))
  }

  function FeedChunks(env: Env, d: Draft, chunks: seq<Chunk>, skipCode: bool): Draft
    decreases |chunks|
  {
    if chunks == [] then d else FeedChunks(env, FeedChunk(env, d, chunks[0], skipCode), chunks[1..], skipCode)
  }

  /** A delta numbered 0 after another block starts a paragraph. */
  function Numbering(c: Turn, x: D.Delta): Turn {
    c.(newPara := c.newPara || (x.index == 0 && c.lastIndex.Some? && c.lastIndex.value != 0),
        lastIndex := Some(x.index),
       fed := c.fed + [x])
  }

  /** The end of a block ends a paragraph. */
  function Closing(d: Draft, fin: bool): Draft {
    if fin then Draft(d.c.(newPara := true), d.texts, Some(|d.texts|)) else d
  }

  function FeedDelta(env: Env, d: Draft, x: D.Delta, skipCode: bool): Draft {
    Closing(FeedChunks(env, d.(c := Numbering(d.c, x)), env.feed(d.c.fed, x), skipCode), x.fin)
  }

  function FeedDeltas(env: Env, d: Draft, deltas: seq<D.Delta>, skipCode: bool): Draft
    decreases |deltas|
  {
    if deltas == [] then d else FeedDeltas(env, FeedDelta(env, d, deltas[0], skipCode), deltas[1..], skipCode)
  }

  function ArmSettle(s: Rules, ch: Id): Out {
    var s1 := Ensure(Renamed(s), ch);
    var gen := s.nextGen + 1;
    (Set(s1, ch, s1.turns[ch].(settleGen := gen, settleArmed := true)), [Arm(Settle(ch, gen))])
  }

  /** The chunks ready are read now as the read mode says. */
  function Ready(s: Rules, c: Turn): bool {
    c.released ||
    match s.settings.mode
    case Immediate => !s.whole
    case Queue => |c.heldProse| >= s.settings.minqueue
    case _ => false
  }

  /** Deltas (in order) become chunks, spoken, held, or kept for the summary. */
  function Assemble(env: Env, s: Rules, ch: Id, deltas: seq<D.Delta>): Out {
    if deltas == [] then (s, []) else
      var s1 := Ensure(s, ch);
      var c0 := s1.turns[ch];
      var kept := if s.settings.summaries then [] else Kept(c0);
      var d := FeedDeltas(env, Draft(if s.settings.summaries then c0 else c0.(voiced := |c0.prose|), kept, None),
          deltas,
                          s.settings.verbosity == SkipCode);
      if s.settings.summaries then
        var s2 := Set(s1, ch, d.c);
        if d.c.settleArmed then ArmSettle(s2, ch) else (s2, [])
      else
        Hold(env, s1, ch, d.c.(voiced := |d.c.prose|), d.texts, d.breaks)
  }

  /** Add texts to the held prose and let go of what is ready: all of it, or (a paragraph ended, whole
      messages read at once) up to the paragraph end. */
  function Hold(env: Env, s: Rules, ch: Id, c: Turn, texts: seq<(string, bool)>, breaks: Option<nat>): Out {
    var paraEnd := s.whole && s.settings.mode == Immediate && breaks.Some?;
    if texts == [] && !paraEnd then (Set(s, ch, c), []) else
      var c1 := c.(heldProse := c.heldProse + texts);
      var upto := |c.heldProse| + (if breaks.Some? then breaks.value else 0);
      var s1 := Set(s, ch, c1);
      if Ready(s, c1) then FlushProse(env, s1, ch)
      else if paraEnd && upto > 0 then FlushUpto(env, s1, ch, upto)
      else (s1, [])
  }

  /** Let go of the deltas held for their order and assemble them. */
  function ReleaseGap(env: Env, s: Rules, ch: Id): Out {
    var s1 := Ensure(s, ch);
    var c := s1.turns[ch];
    var (order, ready) := D.Release(c.order);
    Assemble(env, Set(s1, ch, c.(order := order)), ch, ready)
  }

  // ---- Messages --------------------------------------------------------------

  predicate Stale(c: Turn, turn: Option<string>, t: Option<int>) {
    || (t.Some? && c.t.Some? && t.value < c.t.value)
    || (turn.Some? && turn.value in c.retired)
  }

  predicate IsStale(s: Rules, ch: Id, turn: Option<string>, t: Option<int>) {
    ch in s.turns && Stale(s.turns[ch], turn, t)
  }

  /** A whole block that comes while a question waits for its lead-in is remembered. */
  function Noted(env: Env, c: Turn, x: D.Delta): Turn {
    c.(wait := if x.index == 0 && x.fin && c.wait.Some? then Some(c.wait.value.(seen := c.wait.value.seen
        + [env.fold(x.text)])) else c.wait)
  }

  /** The text the hook already sent as a question's lead-in. */
  predicate LeadInAgain(env: Env, c: Turn, x: D.Delta) {
    x.index == 0 && x.fin && c.leadIn == Some(env.fold(x.text))
  }

  /** A block of the reply read at the turn end. */
  predicate ReplyAgain(env: Env, c: Turn, x: D.Delta) {
    c.ended && c.replied.Some? && env.within(env.fold(x.text), c.replied.value)
  }

  /** A delta of streamed prose. */
  function Stream(env: Env, s: Rules, ch: Id, turn: Option<string>, x: D.Delta, t: Option<int>): Out {
    if IsStale(s, ch, turn, t) then (s, []) else
      var s1 := Ensure(s, ch);
      var c := Noted(env, s1.turns[ch], x);
      if LeadInAgain(env, c, x) then (Set(s1, ch, c.(leadIn := None)), [])
      else if ReplyAgain(env, c, x) then (Set(s1, ch, c), [])
      else if c.skipReply then (Set(s1, ch, c.(fed := c.fed + [x])), [])
      else Ordered(env, Set(s1, ch, c), ch, x)
  }

  /** The block's deltas in index order; a new gap is named and timed. */
  function Ordered(env: Env, s: Rules, ch: Id, x: D.Delta): Out
    requires ch in s.turns
  {
    var o := s.turns[ch].order;
    var first := if x.index == 0 && o.next > 0 && o.ahead != [] then ReleaseGap(env, s, ch) else (s, []);
    Then(first, Accepted(env, first.0, ch, x))
  }

  function Accepted(env: Env, s: Rules, ch: Id, x: D.Delta): Out {
    var s1 := Ensure(s, ch);
    var c := s1.turns[ch];
    var (order, ready, gap) := D.Accept(c.order, x);
    if gap then
      var gen := s1.nextGen + 1;
      Then((s1, [Arm(Gap(ch, gen))]),
           Assemble(env, Set(Renamed(s1), ch, c.(order := order.(gen := gen))), ch, ready))
    else Assemble(env, Set(s1, ch, c.(order := order)), ch, ready)
  }

  /** The decisions that waited for a late lead-in go, in order. */
  function ReleaseWait(env: Env, s: Rules, ch: Id): Out {
    var s1 := Ensure(s, ch);
    var s2 := Set(s1, ch, s1.turns[ch].(wait := None));
    if s.settings.summaries then ArmSettle(s2, ch)
    else EnqueueAll(env, Set(s2, ch, s2.turns[ch].(pending := [])), ch, s2.turns[ch].pending, false)
  }

  function WaitLeadIn(s: Rules, ch: Id, id: Option<string>): Out {
    var s1 := Ensure(s, ch);
    if s1.turns[ch].wait.Some? then (s1, []) else
      var gen := s1.nextGen + 1;
      (Set(Renamed(s1), ch, s1.turns[ch].(wait := Some(Wait(gen, id, [])))), [Arm(LeadIn(ch, gen))])
  }

  /** A question's lead-in, sent with it (`id` is `None`) or after it. */
  function TakeLeadIn(env: Env, s: Rules, ch: Id, turn: Option<string>, text: string, id: Option<string>,
      t: Option<int>): Out {
    if IsStale(s, ch, turn, t) then (s, []) else
      var wait := if ch in s.turns then s.turns[ch].wait else None;
      var waiting := wait.Some? && (id == None || wait.value.id == id);
      var seen := wait.Some? && env.fold(text) in wait.value.seen;
      if id.Some? && !waiting then (s, []) else
        var first := if seen && env.fold(text) != "" then (s, []) else if Blank(text) then (s, [])
            else ReadLeadIn(env, s, ch, turn, text, t);
        if waiting then Then(first, ReleaseWait(env, first.0, ch)) else first
  }

  /** It is read even in a flushed reply, whose other text stays skipped. */
  function ReadLeadIn(env: Env, s: Rules, ch: Id, turn: Option<string>, text: string, t: Option<int>): Out {
    var s0 := Ensure(if s.settings.mode == Final then DropHeld(s, ch).0 else s, ch);
    var skip := s0.turns[ch].skipReply;
    var (s1, out) := Stream(env, Set(s0, ch, s0.turns[ch].(skipReply := false)), ch, turn, D.Delta(text, 0, true), t);
    var s2 := Ensure(s1, ch);
    (Set(s2, ch, Led(s2.turns[ch], skip, env.fold(text))), out)
  }

  function Led(c: Turn, skip: bool, text: string): Turn {
    c.(skipReply := skip, leadIn := Some(text))
  }

  /** The final reply of the turn, and the text before it. */
  function Reply(env: Env, s: Rules, ch: Id, turn: Option<string>, text: string, before: Option<string>,
      t: Option<int>): Rules {
    if IsStale(s, ch, turn, t) then s else
      var s1 := Ensure(s, ch);
      var b := if before.Some? && Trim(before.value) != "" then Some(Trim(before.value)) else None;
      Set(s1, ch, s1.turns[ch].(reply := if Trim(text) == "" then None else Some((Trim(text), b))))
  }

  /** A short reply after a long report is read after the report. */
  function ReplyText(env: Env, reply: (string, Option<string>)): string {
    if reply.1.Some? && Words(reply.0) < SHORT_REPLY && Words(reply.1.value) >= LONG_BEFORE
    then reply.1.value + "\n\n" + reply.0 else reply.0
  }

  /** The reply restarts the text: what came between tools is forgotten. */
  function Restarted(env: Env, c: Turn, text: string): Turn {
    c.(fed := [], newPara := false, lastIndex := None, order := c.order.(next := 0, skipped := {}),
       prose := if c.voiced <= |c.prose| then c.prose[..c.voiced]
           else c.prose, replied := Some(env.fold(text)), released := true)
  }

  function Rewound(c: Turn): Turn {
    c.(fed := [], lastIndex := None)
  }

  /** Final mode at the turn end: the reply is assembled in place of the text between tools. */
  function TakeReply(env: Env, s: Rules, ch: Id): Out {
    var s1 := Ensure(s, ch);
    var c := s1.turns[ch];
    var s2 := Set(s1, ch, c.(reply := None));
    if c.reply == None || s.settings.mode != Final || c.skipReply then (s2, []) else
      var text := ReplyText(env, c.reply.value);
      var s3 := DropHeld(s2, ch).0;
      var (s4, out) := Assemble(env, Set(s3, ch, Restarted(env, s3.turns[ch], text)), ch, [D.Delta(text, 0, true)]);
      var s5 := Ensure(s4, ch);
      (Set(s5, ch, Rewound(s5.turns[ch])), out)
  }

  /** The channel's summary work is cancelled: what is in flight lands dead, waiting decisions go. */
  function Cancel(c: Turn, gen: nat, settleGen: nat): Turn {
    c.(gen := gen, settleGen := settleGen, settleArmed := false, pending := [], wait := None, held := None,
        inflight := 0,
       lastToken := 0)
  }

  function Waiting(c: Turn): seq<Decision> {
    c.pending + (if c.held.Some? then c.held.value.1 else [])
  }

  function Retire(c: Turn, turn: Option<string>): seq<string> {
    if c.current == None || turn == c.current then c.retired
    else
      var r := c.retired + [c.current.value];
      if |r| > RETIRED then r[1..] else r
  }

  /** The turn as a new one, its summary work not yet cancelled. */
  function Anew(c: Turn, turn: Option<string>, t: Option<int>): Turn {
    c.(fed := [], t := if t.Some? then t else c.t, current := turn, retired := Retire(c, turn), awaiting := false,
       questions := None, leadIn := None, reply := None, replied := None, released := false, ended := false,
       skipReply := false, newPara := false, lastIndex := None, order := c.order.(next := 0, skipped := {}),
       prose := [], voiced := 0)
  }

  /** A new turn: the old one's text, summary work and decisions are dropped. */
  function TurnStart(s: Rules, ch: Id, turn: Option<string>, t: Option<int>): Out {
    if IsStale(s, ch, turn, t) then (s, []) else
      var gen, settle := s.nextGen + 1, s.nextGen + 2;
      var s1 := DropHeld(Renamed(Renamed(s)), ch).0;
      var c := s1.turns[ch];
      (Set(s1, ch, Cancel(Anew(c, turn, t), gen, settle)), Cancelling(ch, Waiting(c)) + [Wipe(ch, true)])
  }

  /** The agent finished its turn. */
  function TurnEnd(env: Env, s: Rules, ch: Id, turn: Option<string>, t: Option<int>): Out {
    if IsStale(s, ch, turn, t) then (s, []) else
      var first := Then((s, Chimed(s, TurnDone)), ReleaseGap(env, s, ch));
      var second := Then(first, TakeReply(env, first.0, ch));
      Then(second, Ending(env, second.0, ch))
  }

  function Ended(c: Turn): Turn {
    c.(released := true, ended := true, batchCut := false)
  }

  function Ending(env: Env, s: Rules, ch: Id): Out {
    var s1 := Ensure(s, ch);
    var s2 := Set(s1, ch, Ended(s1.turns[ch]));
    var flushed := FlushProse(env, if s.settings.summaries then s2 else HoldKept(s2, ch), ch);
    if s.settings.summaries then Then(flushed, ArmSettle(flushed.0, ch)) else flushed
  }

  // ---- Decisions -------------------------------------------------------------

  // `part`: its place in a question set of that size; `later`: its lead-in comes after it, tied to it
  // by `leadInId`.
  type AskKind = k: Kind | k.Question? || k.Permission? || k.Plan? witness Question

  datatype Ask = Ask(kind: AskKind, text: string, options: seq<Choice>, multi: bool, part: Option<(nat, nat)>,
      notes: Option<string>,
                     hint: Option<string>, hintOnce: Option<string>, later: bool, leadInId: Option<string>)

  /** A question of a set of two or more. */
  function InSet(ask: Ask): Option<(nat, nat)> {
    if ask.kind == Question && ask.part.Some? && ask.part.value.1 >= 2 && ask.part.value.0 < ask.part.value.1 then
        ask.part else None
  }

  /** The size of the set kept for the navigation with `ask`; `None`: it is read on its own. */
  function Shown(ask: Ask, readAll: bool): Option<nat> {
    var part := InSet(ask);
    if readAll && part.Some? then None
    else if part.Some? then (if part.value.0 == 0 then Some(part.value.1) else None)
    else if ask.part.Some? && ask.part.value.0 > 0 then None
    else Some(1)
  }

  /** A later question of the set being shown is kept, not read. */
  predicate KeptForLater(c: Turn, ask: Ask, readAll: bool) {
    var part := InSet(ask);
    part.Some? && part.value.0 > 0 && !readAll && c.questions == Some(part.value.1)
  }

  function Extras(c: Turn, ask: Ask, s: Rules): seq<string> {
    var later := !s.settings.questionStep && InSet(ask).Some? && InSet(ask).value.0 > 0;
    if later then [] else
      (if ask.notes.Some? then [ask.notes.value] else [])
      + (if s.settings.verbosity == Everything then
           (if ask.hint.Some? then [ask.hint.value] else [])
           + (if ask.hintOnce.Some? && !c.hinted then [ask.hintOnce.value] else [])
         else [])
  }

  function Hints(c: Turn, ask: Ask, s: Rules): bool {
    var later := !s.settings.questionStep && InSet(ask).Some? && InSet(ask).value.0 > 0;
    c.hinted || (s.settings.verbosity == Everything && !later && ask.hintOnce.Some?)
  }

  /** The decision's wording; the first question of a set, or each one read in order, says its place. */
  function AskText(ask: Ask, readAll: bool): (r: string)
    ensures !Blank(r)
  {
    if ask.kind == Permission then PermissionText(ask.text)
    else if ask.kind == Plan then PlanText(ask.text)
    else
      var part := InSet(ask);
      var body := QuestionText(ask.text, ask.options, ask.multi);
      if part.Some? && (part.value.0 == 0 || readAll) then NumberedQuestion(part.value.0, part.value.1, body) else body
  }

  /** A question awaits its answer. */
  function Awaits(c: Turn, ask: Ask, readAll: bool): Turn {
    if ask.kind == Question then c.(awaiting := true, questions := Shown(ask, readAll)) else c
  }

  function AskChimes(s: Rules, c: Turn, ask: Ask): seq<Action> {
    match ask.kind
    case Question => if c.awaiting then [] else Chimed(s, Chime.Choice)
    case Permission => Chimed(s, PermissionChime)
    case _ => []
  }

  /** In final mode a plan, and a question without a lead-in, drop the prose held before them. */
  predicate DropsBefore(s: Rules, c: Turn, ask: Ask) {
    s.settings.mode == Final && (ask.kind == Plan || (ask.kind == Question && c.leadIn == None))
  }

  /** The decision, with the next number. */
  function Item(s: Rules, c: Turn, ask: Ask): Decision {
    Numbered(s.nextDecision + 1, WithExtras(AskText(ask, !s.settings.questionStep), Extras(c, ask, s)), ask.kind)
  }

  /** It is asked: not a later question of a set being shown, nor the permission prompt of the question
      awaiting its answer. */
  predicate Asked(s: Rules, c: Turn, ask: Ask) {
    !KeptForLater(c, ask, !s.settings.questionStep) && !(ask.kind == Permission && c.awaiting)
  }

  /** The turn and the number taken, before the decision goes anywhere. */
  function TakeNumber(s: Rules, ch: Id, ask: Ask): Rules {
    var s1 := Ensure(s, ch);
    var s2 := Set(s1, ch, Awaits(s1.turns[ch], ask, !s.settings.questionStep));
    var s3 := Ensure(if DropsBefore(s, s1.turns[ch], ask) then DropHeld(s2, ch).0 else s2, ch);
    Set(s3, ch, s3.turns[ch].(hinted := Hints(s3.turns[ch], ask, s))).(nextDecision := s3.nextDecision + 1)
  }

  /** A decision blocks the agent. */
  function AskFor(env: Env, s: Rules, ch: Id, ask: Ask): Out {
    var first := ReleaseGap(env, s, ch);
    var s1 := Ensure(first.0, ch);
    var c := s1.turns[ch];
    if !Asked(s1, c, ask) then
      (if KeptForLater(c, ask, !s.settings.questionStep) then s1 else Set(s1, ch, c.(awaiting := false)), first.1)
    else
      var s2 := TakeNumber(s1, ch, ask);
      Then((s2, first.1 + AskChimes(s1, c, ask)), Decided(env, s2, ch, ask, Item(s1, c, ask)))
  }

  /** Where a decision goes: behind the settle window, behind its lead-in, behind a summary, or now. */
  function Decided(env: Env, s: Rules, ch: Id, ask: Ask, item: Decision): Out {
    var s1 := Ensure(s, ch);
    var c := s1.turns[ch];
    if s.settings.summaries then
      var s2 := Set(s1, ch, c.(pending := c.pending + [item]));
      var waited := if ask.later then WaitLeadIn(s2, ch, ask.leadInId) else (s2, []);
      Then(waited, ArmSettle(waited.0, ch))
    else if ask.later || c.wait.Some? then WaitLeadIn(Set(s1, ch, c.(pending := c.pending + [item])), ch, ask.leadInId)
    else if ask.kind == Permission && s.settings.mode == Final then
      var (s2, out) := Enqueue(env, Set(s1, ch, c.(heldProse := [])), ch, item, false);
      var s3 := Ensure(s2, ch);
      (Set(s3, ch, s3.turns[ch].(heldProse := c.heldProse)), out)
    else Enqueue(env, s1, ch, item, false)
  }

  /** Speak a decision now, or hold it (capped) behind the summary in flight. */
  function Enqueue(env: Env, s: Rules, ch: Id, item: Decision, digesting: bool): Out {
    var s1 := Ensure(s, ch);
    var c := s1.turns[ch];
    if digesting || c.inflight > 0 then
      (Set(s1, ch, c.(held := Some((c.lastToken, (if c.held.Some? then c.held.value.1 else []) + [item])))),
          [Arm(HoldCap(ch, item.id))])
    else Then(FlushProse(env, s1, ch), (FlushProse(env, s1, ch).0, SayDecision(env, s1, ch, item)))
  }

  function EnqueueAll(env: Env, s: Rules, ch: Id, items: seq<Decision>, digesting: bool): Out
    decreases |items|
  {
    if items == [] then (s, []) else
      var first := Enqueue(env, s, ch, items[0], digesting);
      Then(first, EnqueueAll(env, first.0, ch, items[1..], digesting))
  }

  /** The question, if any, was answered. */
  function Settled(c: Turn): Turn {
    c.(awaiting := false, questions := None)
  }

  /** A tool runs: the question was answered; announced at verbosity `everything`. */
  function ToolRuns(env: Env, s: Rules, ch: Id, name: string, summary: string): Out {
    var s1 := Ensure(s, ch);
    var c := Settled(s1.turns[ch]);
    var s2 := Set(s1, ch, c);
    if c.skipReply || s.settings.verbosity != Everything then (s2, []) else
      var first := if s.settings.mode == Done || s.settings.mode == Final then (s2, [])
                   else
                     var let := ReleaseGap(env, if s.whole then s2 else Set(s2, ch, c.(released := true)), ch);
                     Then(let, FlushProse(env, let.0, ch));
      (first.0, first.1 + Say(env, s, ch, ToolText(name, summary), None, None, Tool, []))
  }

  /** Skip the channel to now: the decisions that waited come back, and whether anything was there. */
  function CatchUp(s: Rules, ch: Id): (Rules, seq<Decision>, bool) {
    var gen, settle := s.nextGen + 1, s.nextGen + 2;
    var (s1, dropped) := DropHeld(Renamed(Renamed(s)), ch);
    var c := s1.turns[ch];
    var decisions := Waiting(c);
    var any := dropped > 0 || (s.settings.summaries && c.voiced < |c.prose|) || c.inflight > 0 || c.settleArmed
               || (exists k :: k in s.parked && s.parked[k].channel == ch && s.parked[k].gen == c.gen)
               || decisions != [];
    (Set(s1, ch, Cancel(c.(voiced := |c.prose|), gen, settle)), decisions, any)
  }

  /** The user answered: what was queued before is dropped. */
  function Answered(s: Rules, ch: Id): Out {
    var s1 := Ensure(s, ch);
    var (s2, decisions, _) := CatchUp(Set(s1, ch, Settled(s1.turns[ch])), ch);
    (s2, Cancelling(ch, decisions) + [Wipe(ch, false)])
  }

  /** Stop: every channel of `chs` is caught up. */
  function StopAll(s: Rules, chs: seq<Id>): Out
    decreases |chs|
  {
    if chs == [] then (s, []) else
      var s1 := Ensure(s, chs[0]);
      var (s2, decisions, _) := CatchUp(Set(s1, chs[0], s1.turns[chs[0]].(awaiting := false)), chs[0]);
      Then((s2, Cancelling(chs[0], decisions)), StopAll(s2, chs[1..]))
  }

  /** The flush hotkey: the rest of the reply is skipped, the decisions that waited are spoken now. */
  function Flush(env: Env, s: Rules, ch: Id): Out {
    if ch !in s.turns then (s, []) else
      var (s1, decisions, _) := CatchUp(Set(s, ch, s.turns[ch].(skipReply := true)), ch);
      (s1, SayDecisions(env, s1, ch, decisions))
  }

  /** Flush scope `all` for another session: only when its turn ended and something was there. */
  function FlushReady(env: Env, s: Rules, ch: Id, queued: bool): (Rules, seq<Action>, bool) {
    if ch !in s.turns || !s.turns[ch].ended then (s, [], false) else
      var (s1, decisions, any) := CatchUp(s, ch);
      if !(any || queued) then (s1, [], false)
      else
        var s2 := Ensure(s1, ch);
        (Set(s2, ch, s2.turns[ch].(skipReply := true)), SayDecisions(env, s2, ch, decisions), true)
  }

  function Reopened(c: Turn): Turn {
    c.(batchCut := true, released := false, ended := false, skipReply := false, newPara := false, lastIndex := None,
        reply := None,
       replied := None)
  }

  /** A tool or decision after the turn's end, without a turn start: a new turn. */
  function TakeNewTurn(s: Rules, ch: Id): (Rules, bool) {
    if ch in s.turns && s.turns[ch].ended && !s.turns[ch].batchCut then (Set(s, ch, Reopened(s.turns[ch])), true)
    else (s, false)
  }

  /** The channel closed: its slots stay watched, its summaries land dead. */
  function Close(s: Rules, ch: Id): Out {
    if ch !in s.turns then (s, []) else (s.(turns := s.turns - {ch}), Cancelling(ch, Waiting(s.turns[ch])))
  }

  function SetMute(s: Rules, level: nat): Out {
    var l := if level < 2 then level else 2;
    (s.(settings := s.settings.(muteLevel := l)), if l >= 1 then [Silence] else [])
  }

  // ---- Summaries -------------------------------------------------------------

  /** The turn's prose as it is, without a summary. */
  function SayRaw(env: Env, s: Rules, ch: Id, chunks: seq<string>): seq<Action> {
    if s.whole then Say(env, s, ch, JoinSpace(chunks), None, None, Prose, chunks) else SayEach(env, s, ch, "", chunks)
  }

  /** Recap the prose not yet voiced: spoken as it is, through the reorder buffer, or by a job; true
      when a job went out. */
  function Summarizing(env: Env, s: Rules, ch: Id, leadin: bool, focused: Option<Id>): (Rules, seq<Action>, bool) {
    var s0 := Ensure(s, ch);
    var c := s0.turns[ch];
    if !s.settings.summaries then
      (if Kept(c) == [] then (HoldKept(s0, ch), [], false)
       else var (s1, out) := FlushProse(env, HoldKept(s0, ch), ch); (s1, out, false))
    else
      var chunks := if c.voiced <= |c.prose| then c.prose[c.voiced..] else [];
      var text := Trim(JoinSpace(chunks));
      if text == "" then (s0, [], false) else
        var s1 := Set(s0, ch, c.(voiced := |c.prose|));
        if s.settings.muteLevel > 0 then (s1, SayRaw(env, s1, ch, chunks), false)
        else if |text| < SUMMARY_MIN && !leadin then
          if focused == Some(ch) then (s1, SayRaw(env, s1, ch, chunks), false)
          else
            var (s2, out) := Land(env, Alloc(s1), Some(s1.nextSeq), Release(ch, c.gen, text, false, None));
            (s2, [Slotted(Ticket(s1.nextSeq, ch, c.gen, text))] + out, false)
        else Dispatch(s1, ch, c.gen, text, leadin)
  }

  /** A job goes out; a turn-end summary takes a slot and is watched. */
  function Dispatch(s: Rules, ch: Id, gen: nat, text: string, leadin: bool): (Rules, seq<Action>, bool) {
    var s0 := Ensure(s, ch);
    var token := s0.nextToken + 1;
    var s1 := Set(s0, ch, s0.turns[ch].(lastToken := token, inflight := s0.turns[ch].inflight
        + 1)).(nextToken := token);
    if leadin then (s1, [Summarize(Job(token, ch, gen, text, true, None))], true)
    else
      var k := s1.nextSeq;
      (Alloc(s1).(watched := s1.watched[k := Release(ch, gen, text, false, None)]),
       [Slotted(Ticket(k, ch, gen, text)), Arm(Watchdog(k)), Summarize(Job(token, ch, gen, text, false, Some(k)))],
           true)
  }

  function Alloc(s: Rules): Rules {
    s.(nextSeq := s.nextSeq + 1)
  }

  /** Park a release under its slot and serve every ready one; a slot served or parked already is ignored. */
  function Land(env: Env, s: Rules, slot: Option<nat>, r: Release): Out {
    if slot == None then (s, Apply(env, s, r))
    else if slot.value < s.serveSeq || slot.value in s.parked then (s, [])
    else Serve(env, s.(watched := s.watched - {slot.value}, parked := s.parked[slot.value := r]))
  }

  function Serve(env: Env, s: Rules): Out
    decreases s.parked.Keys
  {
    if s.serveSeq !in s.parked then (s, []) else
      var r := s.parked[s.serveSeq];
      var s1 := s.(parked := s.parked - {s.serveSeq}, serveSeq := s.serveSeq + 1);
      Then((s1, [Served(Ticket(s.serveSeq, r.channel, r.gen, r.text))] + Apply(env, s1, r)), Serve(env, s1))
  }

  /** Speak a released summary, unless its channel moved on. */
  function Apply(env: Env, s: Rules, r: Release): seq<Action> {
    if !(r.channel in s.turns && s.turns[r.channel].gen == r.gen) then []
    else if r.summary.Some? && !Blank(r.summary.value) then
      Say(env, s, r.channel, env.normalize(r.summary.value), None, Some(r.gen), Summary, [])
    else if r.leadin then []
    else if Blank(r.text) then Chimed(s, SummaryFailed)
    else Say(env, s, r.channel, r.text, None, Some(r.gen), Prose, [])
  }

  /** The decisions held behind `job`. */
  predicate Owns(s: Rules, job: Job) {
    job.channel in s.turns && s.turns[job.channel].held.Some? && s.turns[job.channel].held.value.0 == job.token
  }

  function HeldFor(s: Rules, job: Job): seq<Decision> {
    if Owns(s, job) then s.turns[job.channel].held.value.1 else []
  }

  /** A job minted in `gen` is answered: what it held goes, and one of this turn is no longer in flight. */
  function Answer(c: Turn, owner: bool, gen: nat): Turn {
    c.(held := if owner then None else c.held, inflight := if c.gen == gen && c.inflight > 0 then c.inflight - 1
        else c.inflight)
  }

  function Delivered(s: Rules, job: Job): Rules {
    if job.channel !in s.turns then s else Set(s, job.channel, Answer(s.turns[job.channel], Owns(s, job), job.gen))
  }

  /** The summarizer answered a job. */
  function DigestDone(env: Env, s: Rules, job: Job, summary: Option<string>): Out {
    var landed := Land(env, Delivered(s, job), job.slot, Release(job.channel, job.gen, job.text, job.leadin, summary));
    (landed.0, landed.1 + SayDecisions(env, landed.0, job.channel, HeldFor(s, job)))
  }

  // ---- Timers ----------------------------------------------------------------

  function Fire(env: Env, s: Rules, timer: Timer, focused: Option<Id>): Out {
    match timer
    case Settle(ch, gen) => FireSettle(env, s, ch, gen, focused)
    case HoldCap(ch, id) =>
      if ch in s.turns && s.turns[ch].held.Some? && (exists d :: d in s.turns[ch].held.value.1 && d.id == id) then
        (Set(s, ch, s.turns[ch].(held := None)), SayDecisions(env, s, ch, s.turns[ch].held.value.1))
      else (s, [])
    case Watchdog(k) =>
      if k !in s.watched then (s, [])
      else
        var s1 := s.(watched := s.watched - {k});
        if k >= s.serveSeq && k !in s.parked then Land(env, s1, Some(k), s.watched[k]) else (s1, [])
    case LeadIn(ch, gen) =>
      if ch in s.turns && s.turns[ch].wait.Some? && s.turns[ch].wait.value.gen == gen then ReleaseWait(env, s, ch)
          else (s, [])
    case Gap(ch, gen) => if ch in s.turns && s.turns[ch].order.gen == gen then ReleaseGap(env, s, ch) else (s, [])
  }

  /** The settle window elapsed: what waits goes after the turn's recap. */
  function FireSettle(env: Env, s: Rules, ch: Id, gen: nat, focused: Option<Id>): Out {
    if ch !in s.turns || s.turns[ch].settleGen != gen || !s.turns[ch].settleArmed then (s, []) else
      var s1 := Set(s, ch, s.turns[ch].(settleArmed := false));
      if s.turns[ch].wait.Some? then (s1, []) else
        var items := s.turns[ch].pending;
        var (s2, out, digesting) := Summarizing(env, Set(s1, ch, s1.turns[ch].(pending := [])), ch, items != [],
            focused);
        Then((s2, out), EnqueueAll(env, s2, ch, items, digesting))
  }

  // ---- Every input -----------------------------------------------------------

  datatype Op =
    | OpStream(ch: Id, turn: Option<string>, delta: D.Delta, t: Option<int>)
    | OpLeadIn(ch: Id, turn: Option<string>, text: string, id: Option<string>, t: Option<int>)
    | OpReply(ch: Id, turn: Option<string>, text: string, before: Option<string>, t: Option<int>)
    | OpTurnStart(ch: Id, turn: Option<string>, t: Option<int>)
    | OpTurnEnd(ch: Id, turn: Option<string>, t: Option<int>)
    | OpAsk(ch: Id, ask: Ask)
    | OpTool(ch: Id, name: string, summary: string)
    | OpAnswered(ch: Id)
    | OpStopAll(chs: seq<Id>)
    | OpFlush(ch: Id)
    | OpFlushReady(ch: Id, queued: bool)
    | OpNewTurn(ch: Id)
    | OpClose(ch: Id)
    | OpMute(level: nat)
    | OpWhole(on: bool)
    | OpConfigure(settings: Settings)
    | OpFire(timer: Timer, focused: Option<Id>)
    | OpDigest(job: Job, recap: Option<string>)

  function Step(env: Env, s: Rules, op: Op): Out {
    match op
    case OpStream(ch, turn, x, t) => Stream(env, s, ch, turn, x, t)
    case OpLeadIn(ch, turn, text, id, t) => TakeLeadIn(env, s, ch, turn, text, id, t)
    case OpReply(ch, turn, text, before, t) => (Reply(env, s, ch, turn, text, before, t), [])
    case OpTurnStart(ch, turn, t) => TurnStart(s, ch, turn, t)
    case OpTurnEnd(ch, turn, t) => TurnEnd(env, s, ch, turn, t)
    case OpAsk(ch, ask) => AskFor(env, s, ch, ask)
    case OpTool(ch, name, summary) => ToolRuns(env, s, ch, name, summary)
    case OpAnswered(ch) => Answered(s, ch)
    case OpStopAll(chs) => StopAll(s, chs)
    case OpFlush(ch) => Flush(env, s, ch)
    case OpFlushReady(ch, queued) => (FlushReady(env, s, ch, queued).0, FlushReady(env, s, ch, queued).1)
    case OpNewTurn(ch) => (TakeNewTurn(s, ch).0, [])
    case OpClose(ch) => Close(s, ch)
    case OpMute(level) => SetMute(s, level)
    case OpWhole(on) => (s.(whole := on), [])
    case OpConfigure(settings) => (s.(settings := settings), [])
    case OpFire(timer, focused) => Fire(env, s, timer, focused)
    case OpDigest(job, recap) => DigestDone(env, s, job, recap)
  }

  /** An input of an earlier turn, which is refused. */
  predicate Refused(s: Rules, op: Op) {
    match op
    case OpStream(ch, turn, _, t) => IsStale(s, ch, turn, t)
    case OpLeadIn(ch, turn, _, _, t) => IsStale(s, ch, turn, t)
    case OpReply(ch, turn, _, _, t) => IsStale(s, ch, turn, t)
    case OpTurnStart(ch, turn, t) => IsStale(s, ch, turn, t)
    case OpTurnEnd(ch, turn, t) => IsStale(s, ch, turn, t)
    case _ => false
  }
}
