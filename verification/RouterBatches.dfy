/** What becomes of the agent's text: the batch is the whole message, and stored text is only read by hand. */
module RouterBatches {
  import opened Options
  import opened RouterModel
  import opened RouterInvariants
  import opened RouterFeeding
  import opened RouterFloor

  function Texts(entries: seq<Entry>): seq<string> {
    seq(|entries|, i requires 0 <= i < |entries| => entries[i].text)
  }

  /** The texts `ops` append to `id`. */
  function Appended(ops: seq<Op>, id: Id): seq<string> {
    if ops == [] then []
    else (if ops[0].OpAppend? && ops[0].id == id then [ops[0].text] else []) + Appended(ops[1..], id)
  }

  /** `op` adds no other text to `id`'s batch, takes none out, and does not end the batch. Feeding,
      replays, switches, mutes and whatever happens in other channels are all fine. */
  predicate KeepsBatch(op: Op, id: Id) {
    match op
    case OpClose(x) => x != id
    case OpPush(x, _, _) => x != id
    case OpPushWith(x, _, _, _, _) => x != id
    case OpDrop(x, _) => x != id
    case OpEndBatch(x) => x != id
    case OpRevise(x, _, _) => x != id
    case OpFlush(x) => x != id
    case _ => true
  }

  /** `id`'s batch grows. */
  ghost predicate Growing(r: Router, id: Id) {
    Inv(r) && id in r.chans && r.chans[id].growing
  }

  /** `id` still has its batch, and it still grows. */
  ghost predicate BatchAs(r: Router, r': Router, id: Id) {
    id in r.chans && id in r'.chans && r'.chans[id].entries == r.chans[id].entries && r'.chans[id].growing ==
        r.chans[id].growing
  }

  lemma {:induction false} AppendGrows(r: Router, id: Id, text: string, decision: bool, heard: bool)
    requires Growing(r, id)
    ensures var r' := Append(r, id, text, decision, heard).0;
            && id in r'.chans && r'.chans[id].growing
            && r'.chans[id].entries == r.chans[id].entries + [Entry(r.nextEntry + 1, text, None)]
  {
    hide Inv, CaughtUp, Pending;
    var c, e := r.chans[id], Entry(r.nextEntry + 1, text, None);
    assert PushEntry(c, e, false, false, IsReading(r, id)).entries == c.entries + [e];
  }

  lemma {:induction false} FeedBatch(r: Router, id: Id)
    requires Inv(r) && id in r.chans
    ensures BatchAs(r, NextFeed(r).0, id)
  {
    hide Inv, NextFeed, Unread;
    FeedCounts(r);
  }

  lemma {:induction false} SwitchBatch(r: Router, id: Id)
    requires Inv(r) && id in r.chans
    ensures BatchAs(r, NextChannel(r).0, id)
  {
    hide NextTarget, NextChannel, CaughtUp, Engaged, ChansOk, NamesOk, FloorOk;
    assert r.order != [];
    NextChannelIs(r);
  }

  lemma {:induction false} SameBatch(r: Router, op: Op, id: Id)
    requires KeepsBatch(op, id) && id in r.chans && Touches(op, id)
    requires op.OpOpen? || op.OpLabel? || op.OpMute? || op.OpReadAt? || op.OpSetAside? || op.OpRewind? || op.OpFlushAll?
    ensures BatchAs(r, Step(r, op).0, id)
  {
    hide Where, Pending, IsHandoff, TotalPending;
  }

  lemma {:induction false} KeptBatch(r: Router, op: Op, id: Id)
    requires Inv(r) && id in r.chans && KeepsBatch(op, id) && !(op.OpAppend? && op.id == id)
    ensures BatchAs(r, Step(r, op).0, id)
  {
    if !Touches(op, id) {
      hide Inv, Step;
      Untouched(r, op, id);
    } else if op.OpNextFeed? {
      hide Inv, NextFeed;
      FeedBatch(r, id);
    } else if op.OpNextChannel? {
      hide Inv, NextChannel;
      SwitchBatch(r, id);
    } else {
      hide Inv, Step;
      SameBatch(r, op, id);
    }
  }

  lemma {:induction false} TextsAdd(entries: seq<Entry>, e: Entry)
    ensures Texts(entries + [e]) == Texts(entries) + [e.text]
  {
  }

  /** Once it grows, the batch is what it was and every text appended since, in order. */
  lemma {:induction false} BatchGrows(r: Router, ops: seq<Op>, id: Id)
    requires Growing(r, id)
    requires forall op :: op in ops ==> KeepsBatch(op, id)
    ensures var r' := Run(r, ops).0;
            Growing(r', id) && Texts(r'.chans[id].entries) == Texts(r.chans[id].entries) + Appended(ops, id)
    decreases |ops|
  {
    hide Inv, Step, KeepsBatch, Texts;
    if ops != [] {
      var op, r1 := ops[0], Step(r, ops[0]).0;
      StepKeeps(r, op);
      assert KeepsBatch(op, id) by { assert op in ops; }
      if op.OpAppend? && op.id == id {
        AppendStep(r, op, id);
        TextsAdd(r.chans[id].entries, Entry(r.nextEntry + 1, op.text, None));
      } else {
        KeptBatch(r, op, id);
      }
      BatchGrows(r1, ops[1..], id);
    }
  }

  lemma {:induction false} AppendStep(r: Router, op: Op, id: Id)
    requires Growing(r, id) && op.OpAppend? && op.id == id
    ensures var r' := Step(r, op).0;
            && id in r'.chans && r'.chans[id].growing
            && r'.chans[id].entries == r.chans[id].entries + [Entry(r.nextEntry + 1, op.text, None)]
  {
    hide Inv, Append;
    AppendGrows(r, id, op.text, op.decision, op.heard);
  }

  // ---- A new message ---------------------------------------------------------

  /** `id` is caught up and not being read, and its next text starts a new batch. */
  ghost predicate Rested(r: Router, id: Id) {
    Inv(r) && id in r.chans && Pending(r.chans[id]) == 0 && !r.chans[id].growing && !IsReading(r, id)
  }

  /** Feeding, and the traffic of other channels: nothing by hand, nothing else in `id`. */
  predicate Elsewhere(op: Op, id: Id) {
    !Touches(op, id) || op.OpNextFeed? || op.OpFlushAll?
  }

  /** A flush of a channel that is not being read leaves it rested. */
  lemma {:induction false} FlushRests(r: Router, id: Id)
    requires Inv(r) && id in r.chans && !IsReading(r, id)
    ensures Rested(FlushOne(r, id).0, id)
  {
    FlushOneKeeps(r, id);
    hide Inv;
    EndOfBatch(r.chans[id].(growing := false));
  }

  lemma {:induction false} EndOfBatch(c: Chan)
    ensures Pending(SkipToEnd(c).0) == 0
  {
  }

  lemma {:induction false} ReadingText(r: Router, op: Op)
    requires op.OpPush? || op.OpPushWith? || op.OpAppend? || op.OpDrop? || op.OpEndBatch? || op.OpSetAside? ||
        op.OpRevise?
    ensures Step(r, op).0.reading == r.reading
  {
    hide PushEntry, Pending, DropThe, Where;
  }

  lemma {:induction false} ReadingFloor(r: Router, op: Op)
    requires op.OpRewind? || op.OpFlush? || op.OpFlushAll? || op.OpTakeFloor? || op.OpReadAt?
    ensures Step(r, op).0.reading == r.reading
  {
    hide IsHandoff, Pending, SkipToEnd, StepBack, Where, TotalPending;
  }

  lemma {:induction false} ReadingRest(r: Router, op: Op)
    requires op.OpOpen? || op.OpLabel? || op.OpClose? || op.OpFocus? || op.OpMute? || op.OpFocusOnly?
             || op.OpAuthorize? || op.OpAskSuppressed? || op.OpPrioritize? || op.OpDone? || op.OpClearAnnounce?
    ensures Step(r, op).0.reading == r.reading || Step(r, op).0.reading == None
  {
    hide Without, Ready, Suppressed;
  }

  lemma {:induction false} ReadingPick(r: Router, op: Op)
    requires Inv(r) && op.OpPick?
    ensures Step(r, op).0.reading == r.reading
  {
    hide Inv, Pick;
    PickKeeps(r);
  }

  lemma {:induction false} ReadingSwitch(r: Router)
    ensures NextChannel(r).0.reading == r.reading
  {
    hide NextTarget, CaughtUp, Engaged;
  }

  /** Only feeding sets what is being read. */
  lemma {:induction false} ReadingStays(r: Router, op: Op)
    requires Inv(r) && !op.OpNextFeed?
    ensures Step(r, op).0.reading == r.reading || Step(r, op).0.reading == None
  {
    if op.OpNextChannel? {
      hide Inv, NextChannel;
      ReadingSwitch(r);
    } else {
      hide Inv, Step;
      match op
      case OpPick => ReadingPick(r, op);
      case OpPush(_, _, _) => ReadingText(r, op);
      case OpPushWith(_, _, _, _, _) => ReadingText(r, op);
      case OpAppend(_, _, _, _) => ReadingText(r, op);
      case OpDrop(_, _) => ReadingText(r, op);
      case OpEndBatch(_) => ReadingText(r, op);
      case OpSetAside(_, _, _) => ReadingText(r, op);
      case OpRevise(_, _, _) => ReadingText(r, op);
      case OpRewind(_, _) => ReadingFloor(r, op);
      case OpFlush(_) => ReadingFloor(r, op);
      case OpFlushAll => ReadingFloor(r, op);
      case OpTakeFloor(_) => ReadingFloor(r, op);
      case OpReadAt(_, _, _) => ReadingFloor(r, op);
      case _ => ReadingRest(r, op);
    }
  }

  lemma {:induction false} FlushedAll(r: Router, id: Id)
    requires id in r.chans
    ensures var r' := FlushAll(r).0;
            && id in r'.chans && Pending(r'.chans[id]) == 0 && r'.chans[id].growing == r.chans[id].growing
                && r'.reading == r.reading
  {
    EndOfBatch(r.chans[id]);
    hide Pending, TotalPending;
  }

  lemma {:induction false} FedRested(r: Router, id: Id)
    requires Rested(r, id)
    ensures SameAt(r, NextFeed(r).0, id) && !IsReading(NextFeed(r).0, id)
  {
    hide Inv, NextFeed, Unread;
    FeedCounts(r);
    PendingIs(r.chans[id]);
  }

  lemma {:induction false} RestedStep(r: Router, op: Op, id: Id)
    requires Rested(r, id) && Elsewhere(op, id)
    ensures Rested(Step(r, op).0, id)
  {
    StepKeeps(r, op);
    if op.OpNextFeed? {
      hide Inv, NextFeed, Pending;
      FedRested(r, id);
    } else if op.OpFlushAll? {
      hide Inv, FlushAll, Pending;
      FlushedAll(r, id);
    } else {
      hide Inv, Step, Pending;
      Untouched(r, op, id);
      ReadingStays(r, op);
    }
  }

  lemma {:induction false} FirstText(r: Router, op: Op, id: Id)
    requires Rested(r, id) && op.OpAppend? && op.id == id
    ensures var r' := Step(r, op).0;
            Growing(r', id) && Texts(r'.chans[id].entries) == [op.text]
  {
    hide Inv, Pending;
    StepKeeps(r, op);
    var c, e := r.chans[id], Entry(r.nextEntry + 1, op.text, None);
    assert PushEntry(c, e, false, false, false).entries == [e];
  }

  lemma {:induction false} ElsewhereKeeps(op: Op, id: Id)
    requires Elsewhere(op, id)
    ensures KeepsBatch(op, id)
  {
  }

  /** The agent's message: from a rested channel on, whatever is fed and whatever happens in other
      channels, the batch is every text appended, in order, and nothing else. */
  lemma {:induction false} BatchIsTheMessage(r: Router, ops: seq<Op>, id: Id)
    requires Rested(r, id)
    requires forall op :: op in ops ==> Elsewhere(op, id) || (op.OpAppend? && op.id == id)
    ensures var r' := Run(r, ops).0;
            if Appended(ops, id) == [] then Rested(r', id)
            else Growing(r', id) && Texts(r'.chans[id].entries) == Appended(ops, id)
    decreases |ops|
  {
    hide Inv, Step, Texts, Elsewhere, KeepsBatch, Rested;
    if ops != [] {
      var op, rest, r1 := ops[0], ops[1..], Step(r, ops[0]).0;
      assert Elsewhere(op, id) || (op.OpAppend? && op.id == id) by { assert op in ops; }
      if op.OpAppend? && op.id == id {
        FirstText(r, op, id);
        forall o | o in rest ensures KeepsBatch(o, id) {
          assert o in ops;
          if Elsewhere(o, id) {
            ElsewhereKeeps(o, id);
          } else {
            AppendKeepsBatch(o, id);
          }
        }
        BatchGrows(r1, rest, id);
      } else {
        RestedStep(r, op, id);
        BatchIsTheMessage(r1, rest, id);
      }
    }
  }

  lemma {:induction false} AppendKeepsBatch(op: Op, id: Id)
    requires op.OpAppend?
    ensures KeepsBatch(op, id)
  {
  }

  // ---- Stored text -----------------------------------------------------------

  /** Entry `x` is not in front of `id`'s cursor. */
  ghost predicate Behind(r: Router, id: Id, x: nat) {
    Inv(r) && x <= r.nextEntry && (id in r.chans ==> NotAhead(r.chans[id], x))
  }

  ghost predicate NotAhead(c: Chan, x: nat) {
    forall k :: c.cursor <= k < |c.entries| ==> c.entries[k].id != x
  }

  /** A return by hand, or stepping back over `x` itself. */
  predicate ByHand(op: Op, id: Id, x: nat) {
    op.OpNextChannel? || (op.OpReadAt? && op.id == id) || op == OpRewind(id, x)
  }

  /** Text stored while nothing is unread or being read is behind the cursor. */
  lemma {:induction false} StoredIsBehind(r: Router, id: Id, text: string, decision: bool)
    requires Inv(r) && id in r.chans && Pending(r.chans[id]) == 0 && !IsReading(r, id)
    ensures Behind(Append(r, id, text, decision, true).0, id, r.nextEntry + 1)
  {
    hide Inv, Pending, PushEntry;
    AppendKeeps(r, id, text, decision, true);
  }

  lemma {:induction false} PushNotAhead(c: Chan, e: Entry, replace: bool, front: bool, reading: bool, x: nat)
    requires NotAhead(c, x) && e.id != x && c.cursor <= |c.entries|
    ensures NotAhead(PushEntry(c, e, replace, front, reading), x)
  {
    hide CaughtUp;
  }

  lemma {:induction false} PushedBehind(r: Router, id: Id, text: string, title: Option<string>, replace: bool,
      front: bool, x: nat)
    requires Behind(r, id, x) && id in r.chans
    ensures var r' := PushWith(r, id, text, title, replace, front).0;
            r'.nextEntry >= r.nextEntry && id in r'.chans && NotAhead(r'.chans[id], x)
  {
    hide Inv, PushEntry, NotAhead;
    ChanIn(r, id);
    PushNotAhead(r.chans[id], Entry(r.nextEntry + 1, text, title), replace, front, IsReading(r, id), x);
  }

  lemma {:induction false} AppendedBehind(r: Router, id: Id, text: string, decision: bool, heard: bool, x: nat)
    requires Behind(r, id, x) && id in r.chans
    ensures var r' := Append(r, id, text, decision, heard).0;
            r'.nextEntry >= r.nextEntry && id in r'.chans && NotAhead(r'.chans[id], x)
  {
    hide Inv, PushWith, NotAhead, Pending;
    PushedBehind(r, id, text, None, false, false, x);
    var r1, r' := PushWith(r, id, text, None, false, false).0, Append(r, id, text, decision, heard).0;
    LaterCursor(r1.chans[id], r'.chans[id], x);
    PushNumbers(r, id, text, None, false, false);
  }

  lemma {:induction false} TextBehind(r: Router, op: Op, id: Id, x: nat)
    requires Behind(r, id, x) && (op.OpPush? || op.OpPushWith? || op.OpAppend?) && op.id == id
    ensures var r' := Step(r, op).0; r'.nextEntry >= r.nextEntry && (id in r'.chans ==> NotAhead(r'.chans[id], x))
  {
    hide Behind, PushWith, Append, NotAhead;
    if id in r.chans {
      match op
      case OpPush(_, text, title) => PushedBehind(r, id, text, title, r.chans[id].policy.Latest?, false, x);
      case OpPushWith(_, text, title, replace, front) => PushedBehind(r, id, text, title, replace, front, x);
      case OpAppend(_, text, decision, heard) => AppendedBehind(r, id, text, decision, heard, x);
    } else {
      NoText(r, op, id);
    }
  }

  lemma {:induction false} NoText(r: Router, op: Op, id: Id)
    requires id !in r.chans && (op.OpPush? || op.OpPushWith? || op.OpAppend?) && op.id == id
    ensures Step(r, op).0 == r
  {
  }

  lemma {:induction false} LaterCursor(c: Chan, c': Chan, x: nat)
    requires NotAhead(c, x) && c'.entries == c.entries && (c'.cursor >= c.cursor || c'.cursor == |c.entries|)
    ensures NotAhead(c', x)
  {
  }

  lemma {:induction false} DropBehind(c: Chan, which: Resolved, last: nat, x: nat)
    requires ChanOk(c, last) && NotAhead(c, x)
    ensures NotAhead(DropThe(c, which).0, x)
  {
    hide Unique, Numbered, Has, DropThe, Goes;
    DropOk(c, which, last);
    var c' := DropThe(c, which).0;
    forall k | c'.cursor <= k < |c'.entries| ensures c'.entries[k].id != x {
      assert c'.entries[k] in c'.entries[c'.cursor..];
      assert c'.entries[k] in c.entries[c.cursor..];
    }
  }

  lemma {:induction false} BatchBehind(r: Router, op: Op, id: Id, x: nat)
    requires Behind(r, id, x) && !ByHand(op, id, x) && Touches(op, id)
    requires op.OpEndBatch? || op.OpSetAside? || op.OpRevise? || op.OpFlush? || op.OpFlushAll? || op.OpRewind?
    ensures var r' := Step(r, op).0; r'.nextEntry >= r.nextEntry && (id in r'.chans ==> NotAhead(r'.chans[id], x))
  {
    hide Inv, Where, Pending, TotalPending;
  }

  lemma {:induction false} RecordBehind(r: Router, op: Op, id: Id, x: nat)
    requires Behind(r, id, x) && (op.OpOpen? || op.OpLabel? || op.OpMute? || op.OpClose?) && Touches(op, id)
    ensures var r' := Step(r, op).0; r'.nextEntry >= r.nextEntry && (id in r'.chans ==> NotAhead(r'.chans[id], x))
  {
    hide Inv, Without;
  }

  lemma {:induction false} FeedBehind(r: Router, id: Id, x: nat)
    requires Behind(r, id, x)
    ensures var (r', fed) := NextFeed(r);
            && Behind(r', id, x)
            && (fed.Some? && fed.value.Read? && fed.value.channel == id ==> fed.value.entry.id != x)
  {
    hide Inv, NextFeed, Unread, NotAhead;
    NextFeedKeeps(r);
    FeedNumbers(r);
    FeedCounts(r);
    if id in r.chans {
      UnreadAhead(r.chans[id], x);
      MovedOn(r, id);
      LaterCursor(r.chans[id], NextFeed(r).0.chans[id], x);
    }
  }

  lemma {:induction false} UnreadAhead(c: Chan, x: nat)
    requires NotAhead(c, x)
    ensures forall e :: e in Unread(c) ==> e.id != x
  {
    NotAsideFrom(Ahead(c), c.aside);
  }

  lemma {:induction false} NotAsideFrom(entries: seq<Entry>, aside: set<nat>)
    ensures forall e :: e in NotAside(entries, aside) ==> e in entries
  {
    if entries != [] {
      NotAsideFrom(entries[1..], aside);
    }
  }

  /** Feeding moves a cursor only forward. */
  lemma {:induction false} MovedOn(r: Router, id: Id)
    requires Inv(r) && id in r.chans
    ensures var r' := NextFeed(r).0;
            id in r'.chans && r'.chans[id].entries == r.chans[id].entries && r'.chans[id].cursor >= r.chans[id].cursor
  {
    hide Inv, NextFeed, Unread;
    FeedCounts(r);
  }

  lemma {:induction false} DroppedBehind(r: Router, op: Op, id: Id, x: nat)
    requires Inv(r) && op.OpDrop? && op.id == id && id in r.chans && NotAhead(r.chans[id], x)
    ensures var r' := Step(r, op).0; r'.nextEntry >= r.nextEntry && id in r'.chans && NotAhead(r'.chans[id], x)
  {
    hide OrderOk, NamesOk, FloorOk, DropThe, NotAhead, ChanOk;
    DropBehind(r.chans[id], op.which, r.nextEntry, x);
  }

  /** No operation but a return by hand reads stored text. */
  lemma {:induction false} BehindStep(r: Router, op: Op, id: Id, x: nat)
    requires Behind(r, id, x) && !ByHand(op, id, x)
    ensures var (r', fed) := Step(r, op);
            && Behind(r', id, x)
            && (fed.Some? && fed.value.Read? && fed.value.channel == id ==> fed.value.entry.id != x)
  {
    StepKeeps(r, op);
    if op.OpNextFeed? {
      hide Inv, NextFeed, NotAhead;
      FeedBehind(r, id, x);
    } else {
      hide Inv, Step, NotAhead;
      NothingFedBy(r, op);
      NumbersGrow(r, op);
      if !Touches(op, id) {
        Untouched(r, op, id);
      } else if op.OpPush? || op.OpPushWith? || op.OpAppend? {
        TextBehind(r, op, id, x);
      } else if op.OpDrop? {
        if id in r.chans {
          DroppedBehind(r, op, id, x);
        } else {
          DropNowhere(r, op, id);
        }
      } else if op.OpOpen? || op.OpLabel? || op.OpMute? || op.OpClose? {
        RecordBehind(r, op, id, x);
      } else {
        BatchBehind(r, op, id, x);
      }
    }
  }

  lemma {:induction false} DropNowhere(r: Router, op: Op, id: Id)
    requires op.OpDrop? && op.id == id && id !in r.chans
    ensures id !in Step(r, op).0.chans
  {
  }

  lemma {:induction false} NumbersGrow(r: Router, op: Op)
    requires Inv(r) && !op.OpNextFeed?
    ensures Step(r, op).0.nextEntry >= r.nextEntry
  {
    if op.OpNextChannel? {
      hide Inv, NextChannel;
      NumbersSwitch(r);
    } else if op.OpPick? {
      hide Inv, Pick;
      PickKeeps(r);
    } else if op.OpPush? || op.OpPushWith? || op.OpAppend? || op.OpDrop? || op.OpEndBatch? {
      hide Inv, Step;
      ActiveText(r, op, "");
    } else {
      hide Inv, PushEntry, Pending, IsHandoff, DropThe, Where, SkipToEnd, StepBack, CaughtUp, Without, Ready,
          Suppressed, TotalPending;
    }
  }

  lemma {:induction false} NumbersSwitch(r: Router)
    ensures NextChannel(r).0.nextEntry == r.nextEntry
  {
    hide NextTarget, CaughtUp, Engaged;
  }

  /** Stored text is never fed without a return by hand, in any run: not after an unmute, a focus, a
      reopening or new text either. */
  lemma {:induction false} StoredWaits(r: Router, ops: seq<Op>, id: Id, x: nat)
    requires Behind(r, id, x)
    requires forall op :: op in ops ==> !ByHand(op, id, x)
    ensures forall fed :: fed in Run(r, ops).1 && fed.Read? && fed.channel == id ==> fed.entry.id != x
    decreases |ops|
  {
    hide Behind, Step, ByHand;
    if ops != [] {
      var (r1, fed) := Step(r, ops[0]);
      assert !ByHand(ops[0], id, x) by { assert ops[0] in ops; }
      BehindStep(r, ops[0], id, x);
      StoredWaits(r1, ops[1..], id, x);
      assert Run(r, ops).1 == (if fed.Some? then [fed.value] else []) + Run(r1, ops[1..]).1;
    }
  }
}
