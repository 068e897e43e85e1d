/** Every hand-off is announced: between an entry of one channel and an entry of another. */
module RouterHandoffs {
  import opened Options
  import opened RouterModel
  import opened RouterInvariants
  import opened RouterFeeding

  // `last`: the channel of the entry fed last. `told`: the channels announced since. `excused`: the
  // channels whose armed announcement was dropped since, or that took the floor in the host tab of
  // the closed last reader.
  datatype History = History(last: Option<Id>, told: set<Id>, excused: set<Id>)

  const NEVER := History(None, {}, {})

  /** `id` is in the host tab of the last reader, which closed. */
  predicate SharesTab(r: Router, id: Id) {
    id in r.chans && r.chans[id].hostTab.Some? && r.chans[id].hostTab == r.closedReaderTab
  }

  /** `op` drops an armed announcement: a flush of its channel or of all, clearing it, closing its channel. */
  predicate Disarms(r: Router, op: Op) {
    r.announce.Some? &&
    (op.OpFlushAll? || op.OpClearAnnounce? || op == OpFlush(r.announce.value.channel) || op
        == OpClose(r.announce.value.channel))
  }

  function Excused(r: Router, op: Op): set<Id> {
    var r' := Step(r, op).0;
    (if Disarms(r, op) then {r.announce.value.channel} else {})
    + (if r'.lastReader.Some? && SharesTab(r, r'.lastReader.value) then {r'.lastReader.value} else {})
  }

  function Note(r: Router, h: History, op: Op): History {
    match Step(r, op).1
    case None => h.(excused := h.excused + Excused(r, op))
    case Some(Announce(id, _, _, _)) => h.(told := h.told + {id}, excused := h.excused + Excused(r, op))
    case Some(Read(id, _)) => History(Some(id), {}, {})
  }

  function After(r: Router, h: History, ops: seq<Op>): History
    decreases |ops|
  {
    if ops == [] then h else After(Step(r, ops[0]).0, Note(r, h, ops[0]), ops[1..])
  }

  /** An entry of `id` needs no announcement: nothing was read before, or `id` read last, or `id`
      was announced, or excused. */
  predicate Cleared(h: History, id: Id) {
    h.last == None || h.last == Some(id) || id in h.told || id in h.excused
  }

  /** The last reader is cleared, or its announcement is still to come. */
  ghost predicate Told(r: Router, h: History) {
    && (h.last.Some? ==> r.lastReader.Some?)
    && (r.lastReader.Some? ==> Cleared(h, r.lastReader.value) || r.announce.Some?)
  }

  /** How the reader of record and the armed announcement may change. */
  ghost predicate Moves(r: Router, r': Router, op: Op) {
    && (r.lastReader.Some? ==> r'.lastReader.Some?)
    && (r'.lastReader == r.lastReader && r.announce.Some? && r'.announce == None ==> Disarms(r, op))
    && (r'.lastReader != r.lastReader && r.lastReader.Some? && r'.announce == None ==>
        SharesTab(r, r'.lastReader.value))
  }

  lemma {:induction false} TextMoves(r: Router, op: Op)
    requires op.OpPush? || op.OpPushWith? || op.OpAppend? || op.OpDrop? || op.OpEndBatch?
    ensures Moves(r, Step(r, op).0, op)
  {
    hide PushEntry, Pending, DropThe;
  }

  lemma {:induction false} BatchMoves(r: Router, op: Op)
    requires op.OpSetAside? || op.OpRevise? || op.OpRewind?
    ensures Moves(r, Step(r, op).0, op)
  {
    hide Where, StepBack;
  }

  lemma {:induction false} FlushMoves(r: Router, op: Op)
    requires op.OpFlush? || op.OpFlushAll? || op.OpClearAnnounce?
    ensures Moves(r, Step(r, op).0, op)
  {
    hide SkipToEnd, TotalPending;
  }

  lemma {:induction false} PickMoves(r: Router, op: Op)
    requires Inv(r) && op.OpPick?
    ensures Moves(r, Step(r, op).0, op)
  {
    PickKeeps(r);
    hide Inv, Pick;
  }

  lemma {:induction false} FloorMoves(r: Router, op: Op)
    requires Inv(r) && op.OpTakeFloor?
    ensures Moves(r, Step(r, op).0, op)
  {
    if r.announce.Some? && r.announce.value.channel != op.id {
      ArmedMeansHandoff(r, op.id);
    }
    hide ChansOk, OrderOk, NamesOk;
  }

  lemma {:induction false} ReadMoves(r: Router, op: Op)
    requires Inv(r) && op.OpReadAt?
    ensures Moves(r, Step(r, op).0, op)
  {
    hide ChansOk, OrderOk, NamesOk, Where;
  }

  lemma {:induction false} SwitchMoves(r: Router, op: Op)
    requires Inv(r) && op.OpNextChannel?
    ensures Moves(r, Step(r, op).0, op)
  {
    SwitchArms(r);
    hide Inv, NextChannel;
  }

  /** A manual switch changes nothing or arms an announcement. */
  lemma {:induction false} SwitchArms(r: Router)
    requires Inv(r)
    ensures var r' := NextChannel(r).0; r' == r || (r'.announce.Some? && r'.lastReader.Some?)
  {
    if r.order == [] {
      NoRing(r);
    } else {
      NextChannelIs(r);
    }
    hide Inv, NextTarget, CaughtUp, Engaged, NextChannel;
  }

  lemma {:induction false} NoRing(r: Router)
    requires r.order == []
    ensures NextChannel(r).0 == r
  {
    hide NextTarget, CaughtUp, Engaged;
  }

  lemma {:induction false} RestMoves(r: Router, op: Op)
    requires op.OpOpen? || op.OpLabel? || op.OpClose? || op.OpFocus? || op.OpMute? || op.OpFocusOnly?
             || op.OpAuthorize? || op.OpAskSuppressed? || op.OpPrioritize? || op.OpDone?
    ensures Moves(r, Step(r, op).0, op)
  {
    hide Without, Ready, Suppressed;
  }

  lemma {:induction false} OpMoves(r: Router, op: Op)
    requires Inv(r) && !op.OpNextFeed?
    ensures Moves(r, Step(r, op).0, op)
  {
    hide Inv, Step, Moves;
    match op
    case OpPick => PickMoves(r, op);
    case OpTakeFloor(_) => FloorMoves(r, op);
    case OpReadAt(_, _, _) => ReadMoves(r, op);
    case OpNextChannel => SwitchMoves(r, op);
    case OpPush(_, _, _) => TextMoves(r, op);
    case OpPushWith(_, _, _, _, _) => TextMoves(r, op);
    case OpAppend(_, _, _, _) => TextMoves(r, op);
    case OpDrop(_, _) => TextMoves(r, op);
    case OpEndBatch(_) => TextMoves(r, op);
    case OpSetAside(_, _, _) => BatchMoves(r, op);
    case OpRevise(_, _, _) => BatchMoves(r, op);
    case OpRewind(_, _) => BatchMoves(r, op);
    case OpFlush(_) => FlushMoves(r, op);
    case OpFlushAll => FlushMoves(r, op);
    case OpClearAnnounce => FlushMoves(r, op);
    case _ => RestMoves(r, op);
  }

  /** What feeding does to them. */
  ghost predicate FeedMoves(r: Router, r': Router, fed: Option<Feed>) {
    && r'.announce == None
    && (fed == None ==> r'.lastReader == r.lastReader && r.announce == None)
    && (fed.Some? ==> r'.lastReader == Some(fed.value.channel))
    && (fed.Some? && fed.value.Read? ==>
          r.announce == None &&
          (r.lastReader == None || r.lastReader == Some(fed.value.channel) || SharesTab(r, fed.value.channel)))
  }

  lemma {:induction false} FeedMovesSo(r: Router)
    requires Inv(r)
    ensures FeedMoves(r, NextFeed(r).0, NextFeed(r).1)
  {
    hide Inv, NextFeed, Unread, Pending;
    NextFeedKeeps(r);
    FeedCounts(r);
    LastIsActive(r);
    LastIsActive(NextFeed(r).0);
    if r.announce.Some? {
      AnnouncedFirst(r);
    } else {
      FeedFromMoves(r);
    }
  }

  lemma {:induction false} FeedFromMoves(r: Router)
    requires Inv(r) && r.announce == None
    ensures var (r', fed) := NextFeed(r);
            && (fed == None ==> r'.lastReader == r.lastReader)
            && (fed.Some? && fed.value.Read? ==>
                Some(fed.value.channel) == r.active || !IsHandoff(r, fed.value.channel))
  {
    hide Inv, NextFeed, Unread, Pick, FeedFrom, FeedEntry, Pending, Audible, FeedAnnounce, IsHandoff;
    FeedCases(r);
    AnnounceSome(r);
    var r0 := r.(reading := None);
    EndsKeep(r, "");
    PickKeeps(r0);
    var (r1, t) := Pick(r0);
    if t.Some? {
      FedIs(r1, t.value);
      SameReader(r, r1, t.value);
    }
  }

  lemma {:induction false} SameReader(r: Router, r': Router, id: Id)
    requires r'.lastReader == r.lastReader && r'.closedReaderTab == r.closedReaderTab && r'.chans == r.chans
    ensures IsHandoff(r', id) <==> IsHandoff(r, id)
  {
  }

  lemma {:induction false} FedIs(r: Router, id: Id)
    ensures FeedEntry(r, id).1.Some? ==> FeedEntry(r, id).1.value.channel == id
    ensures FeedEntry(SetReader(r, id), id).1.Some? ==> FeedEntry(SetReader(r, id), id).1.value.channel == id
    ensures id in r.chans ==> FeedAnnounce(Arm(SetReader(r, id), id, false, false)).1.value.Announce?
  {
    hide TakeEntry, Pending;
  }

  lemma {:induction false} LastIsActive(r: Router)
    requires Inv(r)
    ensures r.active.Some? ==> r.lastReader == r.active
  {
    hide ChansOk, OrderOk, NamesOk;
  }

  /** One operation: an entry is fed only of a cleared channel. */
  lemma {:induction false} ToldStep(r: Router, h: History, op: Op)
    requires Inv(r) && Told(r, h)
    ensures Told(Step(r, op).0, Note(r, h, op))
    ensures var fed := Step(r, op).1;
            fed.Some? && fed.value.Read? ==>
              Cleared(h, fed.value.channel) || SharesTab(r, fed.value.channel)
  {
    if op.OpNextFeed? {
      FeedMovesSo(r);
      hide Inv, NextFeed;
    } else {
      OpMoves(r, op);
      NothingElseFeeds(r, op);
      hide Inv, Step;
    }
  }

  lemma {:induction false} NothingElseFeeds(r: Router, op: Op)
    requires !op.OpNextFeed?
    ensures Step(r, op).1 == None
  {
    hide Open, LabelIfMissing, Close, Focus, SetMuted, Authorize, PushWith, Append, DropDecisions, EndBatch;
    hide AskSuppressed, Prioritize, Pick, NextFeed, Done, ClearAnnounce, NextChannel, TakeFloor, ReadAt, SetAside;
    hide Revise, FlushOne, FlushAll, Rewind, Push, HasWork;
  }

  lemma {:induction false} ToldRun(r: Router, h: History, ops: seq<Op>)
    requires Inv(r) && Told(r, h)
    ensures Inv(Run(r, ops).0) && Told(Run(r, ops).0, After(r, h, ops))
    decreases |ops|
  {
    hide Inv, Told, Step, Note;
    if ops != [] {
      StepKeeps(r, ops[0]);
      ToldStep(r, h, ops[0]);
      ToldRun(Step(r, ops[0]).0, Note(r, h, ops[0]), ops[1..]);
    }
  }

  /** In every run, an entry of `b` after an entry of another channel has an announcement of `b`
      between them, unless that announcement was armed and dropped, or `b` replaces the closed last
      reader in its host tab. */
  lemma {:induction false} HandoffsAnnounced(r: Router, ops: seq<Op>, op: Op, b: Id)
    requires Inv(r)
    requires var fed := Step(Run(r, ops).0, op).1; fed.Some? && fed.value.Read? && fed.value.channel == b
    ensures var h := After(r, NEVER, ops);
            h.last == None || h.last == Some(b) || b in h.told || b in h.excused || SharesTab(Run(r, ops).0, b)
  {
    hide Inv, Step, Run, After;
    ToldStart(r, ops);
    ToldStep(Run(r, ops).0, After(r, NEVER, ops), op);
  }

  lemma {:induction false} ToldStart(r: Router, ops: seq<Op>)
    requires Inv(r)
    ensures Inv(Run(r, ops).0) && Told(Run(r, ops).0, After(r, NEVER, ops))
  {
    ToldRun(r, NEVER, ops);
  }

  // ---- Where it fails --------------------------------------------------------

  /** `b` closes, comes back (in any host tab) and gets a text. */
  function Reopened(r: Router, b: Id, tab: Option<string>, text: string): Router {
    PushWith(Open(Close(r, b).0, b, None, tab, Some(Queue)).0, b, text, None, false, false).0
  }

  lemma {:induction false} ClosedShape(r: Router, b: Id)
    requires Inv(r) && b in r.chans && r.lastReader == Some(b) && r.active == Some(b)
    ensures var r' := Close(r, b).0;
            && b !in r'.chans && r'.announce == (if r.announce.Some? && r.announce.value.channel == b then None
                else r.announce)
            && r'.lastReader == Some(b) && r'.active == None && b !in r'.suppressed
            && r'.focusOnly == r.focusOnly && r'.muted == r.muted
            && (forall x :: x != b ==> SameChan(r, r', x))
  {
    hide Inv, Without;
  }

  ghost predicate SameChan(r: Router, r': Router, x: Id) {
    (x in r'.chans <==> x in r.chans) && (x in r.chans ==> r'.chans[x] == r.chans[x])
  }

  lemma {:induction false} FreshPush(c: Chan, e: Entry)
    requires c.entries == [] && c.cursor == 0 && c.aside == {}
    ensures Unread(PushEntry(c, e, false, false, false)) == [e] && PushEntry(c, e, false, false, false).muted == c.muted
  {
    var c' := PushEntry(c, e, false, false, false);
    assert c'.entries == [e] && c'.aside == {} && c'.cursor == 0;
    assert Ahead(c') == [e];
    assert [e][1..] == [] && NotAside([], {}) == [];
    assert NotAside([e], {}) == [e];
  }

  lemma {:induction false} OpenedShape(r: Router, b: Id, tab: Option<string>, text: string)
    requires b !in r.chans && b !in r.muted && !IsReading(r, b)
    ensures var r' := PushWith(Open(r, b, None, tab, Some(Queue)).0, b, text, None, false, false).0;
            && b in r'.chans && Unread(r'.chans[b]) == [Entry(r.nextEntry + 1, text, None)] && !r'.chans[b].muted
            && r' == r.(chans := r.chans[b := r'.chans[b]], order := r.order + [b], nextEntry := r.nextEntry + 1)
  {
    FreshPush(Fresh(None, tab, Queue, false), Entry(r.nextEntry + 1, text, None));
    hide PushEntry, Unread;
  }

  lemma {:induction false} ReopenedInv(r: Router, b: Id, tab: Option<string>, text: string)
    requires Inv(r)
    ensures Inv(Reopened(r, b, tab, text))
  {
    hide Inv, Close, Open, PushWith;
    CloseKeeps(r, b);
    OpenKeeps(Close(r, b).0, b, None, tab, Some(Queue));
    PushKeeps(Open(Close(r, b).0, b, None, tab, Some(Queue)).0, b, text, None, false, false);
  }

  lemma {:induction false} ReopenedShape(r: Router, b: Id, tab: Option<string>, text: string)
    requires Inv(r) && r.announce.Some? && r.announce.value.channel == b && b !in r.muted
    ensures var r' := Reopened(r, b, tab, text);
            && r'.announce == None && r'.lastReader == Some(b)
            && b in r'.chans && |Unread(r'.chans[b])| == 1 && Unread(r'.chans[b])[0].text == text && !r'.chans[b].muted
            && b !in r'.suppressed && r'.focusOnly == r.focusOnly
            && (forall x :: x != b ==> SameChan(r, r', x))
  {
    hide Inv, Close, Open, PushWith, Unread, IsReading;
    AnnouncedOpen(r);
    LastIsActive(r);
    CloseKeeps(r, b);
    ClosedShape(r, b);
    var r1 := Close(r, b).0;
    NotReading(r1, b);
    OpenedShape(r1, b, tab, text);
    forall x | x != b ensures SameChan(r, Reopened(r, b, tab, text), x) {
      assert SameChan(r, r1, x);
    }
  }

  lemma {:induction false} NotReading(r: Router, b: Id)
    requires Inv(r) && b !in r.chans
    ensures !IsReading(r, b)
  {
    hide ChansOk, OrderOk, FloorOk;
  }

  lemma {:induction false} ReopenedFeeds(r: Router, b: Id, tab: Option<string>, text: string)
    requires Inv(r) && r.announce.Some? && r.announce.value.channel == b && b !in r.muted && !r.focusOnly
    requires forall x :: Audible(r, x) ==> x == b
    ensures var fed := NextFeed(Reopened(r, b, tab, text)).1;
            fed.Some? && fed.value.Read? && fed.value.channel == b && fed.value.entry.text == text
  {
    hide Inv, NextFeed, Reopened, Unread, Audible, Ready, Gated, Suppressed, SameChan;
    var r' := Reopened(r, b, tab, text);
    ReopenedInv(r, b, tab, text);
    ReopenedShape(r, b, tab, text);
    FeedsSomething(r', b);
    FeedCounts(r');
    OnlyAudible(r, r', b);
    if NextFeed(r').1.value.Announce? {
      AnnouncedHandoff(r');
    }
  }

  function Reopening(b: Id, tab: Option<string>, text: string): seq<Op> {
    [OpClose(b), OpOpen(b, None, tab, Some(Queue)), OpPushWith(b, text, None, false, false)]
  }

  lemma {:induction false} QuietNote(r: Router, h: History, op: Op)
    requires !op.OpNextFeed?
    ensures Note(r, h, op).last == h.last && Note(r, h, op).told == h.told
  {
    hide Step, Excused;
    NothingElseFeeds(r, op);
  }

  lemma {:induction false} QuietAfter(r: Router, h: History, ops: seq<Op>)
    requires forall op :: op in ops ==> !op.OpNextFeed?
    ensures After(r, h, ops).last == h.last && After(r, h, ops).told == h.told
    decreases |ops|
  {
    hide Step, Note;
    if ops != [] {
      assert ops[0] in ops;
      QuietNote(r, h, ops[0]);
      QuietAfter(Step(r, ops[0]).0, Note(r, h, ops[0]), ops[1..]);
    }
  }

  lemma {:induction false} ReopeningRuns(r: Router, h: History, b: Id, tab: Option<string>, text: string)
    ensures Run(r, Reopening(b, tab, text)).0 == Reopened(r, b, tab, text)
    ensures After(r, h, Reopening(b, tab, text)).last == h.last && After(r, h, Reopening(b, tab, text)).told == h.told
  {
    hide Close, Open, PushWith, After;
    var ops := Reopening(b, tab, text);
    var r1 := Close(r, b).0;
    var r2 := Open(r1, b, None, tab, Some(Queue)).0;
    assert ops[1..] == [OpOpen(b, None, tab, Some(Queue)), OpPushWith(b, text, None, false, false)];
    assert ops[1..][1..] == [OpPushWith(b, text, None, false, false)];
    assert ops[1..][1..][1..] == [];
    assert Run(r2, ops[1..][1..]).0 == PushWith(r2, b, text, None, false, false).0;
    assert Run(r1, ops[1..]).0 == Run(r2, ops[1..][1..]).0;
    QuietAfter(r, h, ops);
  }

  /** A hand-off that is not announced: `a` was read last and `b`'s announcement is armed, not yet fed; `b`
      closes, comes back in any host tab and gets a text. The next feed is that text, with `b` still not
      announced since `a`'s entry: the close dropped the announcement, and `b` is the reader of record. */
  lemma {:induction false} ReopenedIsSilent(r: Router, h: History, a: Id, b: Id, tab: Option<string>, text: string)
    requires Inv(r) && r.announce.Some? && r.announce.value.channel == b && b !in r.muted && !r.focusOnly
    requires forall x :: Audible(r, x) ==> x == b
    requires h.last == Some(a) && a != b && b !in h.told
    ensures var ops := Reopening(b, tab, text);
            var fed, h' := Step(Run(r, ops).0, OpNextFeed).1, After(r, h, ops);
            && fed.Some? && fed.value.Read? && fed.value.channel == b && fed.value.entry.text == text
            && h'.last == Some(a) && b !in h'.told
  {
    hide Inv, NextFeed, Reopened, Run, After, Reopening, Audible;
    ReopenedFeeds(r, b, tab, text);
    ReopeningRuns(r, h, b, tab, text);
  }

  // ---- A run that leads there ------------------------------------------------

  /** `a` and `b` open, `a` gets a text. */
  function Opens(a: Id, b: Id, text: string): seq<Op> {
    [OpOpen(a, None, None, Some(Queue)), OpOpen(b, None, None, Some(Queue)), OpPushWith(a, text, None, false, false)]
  }

  /** `a`'s text is read, and `b` takes the floor with nothing to read. */
  function TakesOver(b: Id): seq<Op> {
    [OpNextFeed, OpTakeFloor(b)]
  }

  function Opened(a: Id, b: Id, text: string): Router {
    PushWith(Open(Open(EMPTY, a, None, None, Some(Queue)).0, b, None, None, Some(Queue)).0, a, text, None, false,
        false).0
  }

  /** `a`'s channel with the one text. */
  function Newly(text: string): Chan {
    PushEntry(Fresh(None, None, Queue, false), Entry(1, text, None), false, false, false)
  }

  /** Both open, `a`'s channel as `c`. */
  function Pair(a: Id, b: Id, c: Chan): Router {
    EMPTY.(order := [a, b], nextEntry := 1, chans := map[a := c, b := Fresh(None, None, Queue, false)])
  }

  lemma {:induction false} OpenedIs(a: Id, b: Id, text: string)
    requires a != b
    ensures Opened(a, b, text) == Pair(a, b, Newly(text))
  {
    hide PushEntry;
  }

  lemma {:induction false} PairPicks(a: Id, b: Id, c: Chan)
    requires a != b && Pending(c) > 0 && !c.muted
    ensures Pick(Pair(a, b, c)) == (Pair(a, b, c), Some(a))
  {
    hide Pending;
    var r := Pair(a, b, c);
    assert Prune(r) == r;
    assert Pickable(r, a) && AskPickable(r, a) == r;
    assert FirstPickable(r, r.order) == (r, Some(a));
  }

  lemma {:induction false} NewlyIs(text: string)
    ensures var c, e := Newly(text), Entry(1, text, None);
            Pending(c) == 1 && !c.muted && TakeEntry(c) == (c.(cursor := 1), Some(e)) && Pending(c.(cursor := 1)) == 0
  {
    var c, e := Newly(text), Entry(1, text, None);
    FreshPush(Fresh(None, None, Queue, false), e);
    assert c.entries == [e] && c.aside == {} && c.cursor == 0;
    assert SkipAside(c.entries, 0, c.aside) == 0;
    assert Ahead(c.(cursor := 1)) == [];
  }

  lemma {:induction false} PairFeeds(a: Id, b: Id, text: string)
    requires a != b
    ensures var c := Newly(text);
            NextFeed(Pair(a, b, c))
            == (SetReader(Pair(a, b, c.(cursor := 1)), a).(reading := Some((a, 1))),
                Some(Read(a, Entry(1, text, None))))
  {
    hide Pick, TakeEntry, Pending, Newly;
    NewlyIs(text);
    var c := Newly(text);
    PairPicks(a, b, c);
    var r := Pair(a, b, c);
    assert r.(reading := None).(announce := None) == r;
    var r1 := SetReader(r, a);
    assert NextFeed(r) == FeedFrom(r, a) == FeedEntry(r1, a);
    assert r1.chans[a := c.(cursor := 1)] == Pair(a, b, c.(cursor := 1)).chans;
    assert r1.authorized - {a} == {};
  }

  lemma {:induction false} OpensRun(a: Id, b: Id, text: string)
    ensures Run(EMPTY, Opens(a, b, text)).0 == Opened(a, b, text)
  {
    hide Open, PushWith;
    var ops := Opens(a, b, text);
    var r1 := Open(EMPTY, a, None, None, Some(Queue)).0;
    var r2 := Open(r1, b, None, None, Some(Queue)).0;
    assert ops[1..] == [OpOpen(b, None, None, Some(Queue)), OpPushWith(a, text, None, false, false)];
    assert ops[1..][1..] == [OpPushWith(a, text, None, false, false)];
    assert ops[1..][1..][1..] == [];
    assert Run(r2, ops[1..][1..]).0 == PushWith(r2, a, text, None, false, false).0;
    assert Run(r1, ops[1..]).0 == Run(r2, ops[1..][1..]).0;
  }

  lemma {:induction false} TakesOverRuns(r: Router, h: History, b: Id)
    ensures Run(r, TakesOver(b)).0 == TakeFloor(NextFeed(r).0, b).0
    ensures var h' := After(r, h, TakesOver(b));
        var h1 := Note(r, h, OpNextFeed); h'.last == h1.last && h'.told == h1.told
  {
    hide TakeFloor, NextFeed, Note;
    var ops := TakesOver(b);
    assert ops[1..] == [OpTakeFloor(b)];
    assert ops[1..][1..] == [];
    var r1 := NextFeed(r).0;
    assert Run(r1, ops[1..]).0 == TakeFloor(r1, b).0;
    QuietAfter(r1, Note(r, h, OpNextFeed), ops[1..]);
  }

  /** The state then: `b`'s announcement is armed, and nothing is audible. */
  lemma {:induction false} TakenOver(a: Id, b: Id, text: string)
    requires a != b
    ensures var r := TakeFloor(NextFeed(Opened(a, b, text)).0, b).0;
            && r.announce.Some? && r.announce.value.channel == b && r.muted == {} && !r.focusOnly && forall x ::
                !Audible(r, x)
  {
    hide NextFeed, TakeEntry, Newly, PushEntry, Opened, Pending;
    OpenedIs(a, b, text);
    PairFeeds(a, b, text);
    NewlyIs(text);
    NothingFresh();
  }

  lemma {:induction false} NothingFresh()
    ensures Pending(Fresh(None, None, Queue, false)) == 0
  {
  }

  lemma {:induction false} RunParts(r: Router, h: History, a: seq<Op>, b: seq<Op>)
    ensures Run(r, a + b).0 == Run(Run(r, a).0, b).0 && After(r, h, a + b) == After(Run(r, a).0, After(r, h, a), b)
    decreases |a|
  {
    hide Step, Note;
    if a == [] {
      assert a + b == b;
    } else {
      assert (a + b)[1..] == a[1..] + b;
      RunParts(Step(r, a[0]).0, Note(r, h, a[0]), a[1..], b);
    }
  }

  /** The case is reached: a run from the empty router after which `a`'s entry was read last and `b`'s, never
      announced, is read next. */
  lemma {:induction false} SilentHandoff(a: Id, b: Id, first: string, tab: Option<string>, text: string)
    requires a != b
    ensures var ops := Opens(a, b, first) + TakesOver(b) + Reopening(b, tab, text);
            var fed, h := Step(Run(EMPTY, ops).0, OpNextFeed).1, After(EMPTY, NEVER, ops);
            && fed.Some? && fed.value.Read? && fed.value.channel == b && h.last == Some(a) && b !in h.told
  {
    hide Run, After, Opens, TakesOver, Reopening, NextFeed, TakeFloor, Opened, Inv, Audible, Step;
    var before := Opens(a, b, first) + TakesOver(b);
    RunParts(EMPTY, NEVER, Opens(a, b, first), TakesOver(b));
    RunParts(EMPTY, NEVER, before, Reopening(b, tab, text));
    OpensRun(a, b, first);
    var r0, h0 := Opened(a, b, first), After(EMPTY, NEVER, Opens(a, b, first));
    TakesOverRuns(r0, h0, b);
    TakenOver(a, b, first);
    FirstRead(a, b, first, h0);
    EmptyOk();
    RunKeeps(EMPTY, before);
    ReopenedIsSilent(Run(EMPTY, before).0, After(EMPTY, NEVER, before), a, b, tab, text);
  }

  lemma {:induction false} FirstRead(a: Id, b: Id, text: string, h: History)
    requires a != b
    ensures var h1 := Note(Opened(a, b, text), h, OpNextFeed); h1.last == Some(a) && h1.told == {}
  {
    hide NextFeed, Newly, Opened, PushEntry, Excused;
    OpenedIs(a, b, text);
    PairFeeds(a, b, text);
  }

  lemma {:induction false} FeedsSomething(r: Router, b: Id)
    requires Inv(r) && b in r.chans && |Unread(r.chans[b])| == 1 && !r.chans[b].muted && !r.focusOnly
        && b !in r.suppressed
    ensures NextFeed(r).1.Some?
  {
    hide Inv, NextFeed, Unread, Ready, Gated, Suppressed;
    IsReady(r, b);
    NoGate(r, b);
    if NextFeed(r).1 == None {
      NothingFed(r);
    }
  }

  lemma {:induction false} IsReady(r: Router, b: Id)
    requires b in r.chans && |Unread(r.chans[b])| == 1
    ensures Ready(r, b)
  {
  }

  lemma {:induction false} NoGate(r: Router, b: Id)
    requires !r.focusOnly && b !in r.suppressed
    ensures !Gated(r, b) && !Suppressed(r, b)
  {
  }

  lemma {:induction false} OnlyAudible(r: Router, r': Router, b: Id)
    requires Inv(r') && r'.announce == None && NextFeed(r').1.Some?
    requires forall x :: Audible(r, x) ==> x == b
    requires forall x :: x != b ==> SameChan(r, r', x)
    ensures NextFeed(r').1.value.channel == b
  {
    hide Inv, NextFeed, Pending;
    AnnouncedAudible(r');
    var x := NextFeed(r').1.value.channel;
    assert x != b ==> SameChan(r, r', x);
    assert x != b ==> Audible(r, x);
  }

  /** An announcement nobody armed is of a channel that did not read last. */
  lemma {:induction false} AnnouncedHandoff(r: Router)
    requires Inv(r) && r.announce == None && NextFeed(r).1.Some? && NextFeed(r).1.value.Announce?
    ensures Some(NextFeed(r).1.value.channel) != r.lastReader
  {
    FeedCases(r);
    FeedCounts(r);
    var r0 := r.(reading := None);
    EndsKeep(r, "");
    PickKeeps(r0);
    hide Inv, NextFeed, Unread, Pick, FeedFrom, Pending, Audible, TakeEntry;
    var (r1, t) := Pick(r0);
    if t.Some? && !(r1.active != t && IsHandoff(r1, t.value)) {
      EntryFed(if r1.active != t then SetReader(r1, t.value) else r1, t.value);
    }
  }
}
