/** Who keeps the floor: the channel that reads is not preempted, and a replay is read to its end. */
module RouterFloor {
  import opened Options
  import opened RouterModel
  import opened RouterInvariants
  import opened RouterFeeding

  // ---- What an operation leaves alone ----------------------------------------

  /** `op` may change the record of channel `id`. */
  predicate Touches(op: Op, id: Id) {
    match op
    case OpOpen(x, _, _, _) => x == id
    case OpLabel(x, _) => x == id
    case OpClose(x) => x == id
    case OpMute(x, _) => x == id
    case OpPush(x, _, _) => x == id
    case OpPushWith(x, _, _, _, _) => x == id
    case OpAppend(x, _, _, _) => x == id
    case OpDrop(x, _) => x == id
    case OpEndBatch(x) => x == id
    case OpNextFeed => true
    case OpNextChannel => true
    case OpReadAt(x, _, _) => x == id
    case OpSetAside(x, _, _) => x == id
    case OpRevise(x, _, _) => x == id
    case OpFlush(x) => x == id
    case OpFlushAll => true
    case OpRewind(x, _) => x == id
    case _ => false
  }

  ghost predicate SameAt(r: Router, r': Router, id: Id) {
    (id in r'.chans <==> id in r.chans) && (id in r.chans ==> r'.chans[id] == r.chans[id])
  }

  lemma {:induction false} PickSameAt(r: Router, id: Id)
    requires Inv(r)
    ensures SameAt(r, HasWork(r).0, id) && HasWork(r).0.nextEntry == r.nextEntry
    ensures HasWork(r).0.active == r.active && HasWork(r).0.announce == r.announce
  {
    hide Pick, ChansOk, OrderOk, NamesOk, FloorOk;
    PickKeeps(r);
  }

  lemma {:induction false} UntouchedText(r: Router, op: Op, id: Id)
    requires !Touches(op, id) && (op.OpPush? || op.OpPushWith? || op.OpAppend?)
    ensures SameAt(r, Step(r, op).0, id)
  {
    hide PushEntry, Pending;
  }

  lemma {:induction false} UntouchedBatch(r: Router, op: Op, id: Id)
    requires !Touches(op, id) && (op.OpDrop? || op.OpEndBatch? || op.OpSetAside? || op.OpRevise? || op.OpFlush?
        || op.OpRewind?)
    ensures SameAt(r, Step(r, op).0, id)
  {
    hide DropThe, Where, SkipToEnd, StepBack;
  }

  lemma {:induction false} UntouchedFloor(r: Router, op: Op, id: Id)
    requires !Touches(op, id) && (op.OpTakeFloor? || op.OpReadAt?)
    ensures SameAt(r, Step(r, op).0, id)
  {
    hide IsHandoff, Where;
  }

  lemma {:induction false} UntouchedRest(r: Router, op: Op, id: Id)
    requires !Touches(op, id) && (op.OpOpen? || op.OpLabel? || op.OpClose? || op.OpFocus? || op.OpMute?
        || op.OpFocusOnly?
                                  || op.OpAuthorize? || op.OpAskSuppressed? || op.OpPrioritize? || op.OpDone? ||
                                      op.OpClearAnnounce?)
    ensures SameAt(r, Step(r, op).0, id)
  {
    hide Without, Ready, Suppressed;
  }

  lemma {:induction false} Untouched(r: Router, op: Op, id: Id)
    requires Inv(r) && !Touches(op, id)
    ensures SameAt(r, Step(r, op).0, id)
  {
    match op
    case OpPick =>
      PickSameAt(r, id);
      hide Inv, HasWork;
    case OpPush(_, _, _) => UntouchedText(r, op, id);
    case OpPushWith(_, _, _, _, _) => UntouchedText(r, op, id);
    case OpAppend(_, _, _, _) => UntouchedText(r, op, id);
    case OpDrop(_, _) => UntouchedBatch(r, op, id);
    case OpEndBatch(_) => UntouchedBatch(r, op, id);
    case OpSetAside(_, _, _) => UntouchedBatch(r, op, id);
    case OpRevise(_, _, _) => UntouchedBatch(r, op, id);
    case OpFlush(_) => UntouchedBatch(r, op, id);
    case OpRewind(_, _) => UntouchedBatch(r, op, id);
    case OpTakeFloor(_) => UntouchedFloor(r, op, id);
    case OpReadAt(_, _, _) => UntouchedFloor(r, op, id);
    case _ => UntouchedRest(r, op, id);
  }

  // ---- Keeping the floor -----------------------------------------------------

  /** `op` neither takes the floor from `a` nor drops what it has unread. New text of other
      channels, text added behind `a`'s own, priorities, focus, gates and mutes of others are all fine. */
  predicate LeavesFloor(op: Op, a: Id) {
    match op
    case OpClose(x) => x != a
    case OpMute(x, on) => x != a || !on
    case OpPush(x, _, _) => x != a
    case OpPushWith(x, _, _, replace, front) => x != a || (!replace && !front)
    case OpDrop(x, _) => x != a
    case OpNextChannel => false
    case OpTakeFloor(x) => x == a
    case OpReadAt(_, _, _) => false
    case OpSetAside(x, _, _) => x != a
    case OpRevise(x, _, _) => x != a
    case OpFlush(x) => x != a
    case OpFlushAll => false
    case OpRewind(x, _) => x != a
    case _ => true
  }

  function UpTo(entries: seq<Entry>, mark: nat): seq<Entry> {
    if entries == [] then []
    else if entries[0].id <= mark then [entries[0]] + UpTo(entries[1..], mark)
    else UpTo(entries[1..], mark)
  }

  /** What `a` has unread of the entries up to `mark`. */
  function Due(r: Router, a: Id, mark: nat): seq<Entry> {
    if a in r.chans then UpTo(Unread(r.chans[a]), mark) else []
  }

  lemma {:induction false} UpToAdds(s: seq<Entry>, t: seq<Entry>, mark: nat)
    ensures UpTo(s + t, mark) == UpTo(s, mark) + UpTo(t, mark)
  {
    if s == [] {
      assert s + t == t;
    } else {
      assert (s + t)[1..] == s[1..] + t;
      UpToAdds(s[1..], t, mark);
    }
  }

  lemma {:induction false} NotAsideAdds(s: seq<Entry>, t: seq<Entry>, aside: set<nat>)
    ensures NotAside(s + t, aside) == NotAside(s, aside) + NotAside(t, aside)
  {
    if s == [] {
      assert s + t == t;
    } else {
      assert (s + t)[1..] == s[1..] + t;
      NotAsideAdds(s[1..], t, aside);
    }
  }

  /** Text pushed behind what is unread leaves that unread, in front of it. */
  lemma {:induction false} PushBehind(c: Chan, e: Entry, reading: bool)
    requires c.cursor <= |c.entries| && Pending(c) > 0
    ensures var c' := PushEntry(c, e, false, false, reading);
            && Unread(c') == Unread(c) + NotAside([e], c.aside)
            && c'.cursor == c.cursor && c'.entries == c.entries + [e] && c'.aside == c.aside && c'.muted == c.muted
  {
    var c' := PushEntry(c, e, false, false, reading);
    assert c'.entries == c.entries + [e];
    assert c'.entries[c'.cursor..] == c.entries[c.cursor..] + [e];
    NotAsideAdds(c.entries[c.cursor..], [e], c.aside);
  }

  lemma {:induction false} DueSame(r: Router, r': Router, a: Id, mark: nat)
    requires SameAt(r, r', a)
    ensures Due(r', a, mark) == Due(r, a, mark)
  {
    hide Unread, UpTo;
  }

  lemma {:induction false} DueUnread(r: Router, a: Id, mark: nat)
    requires Due(r, a, mark) != []
    ensures a in r.chans && Pending(r.chans[a]) > 0
  {
  }

  /** What text appended to the floor's own channel changes. */
  lemma {:induction false} PushedDue(r: Router, a: Id, text: string, title: Option<string>, mark: nat)
    requires Inv(r) && Due(r, a, mark) != [] && mark <= r.nextEntry
    ensures var r' := PushWith(r, a, text, title, false, false).0;
            && a in r.chans && a in r'.chans
            && Due(r', a, mark) == Due(r, a, mark) && r'.chans[a].muted == r.chans[a].muted
            && r' == r.(chans := r.chans[a := r'.chans[a]], nextEntry := r.nextEntry + 1)
  {
    DueUnread(r, a, mark);
    ChanIn(r, a);
    var e := Entry(r.nextEntry + 1, text, title);
    PushBehind(r.chans[a], e, IsReading(r, a));
    UpToAdds(Unread(r.chans[a]), NotAside([e], r.chans[a].aside), mark);
    assert UpTo(NotAside([e], r.chans[a].aside), mark) == [];
    hide Inv, PushEntry, Unread, UpTo, NotAside, Pending;
  }

  lemma {:induction false} AppendedDue(r: Router, a: Id, text: string, decision: bool, heard: bool, mark: nat)
    requires Inv(r) && Due(r, a, mark) != [] && mark <= r.nextEntry
    ensures var r' := Append(r, a, text, decision, heard).0;
            && a in r.chans && a in r'.chans
            && Due(r', a, mark) == Due(r, a, mark) && r'.chans[a].muted == r.chans[a].muted
            && r' == r.(chans := r.chans[a := r'.chans[a]], nextEntry := r.nextEntry + 1)
  {
    DueUnread(r, a, mark);
    PushedDue(r, a, text, None, mark);
    var r1 := PushWith(r, a, text, None, false, false).0;
    hide Inv, PushWith, UpTo, Pending;
    var r' := Append(r, a, text, decision, heard).0;
    var c, c' := r1.chans[a], r'.chans[a];
    assert c' == c.(growing := true, agent := true, decisions := c'.decisions);
    SameUnread(c, c');
  }

  lemma {:induction false} SameUnread(c: Chan, c': Chan)
    requires c'.entries == c.entries && c'.cursor == c.cursor && c'.aside == c.aside
    ensures Unread(c') == Unread(c)
  {
  }

  /** `a` reads, unmuted; an armed announcement could only be its own. */
  ghost predicate HasFloor(r: Router, a: Id) {
    Inv(r) && r.active == Some(a) && a in r.chans && !r.chans[a].muted
  }

  lemma {:induction false} FloorPick(r: Router, a: Id)
    requires HasFloor(r, a) && Pending(r.chans[a]) > 0
    ensures Pick(r).1 == Some(a)
  {
    var r1 := Prune(r);
    SameAudible(r, r1, a);
    assert r1.hold == r.hold && r1.active == r.active;
    hide PickWaiting, Audible, Prune, ReadyOnes, Ready, ChansOk, OrderOk, NamesOk;
    SameAudible(r, r1.(hold := None), a);
    AudibleIs(r, a);
    assert Held(r1) ==> r1.hold.value.0 == a;
  }

  lemma {:induction false} AudibleIs(r: Router, id: Id)
    ensures Audible(r, id) <==> id in r.chans && Pending(r.chans[id]) > 0 && !r.chans[id].muted
  {
  }

  /** With the floor and something unread the next feed is of `a`: its armed announcement, else its
      first unread entry. */
  lemma {:induction false} FloorFeeds(r: Router, a: Id)
    requires HasFloor(r, a) && Pending(r.chans[a]) > 0
    ensures var (r', fed) := NextFeed(r);
            && fed.Some? && fed.value.channel == a && HasFloor(r', a) && r'.announce == None
            && (fed.value.Announce? <==> r.announce.Some?)
            && (fed.value.Announce? ==> SameAt(r, r', a))
            && (fed.value.Read? ==> Unread(r.chans[a]) == [fed.value.entry] + Unread(r'.chans[a]))
            && r'.nextEntry == r.nextEntry
  {
    NextFeedKeeps(r);
    FeedCases(r);
    FeedCounts(r);
    FeedNumbers(r);
    if r.announce == None {
      EndsKeep(r, "");
      var r0 := r.(reading := None);
      FloorPick(r0, a);
      PickKeeps(r0);
      ChanIn(r, a);
      EntryFed(Pick(r0).0, a);
      hide Inv, NextFeed, Unread, Pending, Pick, FeedEntry, FeedFrom, TakeEntry, IsHandoff;
    } else {
      AnnouncedOpen(r);
      AnnouncedFirst(r);
      hide Inv, NextFeed, Unread, Pending, Pick, FeedEntry, FeedFrom, TakeEntry, IsHandoff;
    }
  }

  lemma {:induction false} FromNumbers(r: Router, id: Id)
    ensures var r' := FeedFrom(r, id).0; r'.nextEntry == r.nextEntry && r'.muted == r.muted && r'.focus == r.focus
  {
    hide IsHandoff, TakeEntry, Pending;
  }

  lemma {:induction false} FeedNumbers(r: Router)
    requires Inv(r)
    ensures var r' := NextFeed(r).0; r'.nextEntry == r.nextEntry && r'.muted == r.muted && r'.focus == r.focus
  {
    hide ChansOk, OrderOk, NamesOk, FloorOk, Pick, FeedFrom, Audible;
    var r0 := r.(reading := None);
    EndsKeep(r, "");
    if r.announce == None {
      assert r0.(announce := None) == r0;
      PickKeeps(r0);
      if Pick(r0).1.Some? {
        FromNumbers(Pick(r0).0, Pick(r0).1.value);
      }
    } else {
      AnnouncedOpen(r);
    }
  }

  lemma {:induction false} ActiveText(r: Router, op: Op, a: Id)
    requires op.OpPush? || op.OpPushWith? || op.OpAppend? || op.OpDrop? || op.OpEndBatch?
    ensures var r' := Step(r, op).0; r'.active == r.active && r'.announce == r.announce && r'.nextEntry >= r.nextEntry
  {
    hide PushEntry, Pending, DropThe;
  }

  lemma {:induction false} ActiveBatch(r: Router, op: Op, a: Id)
    requires op.OpSetAside? || op.OpRevise?
    ensures var r' := Step(r, op).0;
            && r'.active == r.active && r'.announce == r.announce && r'.nextEntry >= r.nextEntry
  {
    hide Where;
  }

  lemma {:induction false} ActiveBack(r: Router, op: Op, a: Id)
    requires op.OpRewind? || op.OpFlush?
    ensures var r' := Step(r, op).0;
            && r'.active == r.active && (r'.announce == r.announce || r'.announce == None)
                && r'.nextEntry >= r.nextEntry
  {
    hide SkipToEnd, StepBack;
  }

  lemma {:induction false} ActiveRest(r: Router, op: Op, a: Id)
    requires LeavesFloor(op, a) && r.active == Some(a)
    requires op.OpOpen? || op.OpLabel? || op.OpClose? || op.OpFocus? || op.OpMute? || op.OpFocusOnly?
             || op.OpAuthorize? || op.OpAskSuppressed? || op.OpPrioritize? || op.OpDone? || op.OpClearAnnounce?
    ensures var r' := Step(r, op).0;
            && r'.active == Some(a) && (r'.announce == r.announce || r'.announce == None) && r'.nextEntry >= r.nextEntry
  {
    hide Without, Ready, Suppressed;
  }

  lemma {:induction false} ActiveTaken(r: Router, op: Op, a: Id)
    requires HasFloor(r, a) && op == OpTakeFloor(a)
    ensures var r' := Step(r, op).0; r'.active == Some(a) && r'.announce == r.announce && r'.nextEntry >= r.nextEntry
  {
    hide ChansOk, OrderOk, NamesOk;
  }

  lemma {:induction false} ActivePick(r: Router, op: Op)
    requires Inv(r) && op.OpPick?
    ensures var r' := Step(r, op).0; r'.active == r.active && r'.announce == r.announce && r'.nextEntry >= r.nextEntry
  {
    PickSameAt(r, "");
    hide Inv, HasWork;
  }

  /** Whatever leaves the floor alone keeps `a` the active one, and arms nothing. */
  lemma {:induction false} ActiveStays(r: Router, op: Op, a: Id)
    requires HasFloor(r, a) && LeavesFloor(op, a) && !op.OpNextFeed?
    ensures var r' := Step(r, op).0;
            && r'.active == Some(a) && (r'.announce == r.announce || r'.announce == None) && r'.nextEntry >= r.nextEntry
  {
    hide Inv, Step;
    match op
    case OpPick => ActivePick(r, op);
    case OpTakeFloor(_) => ActiveTaken(r, op, a);
    case OpPush(_, _, _) => ActiveText(r, op, a);
    case OpPushWith(_, _, _, _, _) => ActiveText(r, op, a);
    case OpAppend(_, _, _, _) => ActiveText(r, op, a);
    case OpDrop(_, _) => ActiveText(r, op, a);
    case OpEndBatch(_) => ActiveText(r, op, a);
    case OpSetAside(_, _, _) => ActiveBatch(r, op, a);
    case OpRevise(_, _, _) => ActiveBatch(r, op, a);
    case OpFlush(_) => ActiveBack(r, op, a);
    case OpRewind(_, _) => ActiveBack(r, op, a);
    case _ => ActiveRest(r, op, a);
  }

  /** An operation on `a` itself that changes no entry and no cursor. */
  lemma {:induction false} LabelledDue(r: Router, op: Op, a: Id, mark: nat)
    requires HasFloor(r, a) && LeavesFloor(op, a)
    requires op.OpOpen? || op.OpLabel? || op.OpMute? || op.OpEndBatch?
    ensures var r' := Step(r, op).0;
            a in r'.chans && Due(r', a, mark) == Due(r, a, mark) && !r'.chans[a].muted
  {
    hide Inv, Unread, UpTo;
    var r' := Step(r, op).0;
    if a in r'.chans {
      SameUnread(r.chans[a], r'.chans[a]);
    }
  }

  /** One operation: the floor stays with `a`, and what it fed of the due entries is their front. */
  lemma {:induction false} FloorStep(r: Router, op: Op, a: Id, mark: nat)
    requires HasFloor(r, a) && LeavesFloor(op, a) && Due(r, a, mark) != [] && mark <= r.nextEntry
    ensures var (r', fed) := Step(r, op);
            && HasFloor(r', a) && mark <= r'.nextEntry
            && (fed.Some? ==> fed.value.channel == a)
            && (r.announce == None ==> r'.announce == None && (fed.Some? ==> fed.value.Read?))
            && Due(r, a, mark) == UpTo(if fed.Some? && fed.value.Read? then [fed.value.entry] else [], mark)
                + Due(r', a, mark)
  {
    StepKeeps(r, op);
    if op.OpNextFeed? {
      DueUnread(r, a, mark);
      FloorFeeds(r, a);
      FedDue(r, a, mark);
      hide Inv, NextFeed, Unread, UpTo;
    } else {
      ActiveStays(r, op, a);
      if !Touches(op, a) {
        Untouched(r, op, a);
        DueSame(r, Step(r, op).0, a, mark);
      } else {
        TouchedDue(r, op, a, mark);
      }
      NothingFedBy(r, op);
      hide Inv, Step, Due, LeavesFloor, Touches;
      assert UpTo([], mark) == [];
    }
  }

  lemma {:induction false} NothingFedBy(r: Router, op: Op)
    requires !op.OpNextFeed?
    ensures Step(r, op).1 == None
  {
    hide Open, LabelIfMissing, Close, Focus, SetMuted, Authorize, PushWith, Append, DropDecisions, EndBatch;
    hide AskSuppressed, Prioritize, Pick, NextFeed, Done, ClearAnnounce, NextChannel, TakeFloor, ReadAt, SetAside;
    hide Revise, FlushOne, FlushAll, Rewind, Push, HasWork;
  }

  lemma {:induction false} TouchedDue(r: Router, op: Op, a: Id, mark: nat)
    requires HasFloor(r, a) && LeavesFloor(op, a) && Due(r, a, mark) != [] && mark <= r.nextEntry
    requires !op.OpNextFeed? && Touches(op, a)
    ensures var r' := Step(r, op).0;
            a in r'.chans && Due(r', a, mark) == Due(r, a, mark) && !r'.chans[a].muted
  {
    hide Due, Inv, PushWith, Append, Open, LabelIfMissing, SetMuted, EndBatch;
    match op
    case OpPushWith(_, text, title, _, _) => PushedDue(r, a, text, title, mark);
    case OpAppend(_, text, decision, heard) => AppendedDue(r, a, text, decision, heard, mark);
    case _ => LabelledDue(r, op, a, mark);
  }

  lemma {:induction false} FedDue(r: Router, a: Id, mark: nat)
    requires HasFloor(r, a) && Pending(r.chans[a]) > 0
    ensures var (r', fed) := NextFeed(r);
            && fed.Some? && a in r'.chans
            && Due(r, a, mark) == UpTo(if fed.value.Read? then [fed.value.entry] else [], mark) + Due(r', a, mark)
  {
    FloorFeeds(r, a);
    hide Inv, NextFeed, Unread;
    var (r', fed) := NextFeed(r);
    if fed.value.Read? {
      UpToAdds([fed.value.entry], Unread(r'.chans[a]), mark);
    } else {
      assert UpTo([], mark) == [];
    }
  }

  // ---- Runs ------------------------------------------------------------------

  /** The entries of `a` up to `mark` among what was fed, in order. */
  function HeardOf(fed: seq<Feed>, a: Id, mark: nat): seq<Entry> {
    if fed == [] then []
    else (if fed[0].Read? && fed[0].channel == a then UpTo([fed[0].entry], mark) else []) + HeardOf(fed[1..], a, mark)
  }

  /** Non-preemption: in every run that leaves the floor alone, whatever else happens, nothing is fed
      of another channel before every due entry of `a` has been fed, in order; and with nothing
      armed at the start no announcement comes between them either. */
  lemma {:induction false} FloorIsKept(r: Router, ops: seq<Op>, a: Id, mark: nat, i: nat)
    requires HasFloor(r, a) && mark <= r.nextEntry
    requires forall op :: op in ops ==> LeavesFloor(op, a)
    requires i < |Run(r, ops).1|
    ensures var fed := Run(r, ops).1;
            (fed[i].channel == a && (r.announce == None ==>
                fed[i].Read?)) || Due(r, a, mark) <= HeardOf(fed[..i], a, mark)
    decreases |ops|
  {
    hide HasFloor, Due, Step, LeavesFloor;
    if Due(r, a, mark) != [] {
      assert ops != [];
      assert LeavesFloor(ops[0], a) by { assert ops[0] in ops; }
      FloorStep(r, ops[0], a, mark);
      var (r1, fed) := Step(r, ops[0]);
      var rest := Run(r1, ops[1..]).1;
      var all := Run(r, ops).1;
      if fed == None {
        assert all == rest;
        FloorIsKept(r1, ops[1..], a, mark, i);
      } else if i > 0 {
        assert all == [fed.value] + rest;
        FloorIsKept(r1, ops[1..], a, mark, i - 1);
        assert all[..i][1..] == rest[..i - 1];
      }
    }
  }

  // ---- Replays ---------------------------------------------------------------

  lemma {:induction false} UpToSome(entries: seq<Entry>, e: Entry, mark: nat)
    requires e in entries && e.id <= mark
    ensures UpTo(entries, mark) != []
  {
    if entries[0].id > mark {
      UpToSome(entries[1..], e, mark);
    }
  }

  /** A replay that holds the floor has it, and something due. */
  lemma {:induction false} HoldIsFloor(r: Router, h: Id, mark: nat)
    requires Inv(r) && r.hold == Some((h, mark)) && Holds(r, h, mark)
    ensures HasFloor(r, h) && Due(r, h, mark) != [] && mark <= r.nextEntry
  {
    var e :| e in Unread(r.chans[h]) && e.id <= mark;
    hide ChansOk, OrderOk, NamesOk, UpTo, Unread;
    UpToSome(Unread(r.chans[h]), e, mark);
  }

  /** A replay the user started is not preempted: until every entry its batch had when it started
      is read, in order, nothing of another channel is fed. */
  lemma {:induction false} ReplayIsKept(r: Router, ops: seq<Op>, h: Id, mark: nat, i: nat)
    requires Inv(r) && r.hold == Some((h, mark)) && Holds(r, h, mark)
    requires forall op :: op in ops ==> LeavesFloor(op, h)
    requires i < |Run(r, ops).1|
    ensures Run(r, ops).1[i].channel == h || Due(r, h, mark) <= HeardOf(Run(r, ops).1[..i], h, mark)
  {
    hide HasFloor, Due, Run, Holds, LeavesFloor;
    HoldIsFloor(r, h, mark);
    FloorIsKept(r, ops, h, mark, i);
  }

  /** The hold decides nothing that the active channel keeping the floor does not decide already. */
  lemma {:induction false} HoldIsTheActiveFloor(r: Router)
    requires Inv(r)
    ensures Pick(r.(hold := None)).1 == Pick(r).1
  {
    hide ChansOk, OrderOk, NamesOk, PickWaiting, Audible;
    var r1, r2 := Prune(r), Prune(r.(hold := None));
    PrunedSame(r, r.(hold := None), r.priority);
    assert r2 == r1.(hold := None);
    if Held(r1) {
      HeldAudible(r1);
      SameAudible(r1, r2, r.hold.value.0);
    }
  }

  lemma {:induction false} PrunedSame(r: Router, r': Router, ids: seq<Id>)
    requires r'.chans == r.chans
    ensures ReadyOnes(r', ids) == ReadyOnes(r, ids)
    ensures forall id :: Ready(r', id) <==> Ready(r, id)
  {
    hide Pending;
    if ids != [] {
      PrunedSame(r, r', ids[1..]);
    }
  }

  /** After an announcement the next feed is the channel's first unread entry, if it is unmuted and
      has one. */
  lemma {:induction false} AnnounceThenEntry(r: Router)
    requires Inv(r) && NextFeed(r).1.Some? && NextFeed(r).1.value.Announce?
    ensures var r' := NextFeed(r).0; var id := NextFeed(r).1.value.channel;
            && id in r'.chans
            && (Audible(r', id) ==> NextFeed(r').1 == Some(Read(id, Unread(r'.chans[id])[0])))
  {
    NextFeedKeeps(r);
    FeedCounts(r);
    var r', id := NextFeed(r).0, NextFeed(r).1.value.channel;
    if Audible(r', id) {
      FloorFeeds(r', id);
    }
    hide NextFeed, Unread, Inv;
  }

  function Reads(a: Id, entries: seq<Entry>): seq<Feed> {
    if entries == [] then [] else [Read(a, entries[0])] + Reads(a, entries[1..])
  }

  /** The channel with the floor reads what it has unread through, entry by entry. */
  lemma {:induction false} ReadsThrough(r: Router, a: Id, n: nat)
    requires HasFloor(r, a) && r.announce == None && n == Pending(r.chans[a])
    ensures Feeds(r, n) == Reads(a, Unread(r.chans[a]))
    decreases n
  {
    hide Inv, NextFeed, Unread;
    if n > 0 {
      FloorFeeds(r, a);
      ReadsThrough(NextFeed(r).0, a, n - 1);
    }
  }

  /** The announcement of `id` that a replay of it arms, or that was armed already. */
  ghost predicate WillAnnounce(r: Router, id: Id) {
    IsHandoff(r, id) || (r.announce.Some? && r.announce.value.channel == id)
  }

  /** With the floor: the armed announcement if there is one, then what is unread. */
  lemma {:induction false} FloorReads(r: Router, id: Id)
    requires HasFloor(r, id)
    ensures var fed := Feeds(r, Count(r.announce.Some?) + Pending(r.chans[id]));
            if r.announce.Some? then
              fed != [] && fed[0].Announce? && fed[0].channel == id && fed[1..] == Reads(id, Unread(r.chans[id]))
            else fed == Reads(id, Unread(r.chans[id]))
  {
    hide Inv, NextFeed, Unread, Pending;
    if r.announce.Some? {
      AnnounceFirst(r, id);
      ReadsThrough(NextFeed(r).0, id, Pending(r.chans[id]));
    } else {
      ReadsThrough(r, id, Pending(r.chans[id]));
    }
  }

  /** A replay feeds exactly the batch, from the entry on (or the top), without what is set aside:
      announced first when another channel read last. */
  lemma {:induction false} ReplayReads(r: Router, id: Id, from: Option<nat>)
    requires Inv(r) && id in r.chans && !r.chans[id].muted && ReadAt(r, id, from, true).1
    ensures var r' := ReadAt(r, id, from, true).0; var c := r.chans[id];
            var k := if from.Some? then Where(c.entries, from.value) else 0;
            && k < |c.entries|
            && var heard := NotAside(c.entries[k..], c.aside);
            var fed := Feeds(r', Count(WillAnnounce(r, id)) + |heard|);
            if WillAnnounce(r, id) then
              fed != [] && fed[0].Announce? && fed[0].channel == id && fed[1..] == Reads(id, heard)
            else fed == Reads(id, heard)
  {
    hide Inv, NextFeed, ReadAt, NotAside, Where, WillAnnounce, Feeds, Unread;
    var r' := ReadAt(r, id, from, true).0;
    ReadAtKeeps(r, id, from, true);
    ReplayShape(r, id, from);
    FloorReads(r', id);
  }

  lemma {:induction false} ReplayShape(r: Router, id: Id, from: Option<nat>)
    requires Inv(r) && id in r.chans && ReadAt(r, id, from, true).1
    ensures var r' := ReadAt(r, id, from, true).0; var c := r.chans[id];
            var k := if from.Some? then Where(c.entries, from.value) else 0;
            && k < |c.entries| && id in r'.chans && r'.active == Some(id)
            && r'.chans[id].muted == c.muted && Unread(r'.chans[id]) == NotAside(c.entries[k..], c.aside)
            && (r'.announce.Some? <==> WillAnnounce(r, id))
  {
    var c := r.chans[id];
    var k := if from.Some? then Where(c.entries, from.value) else 0;
    var c' := c.(cursor := k, replaying := true);
    if r.announce.Some? && r.announce.value.channel != id {
      ArmedMeansHandoff(r, id);
    }
    hide Inv, NotAside, Where, IsHandoff, Unread;
    UnreadFrom(c');
    SameHandoff(r, Update(r, id, c'), id);
    assert ReadAt(r, id, from, true).0.chans[id] == c';
  }

  lemma {:induction false} UnreadFrom(c: Chan)
    requires c.cursor <= |c.entries|
    ensures Unread(c) == NotAside(c.entries[c.cursor..], c.aside)
  {
  }

  lemma {:induction false} SameHandoff(r: Router, r': Router, id: Id)
    requires r'.lastReader == r.lastReader && r'.closedReaderTab == r.closedReaderTab
    requires id in r.chans && id in r'.chans && r'.chans[id].hostTab == r.chans[id].hostTab
    ensures IsHandoff(r', id) <==> IsHandoff(r, id)
  {
  }

  lemma {:induction false} AnnounceFirst(r: Router, id: Id)
    requires HasFloor(r, id) && r.announce.Some?
    ensures var (r', fed) := NextFeed(r);
            && fed.Some? && fed.value.Announce? && fed.value.channel == id
            && r' == r.(reading := None, announce := None) && HasFloor(r', id)
  {
    NextFeedKeeps(r);
    FeedCases(r);
    AnnouncedOpen(r);
    hide Inv, NextFeed;
  }
}
