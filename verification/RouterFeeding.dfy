/** What `NextFeed` feeds, and that feeding drains: properties of the router without new input. */
module RouterFeeding {
  import opened Options
  import opened RouterModel
  import opened RouterInvariants

  // ---- Taking an entry -------------------------------------------------------

  lemma {:induction false} SkippedAreAside(entries: seq<Entry>, i: nat, aside: set<nat>)
    requires i <= |entries|
    ensures var k := SkipAside(entries, i, aside);
            && NotAside(entries[i..], aside) == NotAside(entries[k..], aside)
            && (k < |entries| ==> entries[k].id !in aside)
            && (forall j :: i <= j < k ==> entries[j].id in aside)
    decreases |entries| - i
  {
    if i < |entries| && entries[i].id in aside {
      assert entries[i..][1..] == entries[i + 1..];
      SkippedAreAside(entries, i + 1, aside);
    }
  }

  /** A channel with something unread hands out its first unread entry and keeps the others. */
  lemma {:induction false} TakesFirstUnread(c: Chan)
    requires c.cursor <= |c.entries| && Pending(c) > 0
    ensures var (c', e) := TakeEntry(c);
            && e == Some(Unread(c)[0])
            && Unread(c') == Unread(c)[1..]
            && 0 < c'.cursor <= |c'.entries| && c'.entries[c'.cursor - 1] == Unread(c)[0]
            && c' == c.(cursor := c'.cursor)
            && c.cursor < c'.cursor
            && e.value.id !in c.aside
  {
    var k := SkipAside(c.entries, c.cursor, c.aside);
    SkippedAreAside(c.entries, c.cursor, c.aside);
    assert c.entries[k..] == [c.entries[k]] + c.entries[k + 1..];
  }

  /** What one call feeds: the armed announcement; else the first unread entry of the picked
      channel, its hand-off announced first; nothing exactly when nothing is picked. */
  lemma {:induction false} FeedCases(r: Router)
    requires Inv(r)
    ensures r.announce.Some? ==> NextFeed(r) == FeedAnnounce(r.(reading := None))
    ensures r.announce == None ==>
              var (r1, t) := Pick(r.(reading := None));
              && (t == None ==> NextFeed(r) == (r1.(active := None), None))
              && (t.Some? ==>
                    && t.value in r.chans && Pending(r.chans[t.value]) > 0 && !r.chans[t.value].muted
                    && r1.chans == r.chans && r1.announce == None
                    && NextFeed(r) == FeedFrom(r1, t.value)
                    && (r1.active != t && IsHandoff(r1, t.value) ==>
                          NextFeed(r) == FeedAnnounce(Arm(SetReader(r1, t.value), t.value, false, false)))
                    && (!(r1.active != t && IsHandoff(r1, t.value)) ==>
                          NextFeed(r) == FeedEntry(if r1.active != t then SetReader(r1, t.value) else r1, t.value)))
  {
    hide Pick, FeedEntry, IsHandoff, FeedAnnounce, ChansOk, OrderOk, FloorOk;
    if r.announce.Some? {
      AnnouncedOpen(r);
    } else {
      var r0 := r.(reading := None);
      EndsKeep(r, "");
      PickKeeps(r0);
      assert r0.(announce := None) == r0;
    }
  }

  lemma {:induction false} AnnouncedOpen(r: Router)
    requires Inv(r) && r.announce.Some?
    ensures r.announce.value.channel in r.chans && r.active == Some(r.announce.value.channel)
  {
    hide ChansOk, OrderOk;
  }

  lemma {:induction false} EntryFed(r: Router, id: Id)
    requires id in r.chans && r.chans[id].cursor <= |r.chans[id].entries| && Pending(r.chans[id]) > 0
    ensures var c := r.chans[id]; var c' := TakeEntry(c).0; var r' := FeedEntry(r, id).0;
            && FeedEntry(r, id).1 == Some(Read(id, Unread(c)[0]))
            && r' == r.(chans := r.chans[id := c'], authorized := r'.authorized, reading := Some((id, Unread(c)[0].id)))
            && r'.authorized <= r.authorized
  {
    TakesFirstUnread(r.chans[id]);
    hide TakeEntry, Unread, Pending;
  }

  // ---- Counting down ---------------------------------------------------------

  lemma {:induction false} SumWithout(r: Router, r': Router, ids: seq<Id>, id: Id)
    requires id !in ids && forall x :: x != id ==> (x in r'.chans <==> x in r.chans)
    requires forall x :: x != id && x in r.chans ==> Pending(r'.chans[x]) == Pending(r.chans[x])
    ensures Sum(r', ids) == Sum(r, ids)
  {
    hide Pending;
    if ids != [] {
      SumWithout(r, r', ids[1..], id);
    }
  }

  lemma {:induction false} SumOneLess(r: Router, r': Router, ids: seq<Id>, id: Id)
    requires Apart(ids) && id in ids && id in r.chans && id in r'.chans && r'.chans == r.chans[id := r'.chans[id]]
    requires Pending(r.chans[id]) == Pending(r'.chans[id]) + 1
    ensures Sum(r, ids) == Sum(r', ids) + 1
  {
    hide Pending;
    if ids[0] == id {
      assert id !in ids[1..];
      SumWithout(r, r', ids[1..], id);
    } else {
      SumOneLess(r, r', ids[1..], id);
    }
  }

  lemma {:induction false} SumSame(r: Router, r': Router, ids: seq<Id>)
    requires r'.chans == r.chans
    ensures Sum(r', ids) == Sum(r, ids)
  {
    hide Pending;
    if ids != [] {
      SumSame(r, r', ids[1..]);
    }
  }

  function Count(b: bool): nat {
    if b then 1 else 0
  }

  predicate ActiveAudible(r: Router) {
    r.active.Some? && Audible(r, r.active.value)
  }

  /** How much is still to be fed: an entry may cost an announcement, but not one in the channel
      that already reads. */
  function Measure(r: Router): int {
    2 * TotalPending(r) + Count(r.announce.Some?) - Count(ActiveAudible(r))
  }

  /** An announcement changes no batch. */
  ghost predicate AnnounceFed(r: Router, r': Router, id: Id) {
    && r'.chans == r.chans && r'.order == r.order && r'.announce == None
    && id in r.chans && r'.active == Some(id) && r'.reading == None
  }

  /** An entry fed is the first unread one of a channel that is not muted, and was not set aside;
      only that channel's cursor moves, past it. */
  ghost predicate EntryIsFed(r: Router, r': Router, id: Id, e: Entry) {
    && id in r.chans && !r.chans[id].muted && e.id !in r.chans[id].aside
    && r.announce == None && r'.announce == None && r'.active == Some(id) && r'.reading == Some((id, e.id))
    && r'.order == r.order
    && id in r'.chans && r'.chans == r.chans[id := r'.chans[id]]
    && r'.chans[id] == r.chans[id].(cursor := r'.chans[id].cursor)
    && r.chans[id].cursor < r'.chans[id].cursor <= |r'.chans[id].entries|
    && r'.chans[id].entries[r'.chans[id].cursor - 1] == e
    && Unread(r.chans[id]) == [e] + Unread(r'.chans[id])
  }

  ghost predicate NoneFed(r: Router, r': Router) {
    r'.chans == r.chans && r'.order == r.order && r'.announce == None && r.announce == None
    && r'.active == None && r'.reading == None
  }

  ghost predicate Fed(r: Router, r': Router, fed: Option<Feed>) {
    match fed
    case None => NoneFed(r, r')
    case Some(Announce(id, _, _, _)) => AnnounceFed(r, r', id)
    case Some(Read(id, e)) => EntryIsFed(r, r', id, e)
  }

  /** What a call feeds, whatever the state: see `Fed`. */
  lemma {:induction false} FeedCounts(r: Router)
    requires Inv(r)
    ensures Fed(r, NextFeed(r).0, NextFeed(r).1)
  {
    FeedCases(r);
    if r.announce.Some? {
      AnnouncedOpen(r);
      hide NextFeed, EntryIsFed;
    } else {
      hide Pick, IsHandoff, FeedEntry, NextFeed, FeedFrom, EntryIsFed, Pending;
      EndsKeep(r, "");
      PickKeeps(r.(reading := None));
      var (r1, t) := Pick(r.(reading := None));
      if t.Some? && !(r1.active != t && IsHandoff(r1, t.value)) {
        ChanIn(r, t.value);
        FedEntry(r, if r1.active != t then SetReader(r1, t.value) else r1, t.value);
      }
    }
  }

  lemma {:induction false} FedEntry(r: Router, r1: Router, id: Id)
    requires r1.chans == r.chans && r1.order == r.order && r1.active == Some(id) && r1.announce == None
        && r.announce == None
    requires id in r.chans && r.chans[id].cursor <= |r.chans[id].entries| && Pending(r.chans[id]) > 0
        && !r.chans[id].muted
    ensures FeedEntry(r1, id).1 == Some(Read(id, Unread(r.chans[id])[0]))
    ensures EntryIsFed(r, FeedEntry(r1, id).0, id, Unread(r.chans[id])[0])
  {
    EntryFed(r1, id);
    TakesFirstUnread(r.chans[id]);
    hide TakeEntry, Unread, Pending, FeedEntry;
  }

  lemma {:induction false} PendingIs(c: Chan)
    ensures Pending(c) == |Unread(c)|
  {
  }

  lemma {:induction false} ChanIn(r: Router, id: Id)
    requires Inv(r) && id in r.chans
    ensures r.chans[id].cursor <= |r.chans[id].entries| && id in r.order && Apart(r.order)
  {
  }

  /** Each entry fed lowers the number of unread entries by exactly one, and nothing else does. */
  lemma {:induction false} FeedLowersPending(r: Router)
    requires Inv(r)
    ensures var (r', fed) := NextFeed(r);
            TotalPending(r) == TotalPending(r') + (if fed.Some? && fed.value.Read? then 1 else 0)
  {
    FeedCounts(r);
    hide NextFeed, Unread, Pending, Sum;
    var (r', fed) := NextFeed(r);
    if fed.Some? && fed.value.Read? {
      var id := fed.value.channel;
      ChanIn(r, id);
      PendingIs(r.chans[id]);
      PendingIs(r'.chans[id]);
      SumOneLess(r, r', r.order, id);
    } else {
      SumSame(r, r', r.order);
    }
  }

  /** A channel other than the active one is picked only when the active one has nothing to say. */
  lemma {:induction false} PickedElsewhere(r: Router)
    requires Inv(r) && Pick(r).1 != r.active
    ensures !ActiveAudible(r)
  {
    hide PickWaiting, Audible, ReadyOnes, Ready, ChansOk, OrderOk, NamesOk;
    if r.active.Some? {
      SameAudible(r, Prune(r), r.active.value);
      SameAudible(r, Prune(r).(hold := None), r.active.value);
    }
  }

  /** Feeding an announcement that was not armed makes an audible channel the active one. */
  lemma {:induction false} AnnouncedAudible(r: Router)
    requires Inv(r) && r.announce == None && NextFeed(r).1.Some?
    ensures Audible(r, NextFeed(r).1.value.channel)
    ensures NextFeed(r).1.value.Announce? ==> !ActiveAudible(r)
  {
    FeedCases(r);
    FeedCounts(r);
    hide Pick, IsHandoff, Pending, NextFeed, FeedFrom, Audible, TakeEntry;
    var r0 := r.(reading := None);
    EndsKeep(r, "");
    PickKeeps(r0);
    var t := Pick(r0).1;
    assert t.Some?;
    SameAudible(r, r0, t.value);
    if r.active.Some? {
      SameAudible(r, r0, r.active.value);
    }
    if t != r.active {
      PickedElsewhere(r0);
    } else {
      EntryFed(Pick(r0).0, t.value);
    }
  }

  lemma {:induction false} FeedMeasure(r: Router)
    requires Inv(r)
    ensures NextFeed(r).1.Some? ==> Measure(NextFeed(r).0) < Measure(r)
    ensures NextFeed(r).1 == None ==> Measure(NextFeed(r).0) == Measure(r)
  {
    hide Audible, Unread, NextFeed, TotalPending;
    FeedCounts(r);
    FeedLowersPending(r);
    var (r', fed) := NextFeed(r);
    if fed.Some? && fed.value.Announce? {
      SameAudible(r, r', fed.value.channel);
      if r.announce == None {
        AnnouncedAudible(r);
      } else {
        AnnouncedFirst(r);
      }
    } else if fed == None {
      NothingAudible(r);
    }
  }

  /** An armed announcement is fed for the channel that is already active. */
  lemma {:induction false} AnnouncedFirst(r: Router)
    requires Inv(r) && r.announce.Some?
    ensures NextFeed(r).1.Some? && NextFeed(r).1.value.Announce? && Some(NextFeed(r).1.value.channel) == r.active
  {
    FeedCases(r);
    AnnouncedOpen(r);
    hide NextFeed;
  }

  /** When nothing is fed the channel that was reading has nothing to say. */
  lemma {:induction false} NothingAudible(r: Router)
    requires Inv(r) && NextFeed(r).1 == None
    ensures !ActiveAudible(r)
  {
    if r.announce.Some? {
      AnnouncedFirst(r);
      assert false;
    } else {
      var r0 := r.(reading := None);
      EndsKeep(r, "");
      PickKeeps(r0);
      AnnounceSome(r);
      hide NextFeed, Pick, Audible, Pending;
      if r.active.Some? {
        SameAudible(r, r0, r.active.value);
        PickedElsewhere(r0);
      }
    }
  }

  // ---- Draining --------------------------------------------------------------

  /** `n` calls without new input: what they fed. */
  function Feeds(r: Router, n: nat): seq<Feed>
    decreases n
  {
    if n == 0 then [] else
      var (r', fed) := NextFeed(r);
      (if fed.Some? then [fed.value] else []) + Feeds(r', n - 1)
  }

  lemma {:induction false} MeasureBound(r: Router)
    ensures Measure(r) <= 2 * TotalPending(r) + 1
  {
  }

  lemma {:induction false} MeasurePositive(r: Router)
    requires Inv(r)
    ensures Measure(r) >= 0
  {
    hide Sum, Unread;
    if ActiveAudible(r) {
      var id := r.active.value;
      ChanIn(r, id);
      SumAtLeast(r, r.order, id);
    }
  }

  lemma {:induction false} SumAtLeast(r: Router, ids: seq<Id>, id: Id)
    requires id in ids && id in r.chans
    ensures Sum(r, ids) >= Pending(r.chans[id])
  {
    hide Pending;
    if ids[0] != id {
      SumAtLeast(r, ids[1..], id);
    }
  }

  lemma {:induction false} FeedsBounded(r: Router, n: nat)
    requires Inv(r)
    ensures |Feeds(r, n)| <= Measure(r)
    decreases n
  {
    hide NextFeed, Measure, Inv;
    if n > 0 {
      NextFeedKeeps(r);
      FeedMeasure(r);
      FeedsBounded(NextFeed(r).0, n - 1);
    } else {
      MeasurePositive(r);
    }
  }

  /** Without new input at most two calls per unread entry, and one more, feed anything. */
  lemma {:induction false} Drains(r: Router, n: nat)
    requires Inv(r)
    ensures |Feeds(r, n)| <= 2 * TotalPending(r) + 1
  {
    hide NextFeed, Measure, Inv;
    FeedsBounded(r, n);
    MeasureBound(r);
  }

  // ---- What is left waits for a reason ---------------------------------------

  lemma {:induction false} NonePickable(r: Router, ids: seq<Id>)
    requires FirstPickable(r, ids).1 == None
    ensures forall id :: id in ids && Audible(r, id) ==> Suppressed(r, id) || Gated(r, id)
    decreases |ids|
  {
    hide Audible;
    if ids != [] {
      var r1 := AskPickable(r, ids[0]);
      AskLifts(r, ids[0]);
      NonePickable(r1, ids[1..]);
      forall id | id in ids && Audible(r, id) ensures Suppressed(r, id) || Gated(r, id) {
        if id != ids[0] {
          assert id in ids[1..];
          SameAudible(r, r1, id);
          assert Suppressed(r1, id) ==> Suppressed(r, id);
        }
      }
    }
  }

  /** Asking removes suppressions only when they no longer hold. */
  lemma {:induction false} AskKeepsSuppressed(r: Router, ids: seq<Id>)
    ensures forall id :: Suppressed(FirstPickable(r, ids).0, id) <==> Suppressed(r, id)
    decreases |ids|
  {
    if ids != [] && !Pickable(r, ids[0]) {
      AskKeepsSuppressed(AskPickable(r, ids[0]), ids[1..]);
    }
  }

  /** When nothing is fed, every channel with something unread is muted, was switched away from and
      has nothing new, or is held back by the focus-only gate. */
  lemma {:induction false} NothingFed(r: Router)
    requires Inv(r) && NextFeed(r).1 == None
    ensures forall id :: Ready(r, id) ==> r.chans[id].muted || Suppressed(r, id) || Gated(r, id)
  {
    AnnounceSome(r);
    EndsKeep(r, "");
    hide NextFeed, Pick, Pending, ChansOk, OrderOk, NamesOk, FloorOk;
    var r0 := r.(reading := None);
    NothingPicked(r0);
    forall id | Ready(r, id) ensures r.chans[id].muted || Suppressed(r, id) || Gated(r, id) {
      assert Audible(r0, id) || r.chans[id].muted;
    }
  }

  lemma {:induction false} AnnounceSome(r: Router)
    requires Inv(r)
    ensures r.announce.Some? ==> NextFeed(r).1.Some?
    ensures r.announce == None && Pick(r.(reading := None)).1.Some? ==> NextFeed(r).1.Some?
  {
    FeedCases(r);
    hide Pick, IsHandoff, TakeEntry, Unread, Pending, NextFeed, FeedFrom, FeedEntry;
    if r.announce == None {
      EndsKeep(r, "");
      PickKeeps(r.(reading := None));
      var (r1, t) := Pick(r.(reading := None));
      if t.Some? {
        ChanIn(r, t.value);
        EntryFed(if r1.active != t then SetReader(r1, t.value) else r1, t.value);
      }
    } else {
      AnnouncedOpen(r);
    }
  }

  lemma {:induction false} NothingPicked(r: Router)
    requires Inv(r) && Pick(r).1 == None
    ensures forall id :: Audible(r, id) ==> Suppressed(r, id) || Gated(r, id)
  {
    hide Audible, Suppressed, Gated, FirstPickable, ReadyOnes, Ready, Holds, ChansOk, NamesOk, FloorOk;
    var r1 := Prune(r).(hold := None);
    var r2 := FirstPickable(r1, r1.priority).0;
    FirstPickableLifts(r1, r1.priority);
    AskKeepsSuppressed(r1, r1.priority);
    var r3 := if r2.focus.Some? then AskPickable(r2, r2.focus.value) else r2;
    if r2.focus.Some? {
      AskLifts(r2, r2.focus.value);
      AskOne(r2, r2.focus.value);
    }
    assert PickWaiting(r1).1 == None;
    assert FirstPickable(r3, r3.order).1 == None;
    NonePickable(r3, r3.order);
    forall id | Audible(r, id) ensures Suppressed(r, id) || Gated(r, id) {
      AudibleOpen(r, id);
      SameAudible(r, r3, id);
      assert id in r3.order;
      PrunedGate(r, r3, id);
      assert Suppressed(r3, id) ==> Suppressed(r1, id);
      SameSuppressed(r1, r, id);
    }
  }

  /** Pruning ends no authorization of a channel with something unread. */
  lemma {:induction false} PrunedGate(r: Router, r': Router, id: Id)
    requires Audible(r, id) && r'.authorized == Prune(r).authorized
    requires r'.focusOnly == r.focusOnly && r'.focus == r.focus
    ensures Gated(r', id) <==> Gated(r, id)
  {
  }

  lemma {:induction false} AskOne(r: Router, id: Id)
    ensures forall x :: Suppressed(AskPickable(r, id), x) <==> Suppressed(r, x)
  {
  }

  lemma {:induction false} SameSuppressed(r: Router, r': Router, id: Id)
    requires r.suppressed == r'.suppressed && r.chans == r'.chans
    ensures Suppressed(r, id) <==> Suppressed(r', id)
  {
  }

  // ---- Picking again ---------------------------------------------------------

  /** Only suppressions that no longer held were removed. */
  ghost predicate Cleaner(r: Router, r': Router) {
    && r' == r.(suppressed := r'.suppressed)
    && (forall id :: id in r'.suppressed ==> id in r.suppressed && r'.suppressed[id] == r.suppressed[id])
    && (forall id :: Suppressed(r', id) <==> Suppressed(r, id))
  }

  lemma {:induction false} AskCleans(r: Router, id: Id)
    ensures Cleaner(r, AskPickable(r, id)) && Cleaner(r, AskSuppressed(r, id))
    ensures AskPickable(AskPickable(r, id), id) == AskPickable(r, id)
    ensures AskSuppressed(AskSuppressed(r, id), id) == AskSuppressed(r, id)
  {
  }

  lemma {:induction false} CleanerStays(r: Router, r': Router, id: Id)
    requires Cleaner(r, r')
    ensures AskPickable(r, id) == r ==> AskPickable(r', id) == r'
    ensures AskSuppressed(r, id) == r ==> AskSuppressed(r', id) == r'
    ensures Pickable(r', id) <==> Pickable(r, id)
  {
    SameAudible(r, r', id);
    hide Audible;
  }

  lemma {:induction false} CleanerThen(r: Router, r': Router, r'': Router)
    requires Cleaner(r, r') && Cleaner(r', r'')
    ensures Cleaner(r, r'')
  {
    hide Suppressed;
  }

  /** Asking about `ids` up to the first pickable changes nothing any more. */
  predicate Asked(r: Router, ids: seq<Id>) {
    ids == [] || (AskPickable(r, ids[0]) == r && (Pickable(r, ids[0]) || Asked(r, ids[1..])))
  }

  lemma {:induction false} AskedStays(r: Router, r': Router, ids: seq<Id>)
    requires Cleaner(r, r') && Asked(r, ids)
    ensures Asked(r', ids)
  {
    hide AskPickable, Pickable, Cleaner;
    if ids != [] {
      CleanerStays(r, r', ids[0]);
      if !Pickable(r, ids[0]) {
        AskedStays(r, r', ids[1..]);
      }
    }
  }

  lemma {:induction false} FirstAsks(r: Router, ids: seq<Id>)
    ensures Cleaner(r, FirstPickable(r, ids).0) && Asked(FirstPickable(r, ids).0, ids)
    decreases |ids|
  {
    hide AskPickable, Pickable, Cleaner;
    if ids == [] {
      CleanerSame(r);
    } else {
      var r1 := AskPickable(r, ids[0]);
      AskCleans(r, ids[0]);
      CleanerStays(r, r1, ids[0]);
      if !Pickable(r, ids[0]) {
        FirstAsks(r1, ids[1..]);
        CleanerThen(r, r1, FirstPickable(r1, ids[1..]).0);
        CleanerStays(r1, FirstPickable(r1, ids[1..]).0, ids[0]);
      }
    }
  }

  lemma {:induction false} CleanerSame(r: Router)
    ensures Cleaner(r, r)
  {
  }

  lemma {:induction false} FirstAgain(r: Router, r': Router, ids: seq<Id>)
    requires Asked(r', ids) && Cleaner(r, r')
    ensures FirstPickable(r', ids) == (r', FirstPickable(r, ids).1)
    decreases |ids|
  {
    hide AskPickable, Pickable, Cleaner;
    if ids != [] {
      CleanerStays(r, r', ids[0]);
      if !Pickable(r, ids[0]) {
        var r1 := AskPickable(r, ids[0]);
        AskMore(r, r', ids[0]);
        FirstAgain(r1, r', ids[1..]);
      }
    }
  }

  lemma {:induction false} AskMore(r: Router, r': Router, id: Id)
    requires Cleaner(r, r') && AskPickable(r', id) == r'
    ensures Cleaner(AskPickable(r, id), r')
  {
    SameAudible(r, r', id);
    hide Audible;
  }

  lemma {:induction false} WaitingAgain(r: Router)
    ensures Cleaner(r, PickWaiting(r).0) && PickWaiting(PickWaiting(r).0) == PickWaiting(r)
  {
    hide AskPickable, AskSuppressed, Pickable, Cleaner, Audible, Suppressed, FirstPickable;
    var (r1, first) := FirstPickable(r, r.priority);
    FirstAsks(r, r.priority);
    CleanSame(r, r1);
    if first.Some? {
      FirstAgain(r, r1, r.priority);
    } else if r1.focus.Some? && Audible(r1, r1.focus.value) && !Suppressed(r1, r1.focus.value) {
      var r3 := AskSuppressed(r1, r1.focus.value);
      AskCleans(r1, r1.focus.value);
      CleanerThen(r, r1, r3);
      AskedStays(r1, r3, r.priority);
      FirstAgain(r, r3, r.priority);
      CleanSame(r1, r3);
      SameAudible(r1, r3, r1.focus.value);
    } else {
      WaitingLast(r, r1);
    }
  }

  lemma {:induction false} WaitingLast(r: Router, r1: Router)
    requires Cleaner(r, r1) && Asked(r1, r.priority) && r1 == FirstPickable(r, r.priority).0
    requires FirstPickable(r, r.priority).1 == None
    requires !(r1.focus.Some? && Audible(r1, r1.focus.value) && !Suppressed(r1, r1.focus.value))
    ensures Cleaner(r, PickWaiting(r).0) && PickWaiting(PickWaiting(r).0) == PickWaiting(r)
  {
    hide AskPickable, AskSuppressed, Pickable, Cleaner, Audible, Suppressed, FirstPickable;
    var r2 := if r1.focus.Some? then AskPickable(r1, r1.focus.value) else r1;
    if r1.focus.Some? {
      AskCleans(r1, r1.focus.value);
    } else {
      CleanerSame(r1);
    }
    var (r3, t) := FirstPickable(r2, r2.order);
    FirstAsks(r2, r2.order);
    CleanerThen(r, r1, r2);
    CleanerThen(r1, r2, r3);
    CleanerThen(r, r2, r3);
    CleanSame(r, r1);
    CleanSame(r1, r2);
    CleanSame(r1, r3);
    AskedStays(r1, r3, r.priority);
    FirstAgain(r, r3, r.priority);
    FirstAgain(r2, r3, r2.order);
    if r1.focus.Some? {
      CleanerStays(r2, r3, r1.focus.value);
      SameAudible(r1, r3, r1.focus.value);
    }
    assert PickWaiting(r) == (r3, t);
  }

  lemma {:induction false} CleanSame(r: Router, r': Router)
    requires Cleaner(r, r')
    ensures r' == r.(suppressed := r'.suppressed)
    ensures forall id :: Suppressed(r', id) <==> Suppressed(r, id)
  {
    hide Suppressed;
  }

  lemma {:induction false} ReadyAgain(r: Router, r': Router, ids: seq<Id>)
    requires r'.chans == r.chans
    ensures ReadyOnes(r', ReadyOnes(r, ids)) == ReadyOnes(r, ids)
  {
    hide Pending;
    if ids != [] {
      ReadyAgain(r, r', ids[1..]);
    }
  }

  lemma {:induction false} PruneAgain(r: Router, r': Router)
    requires r'.chans == r.chans && r'.priority == Prune(r).priority && r'.authorized == Prune(r).authorized
    ensures Prune(r') == r'
  {
    ReadyAgain(r, r', r.priority);
    hide ReadyOnes, Pending;
  }

  /** Picking twice is picking once: the same channel, and no further change. */
  lemma {:induction false} PickAgain(r: Router)
    ensures Pick(Pick(r).0) == Pick(r)
  {
    hide Prune, Audible, PickWaiting;
    var r1 := Prune(r);
    PruneShape(r);
    PruneAgain(r, r1);
    if !Held(r1) {
      var r2 := r1.(hold := None);
      PruneAgain(r, r2);
      if !(r2.active.Some? && Audible(r2, r2.active.value)) {
        WaitingAgain(r2);
        var r3 := PickWaiting(r2).0;
        CleanSame(r2, r3);
        PruneAgain(r, r3);
        if r2.active.Some? {
          SameAudible(r2, r3, r2.active.value);
        }
      }
    }
  }

  lemma {:induction false} PruneShape(r: Router)
    ensures Prune(r) == r.(priority := Prune(r).priority, authorized := Prune(r).authorized)
  {
  }
}
