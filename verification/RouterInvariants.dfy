/** The joint invariant of the router, and that every operation keeps it. */
module RouterInvariants {
  import opened Options
  import opened RouterModel

  // ---- One channel -----------------------------------------------------------

  predicate Has(entries: seq<Entry>, id: nat) {
    exists k :: 0 <= k < |entries| && entries[k].id == id
  }

  ghost predicate Unique(entries: seq<Entry>) {
    forall i, j :: 0 <= i < j < |entries| ==> entries[i].id != entries[j].id
  }

  ghost predicate Numbered(entries: seq<Entry>, last: nat) {
    forall k :: 0 <= k < |entries| ==> entries[k].id <= last
  }

  /** A cursor inside the batch, entries numbered apart and up to `last`, and only entries of the
      batch marked as decisions or set aside. */
  ghost predicate ChanOk(c: Chan, last: nat) {
    && c.cursor <= |c.entries|
    && Unique(c.entries) && Numbered(c.entries, last)
    && (forall d :: d in c.decisions ==> Has(c.entries, d))
    && (forall d :: d in c.aside ==> Has(c.entries, d))
  }

  lemma {:induction false} InsertOk(entries: seq<Entry>, at: nat, e: Entry)
    requires e.id > 0 && Unique(entries) && Numbered(entries, e.id - 1) && at <= |entries|
    ensures var s := entries[..at] + [e] + entries[at..];
            && Unique(s) && Numbered(s, e.id) && Has(s, e.id)
            && forall id :: Has(entries, id) ==> Has(s, id)
  {
    var s := entries[..at] + [e] + entries[at..];
    assert s[at].id == e.id;
    forall id | Has(entries, id) ensures Has(s, id) {
      var k :| 0 <= k < |entries| && entries[k].id == id;
      assert s[if k < at then k else k + 1].id == id;
    }
  }

  lemma {:induction false} PushOk(c: Chan, e: Entry, replace: bool, front: bool, reading: bool)
    requires e.id > 0 && ChanOk(c, e.id - 1)
    ensures ChanOk(PushEntry(c, e, replace, front, reading), e.id)
    ensures PushEntry(c, e, replace, front, reading).muted == c.muted
    ensures Has(PushEntry(c, e, replace, front, reading).entries, e.id)
  {
    hide CaughtUp;
    var c1 := if replace || (CaughtUp(c) && !reading && !c.growing) then Emptied(c) else c;
    InsertOk(c1.entries, if front && c1.cursor <= |c1.entries| then c1.cursor else |c1.entries|, e);
  }

  lemma {:induction false} TakeOk(c: Chan, last: nat)
    requires ChanOk(c, last)
    ensures ChanOk(TakeEntry(c).0, last) && TakeEntry(c).0.muted == c.muted
  {
  }

  lemma {:induction false} ThoseAre(c: Chan, entries: seq<Entry>, before: bool, which: Resolved, gone: bool)
    ensures forall e :: e in Those(c, entries, before, which, gone) <==>
                        e in entries && Goes(c, e.id, before, which) == gone
    ensures |Those(c, entries, before, which, gone)| <= |entries|
  {
    if entries != [] {
      ThoseAre(c, entries[1..], before, which, gone);
      assert entries == [entries[0]] + entries[1..];
    }
  }

  /** `a` is `b` with some entries left out, the others in their order. */
  predicate Subsequence(a: seq<Entry>, b: seq<Entry>)
    decreases |b|
  {
    a == [] || (b != [] && if a[0] == b[0] then Subsequence(a[1..], b[1..]) else Subsequence(a, b[1..]))
  }

  lemma {:induction false} TailWithin(a: seq<Entry>, b: seq<Entry>)
    requires a != [] && Subsequence(a, b)
    ensures Subsequence(a[1..], b)
    decreases |b|
  {
    if a[0] == b[0] {
      if |a| > 1 && a[1] == b[0] {
        TailWithin(a[1..], b[1..]);
      }
    } else {
      TailWithin(a, b[1..]);
      if |a| > 1 && a[1] == b[0] {
        TailWithin(a[1..], b[1..]);
      }
    }
  }

  lemma {:induction false} ThoseInOrder(c: Chan, entries: seq<Entry>, before: bool, which: Resolved, gone: bool)
    ensures Subsequence(Those(c, entries, before, which, gone), entries)
  {
    hide Goes;
    if entries != [] {
      var rest := Those(c, entries[1..], before, which, gone);
      ThoseInOrder(c, entries[1..], before, which, gone);
      if rest != [] && rest[0] == entries[0] {
        TailWithin(rest, entries[1..]);
      }
    }
  }

  lemma {:induction false} ThoseUnique(c: Chan, entries: seq<Entry>, before: bool, which: Resolved, gone: bool)
    requires Unique(entries)
    ensures Unique(Those(c, entries, before, which, gone))
  {
    if entries != [] {
      var rest := Those(c, entries[1..], before, which, gone);
      ThoseUnique(c, entries[1..], before, which, gone);
      ThoseAre(c, entries[1..], before, which, gone);
      forall j | 0 <= j < |rest| ensures rest[j].id != entries[0].id {
        assert rest[j] in entries[1..];
      }
    }
  }

  lemma {:induction false} ThoseSnoc(c: Chan, s: seq<Entry>, e: Entry, before: bool, which: Resolved, gone: bool)
    ensures Those(c, s + [e], before, which, gone)
         == Those(c, s, before, which, gone) + (if Goes(c, e.id, before, which) == gone then [e] else [])
  {
    if s != [] {
      assert (s + [e])[1..] == s[1..] + [e];
      ThoseSnoc(c, s[1..], e, before, which, gone);
    } else {
      assert (s + [e])[1..] == [];
    }
  }

  lemma {:induction false} HasElement(entries: seq<Entry>, e: Entry)
    requires e in entries
    ensures Has(entries, e.id)
  {
  }

  lemma {:induction false} DropHalves(c: Chan, which: Resolved, last: nat)
    requires ChanOk(c, last)
    ensures var c' := DropThe(c, which).0;
            && c'.cursor <= |c'.entries| && c'.muted == c.muted
            && c'.entries[..c'.cursor] == Those(c, c.entries[..c.cursor], true, which, false)
            && c'.entries[c'.cursor..] == Those(c, c.entries[c.cursor..], false, which, false)
            && DropThe(c, which).1 == Those(c, c.entries[c.cursor..], false, which, true)
  {
    hide Those, Unique;
  }

  lemma {:induction false} DropStaysOk(c: Chan, which: Resolved, last: nat)
    requires ChanOk(c, last)
    ensures ChanOk(DropThe(c, which).0, last)
  {
    var read, ahead := c.entries[..c.cursor], c.entries[c.cursor..];
    var (c', unread) := DropThe(c, which);
    var stayRead, stayAhead := Those(c, read, true, which, false), Those(c, ahead, false, which, false);
    forall i, j | 0 <= i < j < |ahead| ensures ahead[i].id != ahead[j].id {
      assert ahead[i] == c.entries[c.cursor + i] && ahead[j] == c.entries[c.cursor + j];
    }
    ThoseAre(c, read, true, which, false);
    ThoseAre(c, ahead, false, which, false);
    ThoseAre(c, read, true, which, true);
    ThoseAre(c, ahead, false, which, true);
    ThoseUnique(c, read, true, which, false);
    ThoseUnique(c, ahead, false, which, false);
    DropSplit(c, read, ahead, stayRead, stayAhead, last);
    DropMarks(c, which, read, ahead);
  }

  /** Taking decisions out keeps the order and the split between read and unread: what stays is the
      read ones that stay, then the unread ones that stay, the cursor between them; exactly the
      decisions named go, and the unread among them are returned. */
  lemma {:induction false} DropOk(c: Chan, which: Resolved, last: nat)
    requires ChanOk(c, last)
    ensures ChanOk(DropThe(c, which).0, last) && DropThe(c, which).0.muted == c.muted
    ensures var (c', unread) := DropThe(c, which);
            && (forall e :: e in c'.entries[..c'.cursor] <==> e in c.entries[..c.cursor] && !Goes(c, e.id, true, which))
            && (forall e :: e in c'.entries[c'.cursor..] <==>
                            e in c.entries[c.cursor..] && !Goes(c, e.id, false, which))
            && (forall e :: e in unread <==> e in c.entries[c.cursor..] && Goes(c, e.id, false, which))
            && Subsequence(c'.entries[..c'.cursor], c.entries[..c.cursor])
            && Subsequence(c'.entries[c'.cursor..], c.entries[c.cursor..])
            && Subsequence(unread, c.entries[c.cursor..])
  {
    hide Subsequence, DropThe, Those, Goes, Unique, Numbered;
    DropHalves(c, which, last);
    DropStaysOk(c, which, last);
    var read, ahead := c.entries[..c.cursor], c.entries[c.cursor..];
    ThoseAre(c, read, true, which, false);
    ThoseAre(c, ahead, false, which, false);
    ThoseAre(c, ahead, false, which, true);
    ThoseInOrder(c, read, true, which, false);
    ThoseInOrder(c, ahead, false, which, false);
    ThoseInOrder(c, ahead, false, which, true);
  }

  lemma {:induction false} DropSplit(c: Chan, read: seq<Entry>, ahead: seq<Entry>, stayRead: seq<Entry>,
                                     stayAhead: seq<Entry>, last: nat)
    requires ChanOk(c, last) && read == c.entries[..c.cursor] && ahead == c.entries[c.cursor..]
    requires Unique(stayRead) && Unique(stayAhead)
    requires forall e :: e in stayRead ==> e in read
    requires forall e :: e in stayAhead ==> e in ahead
    ensures Unique(stayRead + stayAhead) && Numbered(stayRead + stayAhead, last)
  {
    var s := stayRead + stayAhead;
    forall i, j | 0 <= i < |stayRead| && 0 <= j < |stayAhead| ensures stayRead[i].id != stayAhead[j].id {
      assert stayRead[i] in read && stayAhead[j] in ahead;
      var k :| 0 <= k < |read| && read[k] == stayRead[i];
      var m :| 0 <= m < |ahead| && ahead[m] == stayAhead[j];
      assert c.entries[k] == read[k] && c.entries[c.cursor + m] == ahead[m];
    }
    forall i | 0 <= i < |s| ensures s[i].id <= last {
      if i < |stayRead| {
        assert stayRead[i] in read;
      } else {
        assert stayAhead[i - |stayRead|] in ahead;
      }
    }
  }

  lemma {:induction false} DropMarks(c: Chan, which: Resolved, read: seq<Entry>, ahead: seq<Entry>)
    requires c.cursor <= |c.entries| && read == c.entries[..c.cursor] && ahead == c.entries[c.cursor..]
    requires (forall d :: d in c.decisions ==> Has(c.entries, d)) && (forall d :: d in c.aside ==> Has(c.entries, d))
    ensures var c' := DropThe(c, which).0;
            && (forall d :: d in c'.decisions ==> Has(c'.entries, d))
            && (forall d :: d in c'.aside ==> Has(c'.entries, d))
  {
    var c' := DropThe(c, which).0;
    forall d | (d in c'.decisions || d in c'.aside) ensures Has(c'.entries, d) {
      assert Has(c.entries, d);
      var k :| 0 <= k < |c.entries| && c.entries[k].id == d;
      MarkStays(c, which, k);
    }
  }

  lemma {:induction false} MarkStays(c: Chan, which: Resolved, k: nat)
    requires c.cursor <= |c.entries| && k < |c.entries|
    ensures var c' := DropThe(c, which).0; var d := c.entries[k].id;
            (d in c'.decisions || d in c'.aside) ==> Has(c'.entries, d)
  {
    var read, ahead := c.entries[..c.cursor], c.entries[c.cursor..];
    var e := c.entries[k];
    var before := k < c.cursor;
    var part := if before then read else ahead;
    assert e in part by {
      assert if before then read[k] == e else ahead[k - c.cursor] == e;
    }
    ThoseAre(c, part, before, which, true);
    ThoseAre(c, part, before, which, false);
    if Goes(c, e.id, before, which) {
      assert e.id in EntryIds(Those(c, part, before, which, true));
    } else {
      HasElement(DropThe(c, which).0.entries, e);
    }
  }

  // ---- The whole router ------------------------------------------------------

  ghost predicate ChansOk(r: Router) {
    forall id :: id in r.chans ==> ChanOk(r.chans[id], r.nextEntry) && (r.chans[id].muted <==> id in r.muted)
  }

  ghost predicate OrderOk(r: Router) {
    && Apart(r.order)
    && (forall id :: id in r.order <==> id in r.chans)
  }

  /** Everything named is open. */
  ghost predicate NamesOk(r: Router) {
    && (r.active.Some? ==> r.active.value in r.chans)
    && (r.lastActive.Some? ==> r.lastActive.value in r.chans)
    && (r.focus.Some? ==> r.focus.value in r.chans)
    && (r.reading.Some? ==> r.reading.value.0 in r.chans)
    && (forall id :: id in r.suppressed ==> id in r.chans)
    && (forall id :: id in r.priority ==> id in r.chans)
    && (forall id :: id in r.authorized ==> id in r.chans)
  }

  /** The reader of record, and that a hold or an armed announcement names the active channel. */
  ghost predicate FloorOk(r: Router) {
    && (r.active.Some? ==> r.lastActive == r.active)
    && (r.lastActive.Some? ==> r.lastReader == r.lastActive && r.closedReaderTab == None)
    && (r.hold.Some? ==> r.active == Some(r.hold.value.0) && r.hold.value.1 <= r.nextEntry)
    && (r.announce.Some? ==> r.active == Some(r.announce.value.channel))
  }

  ghost predicate Inv(r: Router) {
    ChansOk(r) && OrderOk(r) && NamesOk(r) && FloorOk(r)
  }

  lemma {:induction false} EmptyOk()
    ensures Inv(EMPTY)
  {
  }

  lemma {:induction false} OkLater(c: Chan, last: nat, later: nat)
    requires ChanOk(c, last) && last <= later
    ensures ChanOk(c, later)
  {
  }

  /** Changing one channel's batch. */
  lemma {:induction false} UpdateKeeps(r: Router, id: Id, c: Chan, last: nat)
    requires Inv(r) && id in r.chans && last >= r.nextEntry
    requires ChanOk(c, last) && c.muted == r.chans[id].muted
    ensures Inv(Update(r, id, c).(nextEntry := last))
  {
    hide ChanOk;
    forall x | x in r.chans && x != id ensures ChanOk(r.chans[x], last) {
      OkLater(r.chans[x], r.nextEntry, last);
    }
  }

  lemma {:induction false} NewKeeps(r: Router, id: Id, c: Chan)
    requires Inv(r) && id !in r.chans
    requires ChanOk(c, r.nextEntry) && (c.muted <==> id in r.muted)
    ensures Inv(Update(r, id, c).(order := r.order + [id]))
  {
    hide ChanOk;
    assert id !in r.order;
  }

  /** Operations that touch no channel. */
  lemma {:induction false} SameChans(r: Router, r': Router)
    requires r'.chans == r.chans && r'.order == r.order && r'.nextEntry == r.nextEntry && r'.muted == r.muted
    ensures ChansOk(r) ==> ChansOk(r')
    ensures OrderOk(r) ==> OrderOk(r')
  {
    hide ChanOk, Apart;
  }

  lemma {:induction false} OpenKeeps(r: Router, id: Id, title: Option<string>, hostTab: Option<string>,
      policy: Option<Policy>)
    requires Inv(r)
    ensures Inv(Open(r, id, title, hostTab, policy).0)
  {
    if id in r.chans {
      var c := Open(r, id, title, hostTab, policy).0.chans[id];
      assert ChanOk(c, r.nextEntry);
      hide ChanOk;
      UpdateKeeps(r, id, c, r.nextEntry);
    } else {
      NewKeeps(r, id, Fresh(title, hostTab, if policy.Some? then policy.value else Latest, id in r.muted));
    }
  }

  lemma {:induction false} LabelKeeps(r: Router, id: Id, title: string)
    requires Inv(r)
    ensures Inv(LabelIfMissing(r, id, title).0)
  {
    if id in r.chans {
      var c := r.chans[id].(title := Some(title));
      assert ChanOk(c, r.nextEntry);
      hide ChanOk;
      UpdateKeeps(r, id, c, r.nextEntry);
    }
  }

  lemma {:induction false} WithoutIs(ids: seq<Id>, id: Id)
    ensures forall x :: x in Without(ids, id) <==> x in ids && x != id
  {
    if ids != [] {
      WithoutIs(ids[1..], id);
      assert ids == [ids[0]] + ids[1..];
    }
  }

  ghost predicate Apart(ids: seq<Id>) {
    forall i, j :: 0 <= i < j < |ids| ==> ids[i] != ids[j]
  }

  lemma {:induction false} WithoutApart(ids: seq<Id>, id: Id)
    requires Apart(ids)
    ensures Apart(Without(ids, id))
  {
    if ids != [] {
      var rest := Without(ids[1..], id);
      WithoutApart(ids[1..], id);
      WithoutIs(ids[1..], id);
      forall j | 0 <= j < |rest| ensures rest[j] != ids[0] {
        assert rest[j] in ids[1..];
      }
    }
  }

  lemma {:induction false} ClosedChans(r: Router, id: Id)
    requires ChansOk(r) && OrderOk(r) && id in r.chans
    ensures ChansOk(Close(r, id).0) && OrderOk(Close(r, id).0)
  {
    hide ChanOk;
    WithoutIs(r.order, id);
    WithoutApart(r.order, id);
  }

  lemma {:induction false} ClosedNames(r: Router, id: Id)
    requires NamesOk(r) && id in r.chans
    ensures NamesOk(Close(r, id).0)
  {
    hide Without;
    WithoutIs(r.priority, id);
  }

  lemma {:induction false} ClosedFloor(r: Router, id: Id)
    requires FloorOk(r) && id in r.chans
    ensures FloorOk(Close(r, id).0)
  {
    hide Without;
  }

  lemma {:induction false} CloseKeeps(r: Router, id: Id)
    requires Inv(r)
    ensures Inv(Close(r, id).0)
  {
    hide ChansOk, OrderOk, NamesOk, FloorOk;
    if id in r.chans {
      ClosedChans(r, id);
      ClosedNames(r, id);
      ClosedFloor(r, id);
      hide Close;
    }
  }

  lemma {:induction false} FocusKeeps(r: Router, id: Id)
    requires Inv(r)
    ensures Inv(Focus(r, id).0)
  {
    hide ChansOk, OrderOk, Ready;
    SameChans(r, Focus(r, id).0);
  }

  lemma {:induction false} MutedChans(r: Router, id: Id, muted: bool)
    requires ChansOk(r)
    ensures ChansOk(SetMuted(r, id, muted))
  {
    if id in r.chans {
      MutedOk(r.chans[id], muted, r.nextEntry);
    }
    hide ChanOk;
  }

  lemma {:induction false} MutedOk(c: Chan, muted: bool, last: nat)
    requires ChanOk(c, last)
    ensures ChanOk(c.(muted := muted), last)
  {
  }

  lemma {:induction false} MutedRest(r: Router, id: Id, muted: bool)
    requires OrderOk(r) && NamesOk(r) && FloorOk(r)
    ensures OrderOk(SetMuted(r, id, muted)) && NamesOk(SetMuted(r, id, muted)) && FloorOk(SetMuted(r, id, muted))
  {
    hide Apart;
    assert SetMuted(r, id, muted).chans.Keys == r.chans.Keys;
  }

  lemma {:induction false} MuteKeeps(r: Router, id: Id, muted: bool)
    requires Inv(r)
    ensures Inv(SetMuted(r, id, muted))
  {
    hide ChansOk, OrderOk, NamesOk, FloorOk, SetMuted;
    MutedChans(r, id, muted);
    MutedRest(r, id, muted);
  }

  lemma {:induction false} PushKeeps(r: Router, id: Id, text: string, title: Option<string>, replace: bool, front: bool)
    requires Inv(r)
    ensures Inv(PushWith(r, id, text, title, replace, front).0)
    ensures id in r.chans ==>
              && id in PushWith(r, id, text, title, replace, front).0.chans
              && Has(PushWith(r, id, text, title, replace, front).0.chans[id].entries, r.nextEntry + 1)
  {
    hide PushEntry, ChanOk;
    if id in r.chans {
      var e := Entry(r.nextEntry + 1, text, title);
      PushOk(r.chans[id], e, replace, front, IsReading(r, id));
      UpdateKeeps(r, id, PushEntry(r.chans[id], e, replace, front, IsReading(r, id)), e.id);
      hide Inv;
    }
  }

  lemma {:induction false} AppendKeeps(r: Router, id: Id, text: string, decision: bool, heard: bool)
    requires Inv(r)
    ensures Inv(Append(r, id, text, decision, heard).0)
  {
    hide PushWith, Pending, ChanOk;
    if id in r.chans {
      PushKeeps(r, id, text, None, false, false);
      PushNumbers(r, id, text, None, false, false);
      var r1 := PushWith(r, id, text, None, false, false).0;
      var (r2, _) := Append(r, id, text, decision, heard);
      AppendMarks(r1.chans[id], r2.chans[id], decision, heard, r1.nextEntry);
      UpdateKeeps(r1, id, r2.chans[id], r1.nextEntry);
      hide Inv;
    }
  }

  lemma {:induction false} AppendMarks(c: Chan, c': Chan, decision: bool, heard: bool, entry: nat)
    requires ChanOk(c, entry) && Has(c.entries, entry)
    requires c' == c.(growing := true, agent := true, cursor := c'.cursor,
                      decisions := if decision then c.decisions[entry := heard] else c.decisions)
    requires c'.cursor == c.cursor || c'.cursor == |c.entries|
    ensures ChanOk(c', entry)
  {
  }

  lemma {:induction false} PushNumbers(r: Router, id: Id, text: string, title: Option<string>, replace: bool,
      front: bool)
    requires id in r.chans
    ensures PushWith(r, id, text, title, replace, front).0.nextEntry == r.nextEntry + 1
  {
  }

  lemma {:induction false} DropKeeps(r: Router, id: Id, which: Resolved)
    requires Inv(r)
    ensures Inv(DropDecisions(r, id, which).0)
  {
    hide DropThe, ChanOk;
    if id in r.chans {
      DropOk(r.chans[id], which, r.nextEntry);
      UpdateKeeps(r, id, DropThe(r.chans[id], which).0, r.nextEntry);
    }
  }

  lemma {:induction false} EndBatchKeeps(r: Router, id: Id)
    requires Inv(r)
    ensures Inv(EndBatch(r, id))
  {
    if id in r.chans {
      var c := r.chans[id].(growing := false);
      assert ChanOk(c, r.nextEntry);
      hide ChanOk;
      UpdateKeeps(r, id, c, r.nextEntry);
    }
  }

  /** Asking about suppressions only removes some. */
  ghost predicate Lifted(r: Router, r': Router) {
    r' == r.(suppressed := r'.suppressed) && forall id :: id in r'.suppressed ==> id in r.suppressed
  }

  lemma {:induction false} FirstPickableLifts(r: Router, ids: seq<Id>)
    ensures Lifted(r, FirstPickable(r, ids).0)
    ensures FirstPickable(r, ids).1.Some? ==>
              FirstPickable(r, ids).1.value in ids && Audible(r, FirstPickable(r, ids).1.value)
    decreases |ids|
  {
    if ids != [] && !Pickable(r, ids[0]) {
      FirstPickableLifts(AskPickable(r, ids[0]), ids[1..]);
    }
  }

  lemma {:induction false} LiftedKeeps(r: Router, r': Router)
    requires Inv(r) && Lifted(r, r')
    ensures Inv(r')
  {
  }

  lemma {:induction false} ReadyOnesAre(r: Router, ids: seq<Id>)
    ensures forall id :: id in ReadyOnes(r, ids) <==> id in ids && Ready(r, id)
  {
    if ids != [] {
      ReadyOnesAre(r, ids[1..]);
      assert ids == [ids[0]] + ids[1..];
    }
  }

  lemma {:induction false} PruneKeeps(r: Router)
    requires Inv(r)
    ensures Inv(Prune(r))
  {
    ReadyOnesAre(r, r.priority);
  }

  lemma {:induction false} PickWaitingIs(r: Router)
    requires Inv(r)
    ensures Lifted(r, PickWaiting(r).0)
    ensures PickWaiting(r).1.Some? ==> Audible(r, PickWaiting(r).1.value)
  {
    hide Audible, Suppressed, Gated, FirstPickable, AskSuppressed;
    FirstPickableLifts(r, r.priority);
    var (r1, first) := FirstPickable(r, r.priority);
    if first == None && r1.focus.Some? {
      AskLifts(r1, r1.focus.value);
      SameAudible(r, r1, r1.focus.value);
    }
    var r2 := if r1.focus.Some? then AskPickable(r1, r1.focus.value) else r1;
    FirstPickableLifts(r2, r2.order);
    var t := FirstPickable(r2, r2.order).1;
    if t.Some? && Lifted(r, r2) {
      SameAudible(r, r2, t.value);
    }
  }

  lemma {:induction false} AskLifts(r: Router, id: Id)
    ensures Lifted(r, AskPickable(r, id)) && Lifted(r, AskSuppressed(r, id))
  {
  }

  lemma {:induction false} SameAudible(r: Router, r': Router, id: Id)
    requires r'.chans == r.chans
    ensures Audible(r', id) <==> Audible(r, id)
  {
  }

  /** Picking changes no batch, names an audible channel and only ever ends a hold. */
  lemma {:induction false} PickKeeps(r: Router)
    requires Inv(r)
    ensures Inv(Pick(r).0)
    ensures Pick(r).1.Some? ==> Audible(r, Pick(r).1.value)
    ensures var r' := Pick(r).0;
            r' == r.(priority := r'.priority, authorized := r'.authorized, suppressed := r'.suppressed, hold := r'.hold)
    ensures Pick(r).0.hold == r.hold || Pick(r).0.hold == None
    ensures Pick(r).0.hold.Some? ==> Pick(r).1 == Some(r.hold.value.0)
    ensures Pick(r).1 == None ==> Pick(r).0.hold == None
  {
    hide ChansOk, OrderOk, Audible, PickWaiting;
    PruneKeeps(r);
    var r1 := Prune(r);
    var r2 := r1.(hold := None);
    if Held(r1) {
      SameAudible(r, r1, r1.hold.value.0);
      HeldAudible(r1);
    } else {
      HoldEnds(r1);
      PickWaitingIs(r2);
      LiftedKeeps(r2, PickWaiting(r2).0);
      if r2.active.Some? {
        SameAudible(r, r2, r2.active.value);
      }
      if PickWaiting(r2).1.Some? {
        SameAudible(r, r2, PickWaiting(r2).1.value);
      }
    }
  }

  lemma {:induction false} HeldAudible(r: Router)
    requires Held(r)
    ensures Audible(r, r.hold.value.0)
  {
  }

  lemma {:induction false} HoldEnds(r: Router)
    requires Inv(r)
    ensures Inv(r.(hold := None))
  {
  }

  lemma {:induction false} ReaderKeeps(r: Router, id: Id)
    requires Inv(r) && id in r.chans && r.announce == None && (r.hold.Some? ==> r.hold.value.0 == id)
    ensures Inv(SetReader(r, id))
  {
    hide ChansOk, OrderOk;
    SameChans(r, SetReader(r, id));
  }

  lemma {:induction false} FeedEntryKeeps(r: Router, id: Id)
    requires Inv(r)
    ensures Inv(FeedEntry(r, id).0)
  {
    hide TakeEntry, Pending, ChanOk;
    if id in r.chans {
      var (c, e) := TakeEntry(r.chans[id]);
      TakeOk(r.chans[id], r.nextEntry);
      UpdateKeeps(r, id, c, r.nextEntry);
      FedKeeps(Update(r, id, c), id, e, Pending(c) == 0);
    }
  }

  lemma {:induction false} FedKeeps(r: Router, id: Id, e: Option<Entry>, spent: bool)
    requires Inv(r) && id in r.chans
    ensures e.Some? ==> Inv(r.(authorized := if spent then r.authorized - {id} else r.authorized,
                               reading := Some((id, e.value.id))))
  {
    hide ChansOk, OrderOk;
    if e.Some? {
      SameChans(r, r.(authorized := if spent then r.authorized - {id}
          else r.authorized, reading := Some((id, e.value.id))));
    }
  }

  lemma {:induction false} FeedFromKeeps(r: Router, id: Id)
    requires Inv(r) && id in r.chans && r.announce == None && (r.hold.Some? ==> r.hold.value.0 == id)
    ensures Inv(FeedFrom(r, id).0)
  {
    hide ChansOk, OrderOk, IsHandoff, FeedEntry;
    ReaderKeeps(r, id);
    if r.active != Some(id) && IsHandoff(r, id) {
      SameChans(r, FeedFrom(r, id).0);
    } else {
      FeedEntryKeeps(if r.active != Some(id) then SetReader(r, id) else r, id);
    }
  }

  lemma {:induction false} NextFeedKeeps(r: Router)
    requires Inv(r)
    ensures Inv(NextFeed(r).0)
  {
    hide ChansOk, OrderOk, Pick, FeedFrom, Audible;
    var r0 := r.(reading := None, announce := None);
    SameChans(r, r0);
    assert Inv(r0);
    if r.announce.Some? {
      SameChans(r, NextFeed(r).0);
    } else {
      assert r.(reading := None) == r0;
      PickKeeps(r0);
      var (r1, target) := Pick(r0);
      if target.Some? {
        AudibleOpen(r0, target.value);
        FeedFromKeeps(r1, target.value);
      } else {
        Resting(r1);
      }
    }
  }

  lemma {:induction false} AudibleOpen(r: Router, id: Id)
    requires Audible(r, id)
    ensures id in r.chans
  {
  }

  lemma {:induction false} Resting(r: Router)
    requires Inv(r) && r.hold == None && r.announce == None
    ensures Inv(r.(active := None))
  {
    hide ChansOk, OrderOk;
    SameChans(r, r.(active := None));
  }

  lemma {:induction false} TargetOpen(r: Router)
    requires Inv(r) && r.order != []
    ensures NextTarget(r) in r.chans && NextTarget(r) in Ring(r)
  {
    hide ChansOk, Unmuted, NonEmpty, Around;
  }

  /** What a manual switch changes besides the batch: suppressions, the reader, the announcement and the hold. */
  lemma {:induction false} SwitchKeeps(r: Router, target: Id, suppressed: map<Id, nat>, replay: bool)
    requires Inv(r) && target in r.chans && forall id :: id in suppressed ==> id in r.chans
    ensures Inv(Arm(SetReader(r.(suppressed := suppressed), target), target, replay, true)
                .(hold := if replay then Some((target, r.nextEntry)) else None))
  {
    hide ChansOk, OrderOk;
    SameChans(r, Arm(SetReader(r.(suppressed := suppressed), target), target, replay, true)
                 .(hold := if replay then Some((target, r.nextEntry)) else None));
  }

  /** The state after a manual switch, in two moves: the cursor, then everything else. */
  lemma {:induction false} NextChannelIs(r: Router)
    requires Inv(r) && r.order != []
    ensures var target := NextTarget(r); var c := r.chans[target];
            var replay := CaughtUp(c) || Engaged(r) == Some(target) || c.replaying;
            var r1 := if replay then Update(r, target, c.(cursor := 0, replaying := true)) else r;
            var r' := NextChannel(r).0;
            && NextChannel(r).1 == Some((target, replay))
            && (forall id :: id in r'.suppressed ==> id in r.chans)
            && r' == Arm(SetReader(r1.(suppressed := r'.suppressed), target), target, replay, true)
                     .(hold := if replay then Some((target, r1.nextEntry)) else None)
  {
    TargetOpen(r);
    hide ChansOk, OrderOk, NextTarget, CaughtUp, Engaged;
  }

  lemma {:induction false} NextChannelKeeps(r: Router)
    requires Inv(r)
    ensures Inv(NextChannel(r).0)
  {
    if r.order != [] {
      TargetOpen(r);
      NextChannelIs(r);
      var target := NextTarget(r);
      var c := r.chans[target];
      var c' := c.(cursor := 0, replaying := true);
      assert ChanOk(c', r.nextEntry);
      hide ChanOk, NextTarget, NextChannel, CaughtUp, Engaged;
      UpdateKeeps(r, target, c', r.nextEntry);
      var replay := CaughtUp(c) || Engaged(r) == Some(target) || c.replaying;
      SwitchKeeps(if replay then Update(r, target, c') else r, target, NextChannel(r).0.suppressed, replay);
      hide Inv;
    }
  }

  /** With an armed announcement the active channel is the last reader, so any other is a switch. */
  lemma {:induction false} ArmedMeansHandoff(r: Router, id: Id)
    requires Inv(r) && r.announce.Some? && r.announce.value.channel != id
    ensures IsHandoff(r, id)
  {
    hide ChansOk, OrderOk, NamesOk;
  }

  lemma {:induction false} TakenNames(r: Router, id: Id)
    requires NamesOk(r) && id in r.chans
    ensures NamesOk(TakeFloor(r, id).0)
  {
    hide IsHandoff;
  }

  lemma {:induction false} TakenFloor(r: Router, id: Id)
    requires FloorOk(r) && id in r.chans
    ensures FloorOk(TakeFloor(r, id).0)
  {
    hide IsHandoff;
  }

  lemma {:induction false} TakeFloorKeeps(r: Router, id: Id)
    requires Inv(r)
    ensures Inv(TakeFloor(r, id).0)
  {
    hide ChansOk, OrderOk, NamesOk, FloorOk, IsHandoff;
    if id in r.chans {
      SameChans(r, TakeFloor(r, id).0);
      TakenNames(r, id);
      TakenFloor(r, id);
      hide TakeFloor;
    }
  }

  lemma {:induction false} ReadAtKeeps(r: Router, id: Id, entry: Option<nat>, replay: bool)
    requires Inv(r)
    ensures Inv(ReadAt(r, id, entry, replay).0)
  {
    if ReadAt(r, id, entry, replay).1 {
      var c := r.chans[id];
      var at := if entry.Some? then Where(c.entries, entry.value) else 0;
      var c' := c.(cursor := at, replaying := replay || c.replaying);
      assert ChanOk(c', r.nextEntry);
      hide ChanOk, Where;
      UpdateKeeps(r, id, c', r.nextEntry);
      ReadFloor(Update(r, id, c'), id, replay);
    }
  }

  lemma {:induction false} ReadFloor(r: Router, id: Id, replay: bool)
    requires Inv(r) && id in r.chans
    ensures var r' := SetReader(r, id).(suppressed := r.suppressed - {id}, authorized := r.authorized + {id},
                                        hold := Some((id, r.nextEntry)));
            Inv(if IsHandoff(r, id) then Arm(r', id, replay, true) else r')
  {
    if r.announce.Some? && r.announce.value.channel != id {
      ArmedMeansHandoff(r, id);
    }
    hide ChansOk, OrderOk, IsHandoff;
    var r' := SetReader(r, id).(suppressed := r.suppressed - {id}, authorized := r.authorized + {id},
                                hold := Some((id, r.nextEntry)));
    SameChans(r, r');
    SameChans(r, Arm(r', id, replay, true));
  }

  lemma {:induction false} AsideKeeps(r: Router, id: Id, entry: nat, aside: bool)
    requires Inv(r)
    ensures Inv(SetAside(r, id, entry, aside).0)
  {
    if SetAside(r, id, entry, aside).1 {
      var c := r.chans[id];
      assert c.entries[Where(c.entries, entry)].id == entry;
      var c' := c.(aside := if aside then c.aside + {entry} else c.aside - {entry});
      assert ChanOk(c', r.nextEntry);
      hide ChanOk, Where;
      UpdateKeeps(r, id, c', r.nextEntry);
    }
  }

  lemma {:induction false} RevisedOk(c: Chan, k: nat, text: string, last: nat)
    requires ChanOk(c, last) && k < |c.entries|
    ensures ChanOk(c.(entries := c.entries[k := c.entries[k].(text := text)]), last)
  {
    var c' := c.(entries := c.entries[k := c.entries[k].(text := text)]);
    forall d | Has(c.entries, d) ensures Has(c'.entries, d) {
      var i :| 0 <= i < |c.entries| && c.entries[i].id == d;
      assert c'.entries[i].id == d;
    }
  }

  lemma {:induction false} ReviseKeeps(r: Router, id: Id, entry: nat, text: string)
    requires Inv(r)
    ensures Inv(Revise(r, id, entry, text).0)
  {
    hide ChanOk, Where;
    if Revise(r, id, entry, text).1 {
      var c := r.chans[id];
      var k := Where(c.entries, entry);
      RevisedOk(c, k, text, r.nextEntry);
      UpdateKeeps(r, id, c.(entries := c.entries[k := c.entries[k].(text := text)]), r.nextEntry);
    }
  }

  lemma {:induction false} EndedOk(c: Chan, growing: bool, last: nat)
    requires ChanOk(c, last)
    ensures ChanOk(SkipToEnd(c.(growing := growing)).0, last)
  {
  }

  lemma {:induction false} DisarmKeeps(r: Router, id: Id)
    requires Inv(r)
    ensures Inv(Disarm(r, id)) && Disarm(r, id).chans == r.chans && Disarm(r, id).nextEntry == r.nextEntry
  {
    hide ChansOk, OrderOk;
    SameChans(r, Disarm(r, id));
  }

  lemma {:induction false} FlushOneKeeps(r: Router, id: Id)
    requires Inv(r)
    ensures Inv(FlushOne(r, id).0)
  {
    hide Disarm, SkipToEnd, Pending, ChanOk, OrderOk, NamesOk, FloorOk;
    DisarmKeeps(r, id);
    var r2 := Disarm(r, id);
    if id in r2.chans {
      OneOk(r2, id);
      EndedOk(r2.chans[id], false, r2.nextEntry);
      SkipSame(r2.chans[id].(growing := false));
      UpdateKeeps(r2, id, SkipToEnd(r2.chans[id].(growing := false)).0, r2.nextEntry);
    }
  }

  lemma {:induction false} OneOk(r: Router, id: Id)
    requires ChansOk(r) && id in r.chans
    ensures ChanOk(r.chans[id], r.nextEntry)
  {
  }

  lemma {:induction false} SkipSame(c: Chan)
    ensures SkipToEnd(c).0.muted == c.muted
  {
  }

  lemma {:induction false} FlushAllKeeps(r: Router)
    requires Inv(r)
    ensures Inv(FlushAll(r).0)
  {
    hide ChanOk, Apart, Pending;
    forall id | id in r.chans ensures ChanOk(SkipToEnd(r.chans[id]).0, r.nextEntry) {
      EndedOk(r.chans[id], r.chans[id].growing, r.nextEntry);
      assert r.chans[id].(growing := r.chans[id].growing) == r.chans[id];
    }
  }

  lemma {:induction false} SteppedOk(c: Chan, entry: nat, last: nat)
    requires ChanOk(c, last)
    ensures ChanOk(StepBack(c, entry).0, last) && StepBack(c, entry).0.muted == c.muted
  {
  }

  lemma {:induction false} RewindKeeps(r: Router, id: Id, entry: nat)
    requires Inv(r)
    ensures Inv(Rewind(r, id, entry).0)
  {
    hide ChanOk, StepBack;
    if id in r.chans {
      SteppedOk(r.chans[id], entry, r.nextEntry);
      UpdateKeeps(r, id, StepBack(r.chans[id], entry).0, r.nextEntry);
    }
  }

  lemma {:induction false} NamesKeep(r: Router, id: Id, on: bool)
    requires Inv(r)
    ensures Inv(Authorize(r, id).0) && Inv(Prioritize(r, id).0) && Inv(r.(focusOnly := on))
  {
    hide ChansOk, OrderOk;
    SameChans(r, Authorize(r, id).0);
    SameChans(r, Prioritize(r, id).0);
    SameChans(r, r.(focusOnly := on));
  }

  lemma {:induction false} EndsKeep(r: Router, id: Id)
    requires Inv(r)
    ensures Inv(Done(r)) && Inv(ClearAnnounce(r)) && Inv(AskSuppressed(r, id))
  {
    hide ChansOk, OrderOk, Suppressed;
    SameChans(r, Done(r));
    SameChans(r, ClearAnnounce(r));
    SameChans(r, AskSuppressed(r, id));
  }

  // ---- Every operation -------------------------------------------------------

  datatype Op =
    | OpOpen(id: Id, title: Option<string>, hostTab: Option<string>, policy: Option<Policy>)
    | OpLabel(id: Id, name: string)
    | OpClose(id: Id)
    | OpFocus(id: Id)
    | OpMute(id: Id, on: bool)
    | OpFocusOnly(on: bool)
    | OpAuthorize(id: Id)
    | OpPush(id: Id, text: string, title: Option<string>)
    | OpPushWith(id: Id, text: string, title: Option<string>, replace: bool, front: bool)
    | OpAppend(id: Id, text: string, decision: bool, heard: bool)
    | OpDrop(id: Id, which: Resolved)
    | OpEndBatch(id: Id)
    | OpAskSuppressed(id: Id)
    | OpPrioritize(id: Id)
    | OpPick
    | OpNextFeed
    | OpDone
    | OpClearAnnounce
    | OpNextChannel
    | OpTakeFloor(id: Id)
    | OpReadAt(id: Id, from: Option<nat>, replay: bool)
    | OpSetAside(id: Id, entry: nat, on: bool)
    | OpRevise(id: Id, entry: nat, text: string)
    | OpFlush(id: Id)
    | OpFlushAll
    | OpRewind(id: Id, entry: nat)

  /** The state after an operation, and what it feeds. */
  function Step(r: Router, op: Op): (Router, Option<Feed>) {
    match op
    case OpOpen(id, title, tab, policy) => (Open(r, id, title, tab, policy).0, None)
    case OpLabel(id, name) => (LabelIfMissing(r, id, name).0, None)
    case OpClose(id) => (Close(r, id).0, None)
    case OpFocus(id) => (Focus(r, id).0, None)
    case OpMute(id, on) => (SetMuted(r, id, on), None)
    case OpFocusOnly(on) => (r.(focusOnly := on), None)
    case OpAuthorize(id) => (Authorize(r, id).0, None)
    case OpPush(id, text, title) => (Push(r, id, text, title).0, None)
    case OpPushWith(id, text, title, replace, front) => (PushWith(r, id, text, title, replace, front).0, None)
    case OpAppend(id, text, decision, heard) => (Append(r, id, text, decision, heard).0, None)
    case OpDrop(id, which) => (DropDecisions(r, id, which).0, None)
    case OpEndBatch(id) => (EndBatch(r, id), None)
    case OpAskSuppressed(id) => (AskSuppressed(r, id), None)
    case OpPrioritize(id) => (Prioritize(r, id).0, None)
    case OpPick => (HasWork(r).0, None)
    case OpNextFeed => NextFeed(r)
    case OpDone => (Done(r), None)
    case OpClearAnnounce => (ClearAnnounce(r), None)
    case OpNextChannel => (NextChannel(r).0, None)
    case OpTakeFloor(id) => (TakeFloor(r, id).0, None)
    case OpReadAt(id, from, replay) => (ReadAt(r, id, from, replay).0, None)
    case OpSetAside(id, entry, on) => (SetAside(r, id, entry, on).0, None)
    case OpRevise(id, entry, text) => (Revise(r, id, entry, text).0, None)
    case OpFlush(id) => (FlushOne(r, id).0, None)
    case OpFlushAll => (FlushAll(r).0, None)
    case OpRewind(id, entry) => (Rewind(r, id, entry).0, None)
  }

  lemma {:induction false} StepKeeps(r: Router, op: Op)
    requires Inv(r)
    ensures Inv(Step(r, op).0)
  {
    hide Inv, Open, LabelIfMissing, Close, Focus, SetMuted, Authorize, PushWith, Append, DropDecisions, EndBatch;
    hide AskSuppressed, Prioritize, Pick, NextFeed, Done, ClearAnnounce, NextChannel, TakeFloor, ReadAt, SetAside;
    hide Revise, FlushOne, FlushAll, Rewind;
    match op
    case OpOpen(id, title, tab, policy) => OpenKeeps(r, id, title, tab, policy);
    case OpLabel(id, name) => LabelKeeps(r, id, name);
    case OpClose(id) => CloseKeeps(r, id);
    case OpFocus(id) => FocusKeeps(r, id);
    case OpMute(id, on) => MuteKeeps(r, id, on);
    case OpFocusOnly(on) => NamesKeep(r, "", on);
    case OpAuthorize(id) => NamesKeep(r, id, true);
    case OpPush(id, text, title) =>
      if id in r.chans {
        PushKeeps(r, id, text, title, r.chans[id].policy.Latest?, false);
      }
    case OpPushWith(id, text, title, replace, front) => PushKeeps(r, id, text, title, replace, front);
    case OpAppend(id, text, decision, heard) => AppendKeeps(r, id, text, decision, heard);
    case OpDrop(id, which) => DropKeeps(r, id, which);
    case OpEndBatch(id) => EndBatchKeeps(r, id);
    case OpAskSuppressed(id) => EndsKeep(r, id);
    case OpPrioritize(id) => NamesKeep(r, id, true);
    case OpPick => PickKeeps(r);
    case OpNextFeed => NextFeedKeeps(r);
    case OpDone => EndsKeep(r, "");
    case OpClearAnnounce => EndsKeep(r, "");
    case OpNextChannel => NextChannelKeeps(r);
    case OpTakeFloor(id) => TakeFloorKeeps(r, id);
    case OpReadAt(id, from, replay) => ReadAtKeeps(r, id, from, replay);
    case OpSetAside(id, entry, on) => AsideKeeps(r, id, entry, on);
    case OpRevise(id, entry, text) => ReviseKeeps(r, id, entry, text);
    case OpFlush(id) => FlushOneKeeps(r, id);
    case OpFlushAll => FlushAllKeeps(r);
    case OpRewind(id, entry) => RewindKeeps(r, id, entry);
  }

  function Run(r: Router, ops: seq<Op>): (Router, seq<Feed>)
    decreases |ops|
  {
    if ops == [] then (r, []) else
      var (r1, fed) := Step(r, ops[0]);
      var (r2, rest) := Run(r1, ops[1..]);
      (r2, (if fed.Some? then [fed.value] else []) + rest)
  }

  /** From the empty router, every run of operations keeps the joint invariant. */
  lemma {:induction false} RunKeeps(r: Router, ops: seq<Op>)
    requires Inv(r)
    ensures Inv(Run(r, ops).0)
    decreases |ops|
  {
    hide Inv, Step;
    if ops != [] {
      StepKeeps(r, ops[0]);
      RunKeeps(Step(r, ops[0]).0, ops[1..]);
    }
  }
}
