/** What texts and settings do to what is unread, and to who may be read. */
module RouterEdits {
  import opened Options
  import opened RouterModel
  import opened RouterInvariants
  import opened RouterFeeding
  import opened RouterPicks

  // ---- A new text ------------------------------------------------------------

  /** A channel with nothing unread that is not being read and whose batch does not grow starts a new batch. */
  predicate StartsAnew(c: Chan, reading: bool) {
    Unread(c) == [] && !reading && !c.growing
  }

  /** A text comes after what is unread, or before it; in place of all of it when it replaces. Either way it is new:
      a switch away from the channel no longer silences it, and a replay is over. A new batch holds only it. */
  lemma {:induction false} PushedUnread(c: Chan, e: Entry, replace: bool, front: bool, reading: bool)
    requires c.cursor <= |c.entries| && e.id !in c.aside
    ensures var c' := PushEntry(c, e, replace, front, reading);
            && Unread(c') == (if replace then [e] else if front then [e] + Unread(c) else Unread(c) + [e])
            && c'.gen != c.gen && !c'.replaying && c'.muted == c.muted && c'.growing == c.growing
            && (replace || StartsAnew(c, reading) ==> c'.entries == [e])
            && (!replace && !StartsAnew(c, reading) ==>
                  |c'.entries| == |c.entries| + 1 && c'.entries[..c.cursor] == c.entries[..c.cursor])
  {
    CaughtUpIs(c);
    if replace || StartsAnew(c, reading) {
      PushedAnew(c, e, replace, front, reading);
    } else {
      PushedOn(c, e, front, reading);
    }
    hide PushEntry, Unread;
    assert [] + [e] == [e] && [e] + [] == [e];
  }

  lemma {:induction false} PushedAnew(c: Chan, e: Entry, replace: bool, front: bool, reading: bool)
    requires replace || (CaughtUp(c) && !reading && !c.growing)
    ensures PushEntry(c, e, replace, front, reading)
            == Emptied(c).(entries := [e], gen := c.gen + 1, replaying := false)
    ensures Unread(PushEntry(c, e, replace, front, reading)) == [e]
  {
    hide CaughtUp, NotAside;
    OneLeft(e, {});
    var c1 := Emptied(c);
    assert c1.entries[..0] + [e] + c1.entries[0..] == [e];
    var c' := PushEntry(c, e, replace, front, reading);
    assert [e][0..] == [e];
  }

  lemma {:induction false} PushedOn(c: Chan, e: Entry, front: bool, reading: bool)
    requires !(CaughtUp(c) && !reading && !c.growing) && c.cursor <= |c.entries| && e.id !in c.aside
    ensures var c' := PushEntry(c, e, false, front, reading);
            && c' == c.(entries := c'.entries, gen := c.gen + 1, replaying := false)
            && |c'.entries| == |c.entries| + 1 && c'.entries[..c.cursor] == c.entries[..c.cursor]
            && Unread(c') == if front then [e] + Unread(c) else Unread(c) + [e]
  {
    hide CaughtUp, NotAside;
    var c' := PushEntry(c, e, false, front, reading);
    AsideAdds(c.entries[c.cursor..], [e], c.aside);
    AsideAdds([e], c.entries[c.cursor..], c.aside);
    OneLeft(e, c.aside);
    if front {
      assert c'.entries[c'.cursor..] == [e] + c.entries[c.cursor..];
    } else {
      assert c'.entries[c'.cursor..] == c.entries[c.cursor..] + [e];
    }
  }

  lemma {:induction false} CaughtUpIs(c: Chan)
    ensures CaughtUp(c) <==> Unread(c) == []
  {
    hide Unread;
  }

  lemma {:induction false} OneLeft(e: Entry, aside: set<nat>)
    requires e.id !in aside
    ensures NotAside([e], aside) == [e]
  {
    assert [e][1..] == [];
  }

  lemma {:induction false} AsideAdds(a: seq<Entry>, b: seq<Entry>, aside: set<nat>)
    ensures NotAside(a + b, aside) == NotAside(a, aside) + NotAside(b, aside)
  {
    if a == [] {
      assert a + b == b;
    } else {
      assert (a + b)[1..] == a[1..] + b;
      AsideAdds(a[1..], b, aside);
    }
  }

  /** A text by the channel's policy: it replaces the unread ones under `latest`, and queues under `queue`. */
  lemma {:induction false} PolicyDecides(r: Router, id: Id, text: string, title: Option<string>)
    requires Inv(r) && id in r.chans
    ensures var (r', e) := Push(r, id, text, title); var c := r.chans[id];
            && e == Some(r.nextEntry + 1) && id in r'.chans
            && Unread(r'.chans[id]) == (match c.policy
                                        case Latest => []
                                        case Queue => Unread(c)) + [Entry(r.nextEntry + 1, text, title)]
  {
    FreshId(r, id);
    hide Inv, PushEntry, Unread;
    PushedUnread(r.chans[id], Entry(r.nextEntry + 1, text, title), r.chans[id].policy.Latest?, false, IsReading(r, id));
  }

  lemma {:induction false} FreshId(r: Router, id: Id)
    requires Inv(r) && id in r.chans
    ensures r.nextEntry + 1 !in r.chans[id].aside && r.chans[id].cursor <= |r.chans[id].entries|
  {
    hide OrderOk, NamesOk, FloorOk;
    assert ChanOk(r.chans[id], r.nextEntry);
  }

  /** The agent's text is read after what is unread; when it is only stored it is read with what is unread or being
      read, and otherwise not at all. Its batch grows; a decision is marked, with whether it was only stored. */
  lemma {:induction false} AppendedUnread(r: Router, id: Id, text: string, decision: bool, stored: bool)
    requires Inv(r) && id in r.chans
    ensures var (r', e) := Append(r, id, text, decision, stored); var c, n := r.chans[id], r.nextEntry + 1;
            && e == Some(n) && id in r'.chans && r'.chans[id].growing && r'.chans[id].agent
            && Unread(r'.chans[id]) == (if stored && Unread(c) == [] && !IsReading(r, id) then []
                                        else Unread(c) + [Entry(n, text, None)])
            && (decision ==> n in r'.chans[id].decisions && r'.chans[id].decisions[n] == stored)
            && (!decision ==> r'.chans[id].decisions.Keys <= c.decisions.Keys)
  {
    FreshId(r, id);
    AppendIs(r, id, text, decision, stored);
    hide Inv, PushEntry, Unread, Append;
    var c, e := r.chans[id], Entry(r.nextEntry + 1, text, None);
    PushedUnread(c, e, false, false, IsReading(r, id));
    PushedMarks(c, e, IsReading(r, id));
    var c' := Append(r, id, text, decision, stored).0.chans[id];
    if stored && Unread(c) == [] && !IsReading(r, id) {
      AtTheEnd(c');
    } else {
      SameThere(PushEntry(c, e, false, false, IsReading(r, id)), c');
    }
  }

  /** The channel after the agent's text. */
  lemma {:induction false} AppendIs(r: Router, id: Id, text: string, decision: bool, stored: bool)
    requires id in r.chans
    ensures var (r', e) := Append(r, id, text, decision, stored); var n := r.nextEntry + 1;
            var c := PushEntry(r.chans[id], Entry(n, text, None), false, false, IsReading(r, id));
            && e == Some(n) && id in r'.chans
            && r'.chans[id]
               == c.(growing := true, agent := true,
                     decisions := if decision then c.decisions[n := stored] else c.decisions,
                     cursor := if stored && Unread(r.chans[id]) == [] && !IsReading(r, id) then |c.entries|
                               else c.cursor)
  {
    hide PushEntry, Unread;
  }

  lemma {:induction false} PushedMarks(c: Chan, e: Entry, reading: bool)
    ensures PushEntry(c, e, false, false, reading).decisions.Keys <= c.decisions.Keys
  {
  }

  lemma {:induction false} SameThere(c: Chan, c': Chan)
    requires c'.entries == c.entries && c'.cursor == c.cursor && c'.aside == c.aside
    ensures Unread(c') == Unread(c)
  {
  }

  lemma {:induction false} AtTheEnd(c: Chan)
    ensures forall c': Chan :: c'.entries == c.entries && c'.cursor == |c.entries| ==> Unread(c') == []
  {
  }

  /** Once its batch was ended, the next text of a channel with nothing left to read starts a new one. */
  lemma {:induction false} EndedStartsAnew(r: Router, id: Id, text: string, decision: bool, stored: bool)
    requires Inv(r) && id in r.chans && Unread(r.chans[id]) == [] && !IsReading(r, id)
    ensures var r' := Append(EndBatch(r, id), id, text, decision, stored).0;
            id in r'.chans && r'.chans[id].entries == [Entry(r.nextEntry + 1, text, None)]
  {
    FreshId(r, id);
    hide Inv, PushEntry, Unread;
    var c := r.chans[id].(growing := false);
    SameThere(r.chans[id], c);
    PushedUnread(c, Entry(r.nextEntry + 1, text, None), false, false, false);
  }

  // ---- Decisions taken out ---------------------------------------------------

  /** Which decisions go: all, those read aloud, or those read or stored behind the cursor. Nothing else goes. */
  lemma {:induction false} GoneAre(c: Chan, id: nat, before: bool, which: Resolved)
    ensures Goes(c, id, before, which) <==>
            id in c.decisions && (which == All || (before && (which == Settled || !c.decisions[id])))
  {
  }

  // ---- Flushing --------------------------------------------------------------

  /** A flush leaves nothing unread in its channel and says how much it was; its announcement and its hold end, those
      of another channel stay; the agent's next text starts a new batch. */
  lemma {:induction false} FlushedOne(r: Router, id: Id)
    requires id in r.chans
    ensures var (r', n) := FlushOne(r, id);
            && n == |Unread(r.chans[id])| && id in r'.chans && Unread(r'.chans[id]) == [] && !r'.chans[id].growing
            && r'.chans[id].entries == r.chans[id].entries
            && r'.announce == (if r.announce.Some? && r.announce.value.channel != id then r.announce else None)
            && r'.hold == (if r.hold.Some? && r.hold.value.0 != id then r.hold else None)
            && forall x :: x != id && x in r.chans ==> x in r'.chans && r'.chans[x] == r.chans[x]
  {
    hide Unread;
    SameThere(r.chans[id], r.chans[id].(growing := false));
    AtTheEnd(r.chans[id]);
  }

  /** A flush of everything leaves nothing to read and nothing to announce, and says how much it was. */
  lemma {:induction false} FlushedAll(r: Router)
    ensures var (r', n) := FlushAll(r);
            && n == TotalPending(r) && r'.announce == None && r'.hold == None && r'.chans.Keys == r.chans.Keys
            && forall id :: id in r.chans ==>
                 Unread(r'.chans[id]) == [] && r'.chans[id].entries == r.chans[id].entries
  {
    hide Unread, TotalPending;
    forall id | id in r.chans ensures Unread(FlushAll(r).0.chans[id]) == [] {
      AtTheEnd(r.chans[id]);
    }
  }

  // ---- One entry -------------------------------------------------------------

  function LeavingOut(entries: seq<Entry>, entry: nat): seq<Entry> {
    if entries == [] then []
    else (if entries[0].id == entry then [] else [entries[0]]) + LeavingOut(entries[1..], entry)
  }

  lemma {:induction false} AsideLeaves(entries: seq<Entry>, aside: set<nat>, entry: nat)
    ensures NotAside(entries, aside + {entry}) == LeavingOut(NotAside(entries, aside), entry)
  {
    if entries != [] {
      AsideLeaves(entries[1..], aside, entry);
      var rest := NotAside(entries[1..], aside);
      if entries[0].id !in aside {
        assert ([entries[0]] + rest)[1..] == rest;
      }
    }
  }

  /** An entry set aside is not read, the others are, in order; taken back, all is as it was. */
  lemma {:induction false} SetAsideSkips(r: Router, id: Id, entry: nat)
    requires id in r.chans && (exists e :: e in r.chans[id].entries && e.id == entry)
    ensures var (r', ok) := SetAside(r, id, entry, true);
            && ok && id in r'.chans && Unread(r'.chans[id]) == LeavingOut(Unread(r.chans[id]), entry)
            && (entry !in r.chans[id].aside ==> SetAside(r', id, entry, false) == (r, true))
  {
    var c := r.chans[id];
    FoundThere(c.entries, entry);
    hide NotAside, LeavingOut, Where;
    AsideLeaves(Ahead(c), c.aside, entry);
    var c' := c.(aside := c.aside + {entry});
    assert Ahead(c') == Ahead(c);
    if entry !in c.aside {
      assert c'.(aside := c'.aside - {entry}) == c;
      assert r.chans[id := c'][id := c] == r.chans;
    }
  }

  lemma {:induction false} FoundThere(entries: seq<Entry>, entry: nat)
    requires exists e :: e in entries && e.id == entry
    ensures Where(entries, entry) < |entries|
  {
    var e :| e in entries && e.id == entry;
    var k :| 0 <= k < |entries| && entries[k] == e;
    assert Where(entries, entry) <= k;
  }

  /** A revision changes the text of that entry, and nothing else. */
  lemma {:induction false} RevisedText(r: Router, id: Id, entry: nat, text: string)
    requires Inv(r) && id in r.chans
    ensures var (r', ok) := Revise(r, id, entry, text); var entries := r.chans[id].entries;
            && ok == Has(entries, entry)
            && (ok ==>
                  && r' == r.(chans := r'.chans) && r'.chans == r.chans[id := r'.chans[id]]
                  && r'.chans[id] == r.chans[id].(entries := r'.chans[id].entries)
                  && |r'.chans[id].entries| == |entries|
                  && forall k :: 0 <= k < |entries| ==>
                       r'.chans[id].entries[k] == if entries[k].id == entry then entries[k].(text := text)
                                                  else entries[k])
  {
    var entries := r.chans[id].entries;
    hide OrderOk, NamesOk, FloorOk;
    assert ChanOk(r.chans[id], r.nextEntry);
    HasIsFound(entries, entry);
  }

  lemma {:induction false} HasIsFound(entries: seq<Entry>, entry: nat)
    ensures Has(entries, entry) <==> Where(entries, entry) < |entries|
  {
  }

  // ---- Who may be read -------------------------------------------------------

  /** A mute silences its channel, also one opened later, and ends its replay; taking it back lets it be read. */
  lemma {:induction false} MuteSilences(r: Router, id: Id, title: Option<string>, tab: Option<string>,
      policy: Option<Policy>)
    ensures var on, off := SetMuted(r, id, true), SetMuted(r, id, false);
            && !May(on, id) && !ReplayHoldsOf(on, id)
            && (id in r.chans ==>
                  id in off.chans && !off.chans[id].muted && Unread(off.chans[id]) == Unread(r.chans[id]))
            && (id !in r.chans ==> Open(on, id, title, tab, policy).0.chans[id].muted
                                   && !Open(off, id, title, tab, policy).0.chans[id].muted)
  {
    hide NotAside;
  }

  predicate ReplayHoldsOf(r: Router, id: Id) {
    r.hold.Some? && r.hold.value.0 == id
  }

  /** A new channel is empty, keeps the newest text only unless told to queue, and is last in opening order; an open
      one keeps its texts, and its policy unless a new one is given. */
  lemma {:induction false} OpenedAs(r: Router, id: Id, title: Option<string>, tab: Option<string>,
      policy: Option<Policy>)
    ensures var (r', created) := Open(r, id, title, tab, policy);
            && created == (id !in r.chans) && id in r'.chans
            && r'.chans[id].title == title && r'.chans[id].hostTab == tab
            && (created ==>
                  && r'.order == r.order + [id] && r'.chans[id].entries == [] && Unread(r'.chans[id]) == []
                  && r'.chans[id].policy == (if policy == Some(Queue) then Queue else Latest))
            && (!created ==>
                  && r'.order == r.order && r'.chans[id].entries == r.chans[id].entries
                  && Unread(r'.chans[id]) == Unread(r.chans[id]) && r'.chans[id].muted == r.chans[id].muted
                  && (policy == None ==> r'.chans[id].policy == r.chans[id].policy)
                  && (policy.Some? ==> r'.chans[id].policy == policy.value))
  {
  }

  /** A label is given only to an open channel without one. */
  lemma {:induction false} LabelledOnce(r: Router, id: Id, title: string, again: string)
    ensures var (r', ok) := LabelIfMissing(r, id, title);
            && ok == (title != "" && id in r.chans && r.chans[id].title in {None, Some("")})
            && (ok ==> id in r'.chans && r'.chans[id].title == Some(title)) && (!ok ==> r' == r)
            && (ok ==> LabelIfMissing(r', id, again) == (r', false))
  {
  }

  /** Under the gate a channel that gives up the focus with something unread is read on. */
  lemma {:induction false} FocusLetsRead(r: Router, id: Id)
    requires id in r.chans
    ensures var (r', ok) := Focus(r, id);
            && ok && r'.focus == Some(id)
            && (forall x :: May(r, x) ==> May(r', x) || (x != id && r.focus != Some(x)))
            && (r.focus.Some? && May(r, r.focus.value) ==> May(r', r.focus.value))
            && (forall a :: a in r'.authorized ==> a in r.authorized || (Some(a) == r.focus && Ready(r, a)))
  {
    hide NotAside;
  }

  /** What was authorized may be read under the gate, until all of it was. */
  lemma {:induction false} AuthorizedMay(r: Router, id: Id)
    requires id in r.chans && Unread(r.chans[id]) != [] && !r.chans[id].muted && !Suppressed(r, id)
    ensures Authorize(r, id).1 && May(Authorize(r, id).0, id)
  {
    hide NotAside;
  }

  lemma {:induction false} SpentIsGated(r: Router, id: Id)
    requires Inv(r) && NextFeed(r).1.Some? && NextFeed(r).1.value.Read? && NextFeed(r).1.value.channel == id
    ensures id in NextFeed(r).0.chans
    ensures Unread(NextFeed(r).0.chans[id]) == [] ==> id !in NextFeed(r).0.authorized
  {
    FeedCases(r);
    FeedCounts(r);
    if r.announce == None {
      var r0 := r.(reading := None);
      var r1 := Pick(r0).0;
      var t := Pick(r0).1;
      hide Inv, Pick, NextFeed, IsHandoff, Unread, TakeEntry;
      SpendsIt(if r1.active != t then SetReader(r1, t.value) else r1, t.value);
    }
  }

  lemma {:induction false} SpendsIt(r: Router, id: Id)
    requires id in r.chans
    ensures var (r', fed) := FeedEntry(r, id);
            id in r'.chans && (fed.Some? && Unread(r'.chans[id]) == [] ==> id !in r'.authorized)
  {
    hide TakeEntry, Unread;
  }

  /** A prioritized channel is last among them, and listed once. */
  lemma {:induction false} PrioritizedLast(r: Router, id: Id)
    requires id in r.chans
    ensures var (r', ok) := Prioritize(r, id);
            ok && r'.priority == (if id in r.priority then r.priority else r.priority + [id])
            && Prioritize(r', id) == (r', true)
  {
  }

  /** A channel in the host tab of the one read last, which is closed since, reads unannounced; any other one is
      announced. */
  lemma {:induction false} ClosedInTheTab(r: Router, id: Id, next: Id)
    requires r.lastReader == Some(id) && id in r.chans && next in r.chans && next != id
    ensures var r' := Close(r, id).0; var tab := r.chans[id].hostTab;
            && next in r'.chans
            && (IsHandoff(r', next) <==> tab == None || tab == Some("") || r.chans[next].hostTab != tab)
  {
  }
}
