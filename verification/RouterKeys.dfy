/** What is read after the next-session key, and after a channel takes the floor. */
module RouterKeys {
  import opened Options
  import opened RouterModel
  import opened RouterInvariants
  import opened RouterFeeding
  import opened RouterFloor

  /** The label announced for `id`: an empty one counts as none. */
  function LabelOf(r: Router, id: Id): Option<string> {
    if id in r.chans && r.chans[id].title != Some("") then r.chans[id].title else None
  }

  /** The channel that reads, or read last. */
  function Current(r: Router): Option<Id> {
    match r.active
    case Some(id) => Some(id)
    case None => r.lastActive
  }

  /** What the key reads of a channel: the whole batch again when nothing of it is unread, when it is the current
      one, or when it was being read again; else what is unread. */
  function KeyReads(r: Router, id: Id): seq<Entry>
    requires id in r.chans
  {
    var c := r.chans[id];
    if ReadsAgain(r, id) then NotAside(c.entries, c.aside) else Unread(c)
  }

  predicate ReadsAgain(r: Router, id: Id)
    requires id in r.chans
  {
    Unread(r.chans[id]) == [] || Current(r) == Some(id) || r.chans[id].replaying
  }

  /** The channel switched away from stays silent until it has something new; the one landed on does not. */
  lemma {:induction false} SwitchSilences(r: Router)
    requires Inv(r) && r.order != []
    ensures var r' := NextChannel(r).0; var t := NextTarget(r);
            && t !in r'.suppressed
            && (r.active.Some? && r.active.value != t ==> Suppressed(r', r.active.value))
            && (forall id :: id != t && Some(id) != r.active ==> (Suppressed(r', id) <==> Suppressed(r, id)))
  {
    TargetOpen(r);
    NextChannelIs(r);
    SuppressedBy(r);
    ActiveOpen(r);
    hide NextTarget, Inv, NextChannel, CaughtUp, Engaged;
    SilencedBy(r, NextChannel(r).0, NextTarget(r));
  }

  lemma {:induction false} ActiveOpen(r: Router)
    requires Inv(r)
    ensures r.active.Some? ==> r.active.value in r.chans
  {
    hide ChansOk, OrderOk, FloorOk;
  }

  lemma {:induction false} SuppressedBy(r: Router)
    requires r.order != [] && NextTarget(r) in r.chans
    ensures NextChannel(r).0.suppressed
            == (if r.active.Some? && r.active.value != NextTarget(r) && r.active.value in r.chans
                then r.suppressed[r.active.value := r.chans[r.active.value].gen] else r.suppressed) - {NextTarget(r)}
  {
    hide NextTarget, CaughtUp, Engaged;
  }

  lemma {:induction false} SilencedBy(r: Router, r': Router, t: Id)
    requires t in r.chans && t in r'.chans && r'.chans == r.chans[t := r'.chans[t]]
    requires r.active.Some? ==> r.active.value in r.chans
    requires r'.suppressed == (if r.active.Some? && r.active.value != t
                               then r.suppressed[r.active.value := r.chans[r.active.value].gen] else r.suppressed) - {t}
    ensures t !in r'.suppressed
    ensures r.active.Some? && r.active.value != t ==> Suppressed(r', r.active.value)
    ensures forall id :: id != t && Some(id) != r.active ==> (Suppressed(r', id) <==> Suppressed(r, id))
  {
  }

  /** The key lands on the next channel of the ring, which is announced and then read: from the top or what is
      unread, all of it, whatever else waits. */
  lemma {:induction false} SwitchReads(r: Router)
    requires Inv(r) && r.order != []
    ensures var (r', landed) := NextChannel(r); var t := NextTarget(r);
            && t in r.chans && landed == Some((t, ReadsAgain(r, t)))
            && (!r.chans[t].muted ==>
                  var heard := KeyReads(r, t);
                  Feeds(r', 1 + |heard|)
                  == [Announce(t, LabelOf(r, t), ReadsAgain(r, t), true)] + Reads(t, heard))
  {
    TargetOpen(r);
    NextChannelIs(r);
    NextChannelKeeps(r);
    hide NextChannel, NextTarget, Inv, NextFeed, NotAside;
    var t, r' := NextTarget(r), NextChannel(r).0;
    Same(r, t);
    KeyUnread(r, r', t);
    if !r.chans[t].muted {
      FloorReads(r', t);
      Armed(r', t, LabelOf(r, t), ReadsAgain(r, t));
      var fed := Feeds(r', 1 + |KeyReads(r, t)|);
      assert fed == [fed[0]] + fed[1..];
    }
  }

  lemma {:induction false} Same(r: Router, t: Id)
    requires t in r.chans
    ensures Engaged(r) == Current(r)
    ensures CaughtUp(r.chans[t]) <==> Unread(r.chans[t]) == []
  {
    hide Unread;
  }

  lemma {:induction false} KeyUnread(r: Router, r': Router, t: Id)
    requires t in r.chans && t in r'.chans
    requires r'.chans[t] == if ReadsAgain(r, t) then r.chans[t].(cursor := 0, replaying := true) else r.chans[t]
    ensures Unread(r'.chans[t]) == KeyReads(r, t)
  {
    hide NotAside;
    assert r.chans[t].entries[0..] == r.chans[t].entries;
  }

  /** An armed announcement is the first thing fed. */
  lemma {:induction false} Armed(r: Router, t: Id, title: Option<string>, replay: bool)
    requires Inv(r) && r.announce == Some(Switch(t, replay, true)) && t in r.chans && LabelOf(r, t) == title
    ensures forall n :: n > 0 ==> Feeds(r, n) != [] && Feeds(r, n)[0] == Announce(t, title, replay, true)
  {
    FeedCases(r);
    hide Inv, NextFeed;
  }

  /** A channel that takes the floor reads what it has unread, announced first when another one read last (or it was
      about to be announced). */
  lemma {:induction false} TakeFloorReads(r: Router, id: Id)
    requires Inv(r) && id in r.chans && !r.chans[id].muted
    ensures var r' := TakeFloor(r, id).0;
            && r'.chans == r.chans && r'.active == Some(id) && id !in r'.suppressed
            && r'.hold == (if r.hold.Some? && r.hold.value.0 == id then r.hold else None)
            && (r'.announce.Some? <==> WillAnnounce(r, id))
            && var fed := Feeds(r', Count(WillAnnounce(r, id)) + Pending(r.chans[id]));
               if WillAnnounce(r, id) then
                 fed != [] && fed[0].Announce? && fed[0].channel == id && fed[1..] == Reads(id, Unread(r.chans[id]))
               else fed == Reads(id, Unread(r.chans[id]))
  {
    hide Feeds, Unread, IsHandoff;
    TakeFloorKeeps(r, id);
    if r.announce.Some? && r.announce.value.channel != id {
      ArmedMeansHandoff(r, id);
    }
    hide Inv;
    FloorReads(TakeFloor(r, id).0, id);
  }

  /** A channel read by hand passes the gate and its own suppression, and holds the floor for all there is now; it
      counts as being read again when it is a replay, and is announced as that. */
  lemma {:induction false} ReadAtHolds(r: Router, id: Id, from: Option<nat>, replay: bool)
    requires id in r.chans && ReadAt(r, id, from, replay).1
    ensures var r' := ReadAt(r, id, from, replay).0;
            && id in r'.chans && id !in r'.suppressed && !Gated(r', id) && r'.hold == Some((id, r.nextEntry))
            && r'.chans[id].replaying == (replay || r.chans[id].replaying)
            && r'.announce == (if r.lastReader.Some? && IsHandoff(r, id) then Some(Switch(id, replay, true))
                               else r.announce)
            && forall x :: x != id ==> (Suppressed(r', x) <==> Suppressed(r, x)) && (x in r'.chans <==> x in r.chans)
  {
    hide Where;
  }
}
