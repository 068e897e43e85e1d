/** Which channel is read next: the held replay, the one reading, the first prioritized, the focused, the first. */
module RouterPicks {
  import opened Options
  import opened RouterModel
  import opened RouterInvariants
  import opened RouterFeeding

  /** `id` may be read unasked: it has something unread, is not muted, was not switched away from with nothing new
      since, and the focus-only gate lets it through. */
  predicate May(r: Router, id: Id) {
    && id in r.chans && Unread(r.chans[id]) != [] && !r.chans[id].muted
    && !(id in r.suppressed && r.suppressed[id] == r.chans[id].gen)
    && (!r.focusOnly || r.focus == None || r.focus == Some(id) || id in r.authorized)
  }

  /** `id` is the first of `ids` that may. */
  predicate IsFirst(r: Router, ids: seq<Id>, id: Id) {
    exists i :: 0 <= i < |ids| && ids[i] == id && May(r, id) && forall j :: 0 <= j < i ==> !May(r, ids[j])
  }

  predicate NoneMay(r: Router, ids: seq<Id>) {
    forall id :: id in ids ==> !May(r, id)
  }

  lemma {:induction false} MayIs(r: Router, id: Id)
    ensures May(r, id) <==> Pickable(r, id)
  {
    hide NotAside;
  }

  /** What `May` looks at. */
  ghost predicate SameMay(r: Router, r': Router) {
    forall id :: May(r, id) <==> May(r', id)
  }

  lemma {:induction false} AskSame(r: Router, id: Id)
    ensures SameMay(r, AskPickable(r, id)) && SameMay(r, AskSuppressed(r, id))
    ensures AskPickable(r, id).order == r.order && AskPickable(r, id).focus == r.focus
  {
    hide Unread;
  }

  lemma {:induction false} FirstIs(r: Router, ids: seq<Id>)
    ensures var (r', p) := FirstPickable(r, ids);
            && SameMay(r, r') && r'.order == r.order && r'.focus == r.focus
            && (p.Some? ==> IsFirst(r, ids, p.value)) && (p == None ==> NoneMay(r, ids))
    decreases |ids|
  {
    hide May, Pickable, AskPickable;
    if ids != [] {
      MayIs(r, ids[0]);
      AskSame(r, ids[0]);
      var r1 := AskPickable(r, ids[0]);
      if !Pickable(r, ids[0]) {
        FirstIs(r1, ids[1..]);
        FirstLater(r, r1, ids);
      } else {
        assert IsFirst(r, ids, ids[0]);
      }
    }
  }

  lemma {:induction false} FirstLater(r: Router, r1: Router, ids: seq<Id>)
    requires ids != [] && SameMay(r, r1) && !May(r, ids[0])
    ensures forall id :: IsFirst(r1, ids[1..], id) ==> IsFirst(r, ids, id)
    ensures NoneMay(r1, ids[1..]) ==> NoneMay(r, ids)
  {
    hide May;
    forall id | IsFirst(r1, ids[1..], id) ensures IsFirst(r, ids, id) {
      var i :| 0 <= i < |ids[1..]| && ids[1..][i] == id && May(r1, id)
          && forall j :: 0 <= j < i ==> !May(r1, ids[1..][j]);
      forall j | 0 <= j < i + 1 ensures !May(r, ids[j]) {
        assert j > 0 ==> !May(r1, ids[1..][j - 1]);
      }
      assert ids[i + 1] == id;
    }
  }

  /** The focused channel may be read whether it is prioritized or not. */
  predicate FocusMay(r: Router) {
    r.focus.Some? && May(r, r.focus.value)
  }

  lemma {:induction false} WaitingIs(r: Router)
    ensures var p := PickWaiting(r).1;
            && (p.Some? ==>
                  || IsFirst(r, r.priority, p.value)
                  || (NoneMay(r, r.priority) && FocusMay(r) && p == r.focus)
                  || (NoneMay(r, r.priority) && !FocusMay(r) && IsFirst(r, r.order, p.value)))
            && (p == None ==> NoneMay(r, r.priority) && !FocusMay(r) && NoneMay(r, r.order))
  {
    hide May, FirstPickable, AskPickable, Suppressed, Audible, Gated, IsFirst, NoneMay;
    FirstIs(r, r.priority);
    var r1 := FirstPickable(r, r.priority).0;
    if r1.focus.Some? {
      MayFocus(r1, r1.focus.value);
      AskSame(r1, r1.focus.value);
    }
    var r2 := if r1.focus.Some? then AskPickable(r1, r1.focus.value) else r1;
    FirstIs(r2, r2.order);
    SameFirst(r, r2, r.order);
  }

  lemma {:induction false} MayFocus(r: Router, id: Id)
    requires r.focus == Some(id)
    ensures May(r, id) <==> Audible(r, id) && !Suppressed(r, id)
  {
    MayIs(r, id);
    hide May;
  }

  lemma {:induction false} SameFirst(r: Router, r': Router, ids: seq<Id>)
    requires SameMay(r, r')
    ensures forall id :: IsFirst(r', ids, id) ==> IsFirst(r, ids, id)
    ensures NoneMay(r', ids) ==> NoneMay(r, ids)
  {
    hide May;
  }

  // ---- Pruning ---------------------------------------------------------------

  /** `a` is `b` with some left out. */
  predicate Within(a: seq<Id>, b: seq<Id>)
    decreases |b|
  {
    if a == [] then true else if b == [] then false
    else if a[0] == b[0] then Within(a[1..], b[1..]) || Within(a, b[1..]) else Within(a, b[1..])
  }

  lemma {:induction false} ReadyWithin(r: Router, ids: seq<Id>)
    ensures Within(ReadyOnes(r, ids), ids)
    ensures forall id :: id in ReadyOnes(r, ids) <==> id in ids && Ready(r, id)
  {
    hide Ready;
    if ids != [] {
      ReadyWithin(r, ids[1..]);
    }
  }

  lemma {:induction false} PrunedMay(r: Router)
    ensures SameMay(r, Prune(r).(hold := None))
    ensures forall id :: Audible(Prune(r).(hold := None), id) <==> Audible(r, id)
  {
    hide Unread, ReadyOnes;
  }

  /** The first of the channels that are ready is the first of all. */
  lemma {:induction false} ReadyFirst(r: Router, ids: seq<Id>, id: Id)
    requires IsFirst(r, ReadyOnes(r, ids), id)
    ensures IsFirst(r, ids, id)
  {
    hide May, Ready;
    if ids != [] {
      var kept := ReadyOnes(r, ids);
      if Ready(r, ids[0]) {
        if kept[0] == id && May(r, id) {
          assert ids[0] == id;
        } else {
          NotFirst(r, kept, id);
          assert kept[1..] == ReadyOnes(r, ids[1..]);
          ReadyFirst(r, ids[1..], id);
          NotReadyMay(r, ids[0]);
          FirstLater(r, r, ids);
        }
      } else {
        ReadyFirst(r, ids[1..], id);
        NotReadyMay(r, ids[0]);
        FirstLater(r, r, ids);
      }
    }
  }

  lemma {:induction false} NotFirst(r: Router, ids: seq<Id>, id: Id)
    requires IsFirst(r, ids, id) && !(ids[0] == id && May(r, id))
    ensures !May(r, ids[0]) && IsFirst(r, ids[1..], id)
  {
    hide May;
    var i :| 0 <= i < |ids| && ids[i] == id && May(r, id) && forall j :: 0 <= j < i ==> !May(r, ids[j]);
    assert i > 0;
    assert ids[1..][i - 1] == id;
    forall j | 0 <= j < i - 1 ensures !May(r, ids[1..][j]) {
      assert ids[1..][j] == ids[j + 1];
    }
  }

  lemma {:induction false} NotReadyMay(r: Router, id: Id)
    ensures !Ready(r, id) ==> !May(r, id)
  {
    hide NotAside;
  }

  lemma {:induction false} ReadyNone(r: Router, ids: seq<Id>)
    requires NoneMay(r, ReadyOnes(r, ids))
    ensures NoneMay(r, ids)
  {
    hide May, Ready;
    ReadyWithin(r, ids);
    forall id | id in ids ensures !May(r, id) {
      NotReadyMay(r, id);
    }
  }

  // ---- The pick --------------------------------------------------------------

  /** A replay holds the floor: it is audible and an entry up to its mark is unread. */
  predicate ReplayHolds(r: Router) {
    r.hold.Some? && r.hold.value.0 in r.chans && !r.chans[r.hold.value.0].muted
    && exists e :: e in Unread(r.chans[r.hold.value.0]) && e.id <= r.hold.value.1
  }

  /** The active channel has something to say. */
  predicate ActiveSpeaks(r: Router) {
    r.active.Some? && r.active.value in r.chans && Unread(r.chans[r.active.value]) != []
    && !r.chans[r.active.value].muted
  }

  /** The held replay goes first, then the active channel, whoever else has priority. With neither, the first of
      the prioritized channels that may be read; with none, the focused one if it may; if not, the first in opening
      order that may. Nothing is picked exactly when there is none. */
  lemma {:induction false} PickIs(r: Router)
    ensures var p := Pick(r).1;
            && (ReplayHolds(r) ==> p == Some(r.hold.value.0))
            && (!ReplayHolds(r) && ActiveSpeaks(r) ==> p == r.active)
            && (!ReplayHolds(r) && !ActiveSpeaks(r) ==>
                  && (p.Some? ==>
                        || IsFirst(r, r.priority, p.value)
                        || (NoneMay(r, r.priority) && FocusMay(r) && p == r.focus)
                        || (NoneMay(r, r.priority) && !FocusMay(r) && IsFirst(r, r.order, p.value)))
                  && (p == None ==> NoneMay(r, r.priority) && !FocusMay(r) && NoneMay(r, r.order)))
  {
    hide May, PickWaiting, ReadyOnes, Ready, IsFirst, NoneMay, Unread;
    PrunedHolds(r);
    var r2 := Prune(r).(hold := None);
    PrunedMay(r);
    AudibleSpeaks(r);
    WaitingIs(r2);
    SameReady(r, r2);
    var p := Pick(r).1;
    if !ReplayHolds(r) && !ActiveSpeaks(r) {
      assert p == PickWaiting(r2).1;
      assert FocusMay(r2) <==> FocusMay(r);
      SameFirst(r, r2, r2.priority);
      if p.Some? && IsFirst(r2, r2.priority, p.value) {
        ReadyFirst(r, r.priority, p.value);
      } else {
        ReadyNone(r, r.priority);
      }
      SameFirst(r, r2, r.order);
    }
  }

  lemma {:induction false} SameReady(r: Router, r2: Router)
    requires r2 == Prune(r).(hold := None)
    ensures r2.priority == ReadyOnes(r, r.priority) && r2.order == r.order && r2.focus == r.focus
    ensures r2.active == r.active
  {
    hide ReadyOnes;
  }

  lemma {:induction false} PrunedHolds(r: Router)
    ensures Held(Prune(r)) <==> ReplayHolds(r)
  {
    hide ReadyOnes, NotAside;
    if r.hold.Some? && r.hold.value.0 in r.chans {
      assert (exists e :: e in Unread(r.chans[r.hold.value.0]) && e.id <= r.hold.value.1)
          ==> Unread(r.chans[r.hold.value.0]) != [];
    }
  }

  lemma {:induction false} AudibleSpeaks(r: Router)
    ensures ActiveSpeaks(r) <==> r.active.Some? && Audible(r, r.active.value)
  {
    hide NotAside;
  }

  /** Picking takes the priority and the authorization from drained channels only; those left keep their order.
      Nothing is read by it. */
  lemma {:induction false} PickLeaves(r: Router)
    ensures var r' := Pick(r).0;
            && Within(r'.priority, r.priority)
            && (forall id :: id in r'.priority <==> id in r.priority && Ready(r, id))
            && (forall id :: id in r'.authorized <==> id in r.authorized && Ready(r, id))
            && (forall id :: Suppressed(r', id) <==> Suppressed(r, id))
            && r' == r.(priority := r'.priority, authorized := r'.authorized, suppressed := r'.suppressed,
                        hold := if ReplayHolds(r) then r.hold else None)
  {
    hide PickWaiting, Ready, Suppressed, Audible, Unread, Within;
    ReadyWithin(r, r.priority);
    PrunedHolds(r);
    hide ReadyOnes, Held;
    var r2 := Prune(r).(hold := None);
    WaitingKeeps(r2);
    PrunedSuppressed(r);
  }

  lemma {:induction false} PrunedSuppressed(r: Router)
    ensures forall id :: Suppressed(Prune(r), id) <==> Suppressed(r, id)
    ensures forall id :: Suppressed(Prune(r).(hold := None), id) <==> Suppressed(r, id)
  {
    hide ReadyOnes, Ready;
  }

  lemma {:induction false} WaitingKeeps(r: Router)
    ensures forall id :: Suppressed(PickWaiting(r).0, id) <==> Suppressed(r, id)
    ensures PickWaiting(r).0 == r.(suppressed := PickWaiting(r).0.suppressed)
  {
    hide FirstPickable, Suppressed, AskPickable, AskSuppressed, Audible;
    AskKeepsSuppressed(r, r.priority);
    FirstPickableLifts(r, r.priority);
    var r1 := FirstPickable(r, r.priority).0;
    if r1.focus.Some? {
      AskedKeeps(r1, r1.focus.value);
    }
    var r2 := if r1.focus.Some? then AskPickable(r1, r1.focus.value) else r1;
    AskKeepsSuppressed(r2, r2.order);
    FirstPickableLifts(r2, r2.order);
  }

  lemma {:induction false} AskedKeeps(r: Router, id: Id)
    ensures forall x :: Suppressed(AskSuppressed(r, id), x) <==> Suppressed(r, x)
    ensures forall x :: Suppressed(AskPickable(r, id), x) <==> Suppressed(r, x)
    ensures AskSuppressed(r, id) == r.(suppressed := AskSuppressed(r, id).suppressed)
    ensures AskPickable(r, id) == r.(suppressed := AskPickable(r, id).suppressed)
  {
    hide Audible;
  }
}
