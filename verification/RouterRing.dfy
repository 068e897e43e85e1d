/** `NextChannel` as a round robin. */
module RouterRing {
  import opened Options
  import opened RouterModel
  import opened RouterInvariants

  lemma {:induction false} UnmutedApart(r: Router, ids: seq<Id>)
    requires Apart(ids)
    ensures Apart(Unmuted(r, ids))
  {
    if ids != [] {
      UnmutedApart(r, ids[1..]);
      var rest := Unmuted(r, ids[1..]);
      forall j | 0 <= j < |rest| ensures rest[j] != ids[0] {
        assert rest[j] in ids[1..];
      }
    }
  }

  lemma {:induction false} NonEmptyApart(r: Router, ids: seq<Id>)
    requires Apart(ids)
    ensures Apart(NonEmpty(r, ids))
  {
    if ids != [] {
      NonEmptyApart(r, ids[1..]);
      var rest := NonEmpty(r, ids[1..]);
      forall j | 0 <= j < |rest| ensures rest[j] != ids[0] {
        assert rest[j] in ids[1..];
      }
    }
  }

  lemma {:induction false} RingApart(r: Router)
    requires Inv(r)
    ensures Apart(Ring(r))
  {
    hide ChansOk, NamesOk, FloorOk, Unmuted, NonEmpty, Apart;
    UnmutedApart(r, r.order);
    NonEmptyApart(r, Unmuted(r, r.order));
    NonEmptyApart(r, r.order);
  }

  // ---- Where it lands --------------------------------------------------------

  /** It never lands on a muted channel unless every channel is muted, nor on one with nothing to
      hear unless every candidate is empty. */
  lemma {:induction false} LandsWell(r: Router)
    requires Inv(r) && r.order != []
    ensures var t := NextTarget(r);
            && t in r.chans
            && (r.chans[t].muted ==> forall id :: id in r.chans ==> r.chans[id].muted)
            && (r.chans[t].entries == [] ==>
                  forall id :: id in r.chans && (r.chans[t].muted || !r.chans[id].muted) ==> r.chans[id].entries == [])
  {
    TargetOpen(r);
    hide NextTarget, ChansOk, NamesOk, FloorOk, Apart;
    var audible := Unmuted(r, r.order);
    var base := if audible == [] then r.order else audible;
    var full := NonEmpty(r, base);
    forall id | id in r.chans ensures (audible == [] ==>
        r.chans[id].muted) && (id in base && full == [] ==> r.chans[id].entries == []) {
      assert id in r.order;
      assert audible == [] ==> id !in audible;
      assert full == [] ==> id !in full;
    }
  }

  // ---- The ring keeps the opening order --------------------------------------

  /** `sub` is `all` without some members. */
  ghost predicate Sub(sub: seq<Id>, all: seq<Id>) {
    if all == [] then sub == []
    else if sub != [] && sub[0] == all[0] then Sub(sub[1..], all[1..])
    else all[0] !in sub && Sub(sub, all[1..])
  }

  lemma {:induction false} UnmutedSub(r: Router, ids: seq<Id>)
    requires Apart(ids)
    ensures Sub(Unmuted(r, ids), ids)
  {
    if ids != [] {
      UnmutedSub(r, ids[1..]);
      assert ids[0] !in ids[1..];
    }
  }

  lemma {:induction false} NonEmptySub(r: Router, ids: seq<Id>, all: seq<Id>)
    requires Sub(ids, all) && Apart(ids)
    ensures Sub(NonEmpty(r, ids), all)
    decreases |all|
  {
    if all != [] {
      if ids != [] && ids[0] == all[0] {
        NonEmptySub(r, ids[1..], all[1..]);
        assert ids[0] !in ids[1..];
      } else {
        NonEmptySub(r, ids, all[1..]);
      }
    }
  }

  lemma {:induction false} SubSelf(ids: seq<Id>)
    ensures Sub(ids, ids)
  {
    if ids != [] {
      SubSelf(ids[1..]);
    }
  }

  lemma {:induction false} RingSub(r: Router)
    requires Inv(r)
    ensures Sub(Ring(r), r.order)
  {
    hide ChansOk, NamesOk, FloorOk, Unmuted, NonEmpty, Apart, Sub;
    UnmutedSub(r, r.order);
    UnmutedApart(r, r.order);
    SubSelf(r.order);
    NonEmptySub(r, Unmuted(r, r.order), r.order);
    NonEmptySub(r, r.order, r.order);
  }

  /** The first of `ids` in `ring`. */
  function FirstIn(ids: seq<Id>, ring: seq<Id>): (t: Id)
    requires ring != []
    ensures (exists x :: x in ids && x in ring) ==>
              t in ids && t in ring && forall k :: 0 <= k < Place(ids, t) ==> ids[k] !in ring
    ensures !(exists x :: x in ids && x in ring) ==> t == ring[0]
  {
    if ids == [] then ring[0]
    else if ids[0] in ring then ids[0]
    else
      var t := FirstIn(ids[1..], ring);
      assert forall x :: x in ids && x in ring ==> x in ids[1..];
      t
  }

  /** `ids` from the one after place `i` all the way around. */
  function From(ids: seq<Id>, i: nat): seq<Id>
    requires i < |ids|
  {
    ids[i + 1..] + ids[..i + 1]
  }

  lemma {:induction false} Wraps(i: nat, j: nat, n: nat)
    requires i < n && j <= n
    ensures (i + j) % n == if i + j < n then i + j else i + j - n
  {
    if i + j >= n {
      assert (i + j) % n == (i + j - n) % n;
    }
  }

  lemma {:induction false} AroundIs(all: seq<Id>, ring: seq<Id>, i: nat, j: nat)
    requires ring != [] && i < |all| && 1 <= j <= |all| + 1
    ensures Around(all, ring, i, j) == FirstIn(From(all, i)[j - 1..], ring)
    decreases |all| + 1 - j
  {
    if j <= |all| {
      Wraps(i, j, |all|);
      var s := From(all, i);
      assert all[(i + j) % |all|] == s[j - 1];
      assert s[j - 1..][0] == s[j - 1] && s[j - 1..][1..] == s[j..];
      if all[(i + j) % |all|] !in ring {
        AroundIs(all, ring, i, j + 1);
      }
    }
  }

  lemma {:induction false} AroundFull(all: seq<Id>, ring: seq<Id>, i: nat)
    requires ring != [] && i < |all|
    ensures Around(all, ring, i, 1) == FirstIn(From(all, i), ring)
  {
    hide Around, FirstIn;
    AroundIs(all, ring, i, 1);
    assert From(all, i)[0..] == From(all, i);
  }

  lemma {:induction false} FirstInAppend(s: seq<Id>, t: seq<Id>, ring: seq<Id>)
    requires ring != []
    ensures (exists x :: x in s && x in ring) ==> FirstIn(s + t, ring) == FirstIn(s, ring)
    ensures !(exists x :: x in s && x in ring) ==> FirstIn(s + t, ring) == FirstIn(t, ring)
  {
    if s == [] {
      assert s + t == t;
    } else {
      assert (s + t)[1..] == s[1..] + t;
      assert s == [s[0]] + s[1..];
      FirstInAppend(s[1..], t, ring);
    }
  }

  lemma {:induction false} SubFirst(sub: seq<Id>, all: seq<Id>, ring: seq<Id>)
    requires Sub(sub, all) && sub != [] && ring != []
    requires forall x :: x in all ==> (x in sub <==> x in ring)
    ensures FirstIn(all, ring) == sub[0]
  {
    if sub[0] != all[0] {
      SubFirst(sub, all[1..], ring);
    }
  }

  lemma {:induction false} SubMembers(sub: seq<Id>, all: seq<Id>)
    requires Sub(sub, all)
    ensures forall x :: x in sub ==> x in all
  {
    if all != [] {
      if sub != [] && sub[0] == all[0] {
        SubMembers(sub[1..], all[1..]);
        assert sub == [sub[0]] + sub[1..];
      } else {
        SubMembers(sub, all[1..]);
      }
    }
  }

  /** Behind a common member, what is left of the one is left of the other. */
  lemma {:induction false} SubTail(sub: seq<Id>, all: seq<Id>, cur: Id)
    requires Sub(sub, all) && Apart(all) && cur in sub && cur in all
    ensures Sub(sub[Place(sub, cur) + 1..], all[Place(all, cur) + 1..])
  {
    if sub[0] == all[0] {
      if sub[0] != cur {
        SubTail(sub[1..], all[1..], cur);
        assert sub[1..][Place(sub[1..], cur) + 1..] == sub[Place(sub, cur) + 1..];
        assert all[1..][Place(all[1..], cur) + 1..] == all[Place(all, cur) + 1..];
      }
    } else {
      assert cur != all[0];
      SubTail(sub, all[1..], cur);
      assert all[1..][Place(all[1..], cur) + 1..] == all[Place(all, cur) + 1..];
    }
  }

  /** What follows a common member in `all` is in `sub` only behind it. */
  lemma {:induction false} SubBehind(sub: seq<Id>, all: seq<Id>, cur: Id, x: Id)
    requires Sub(sub, all) && Apart(all) && cur in sub && cur in all && x in all[Place(all, cur) + 1..]
    ensures x in sub <==> x in sub[Place(sub, cur) + 1..]
  {
    var p, i := Place(sub, cur), Place(all, cur);
    if sub[0] == all[0] {
      assert sub == [sub[0]] + sub[1..];
      if sub[0] != cur {
        assert all[1..][i..] == all[i + 1..] && sub[1..][p..] == sub[p + 1..];
        SubBehind(sub[1..], all[1..], cur, x);
      }
    } else {
      assert all[1..][i..] == all[i + 1..];
      SubBehind(sub, all[1..], cur, x);
    }
  }

  lemma {:induction false} RingNext(all: seq<Id>, ring: seq<Id>, cur: Id)
    requires Sub(ring, all) && Apart(all) && cur in ring && cur in all
    ensures ring[(Place(ring, cur) + 1) % |ring|] == FirstIn(From(all, Place(all, cur)), ring)
  {
    hide Sub, FirstIn, Place, Apart;
    var p, i := Place(ring, cur), Place(all, cur);
    Wraps(p, 1, |ring|);
    TailMembers(all, ring, cur);
    assert From(all, i) == all[i + 1..] + all[..i + 1];
    if p + 1 < |ring| {
      RingOn(all[i + 1..], all[..i + 1], ring[p + 1..], ring);
    } else {
      assert cur in all[..i + 1] by { assert all[i] == cur; }
      RingAround(all, all[..i + 1], all[i + 1..], ring, cur);
    }
  }

  lemma {:induction false} TailMembers(all: seq<Id>, ring: seq<Id>, cur: Id)
    requires Sub(ring, all) && Apart(all) && cur in ring && cur in all
    ensures var tail, rest := ring[Place(ring, cur) + 1..], all[Place(all, cur) + 1..];
            Sub(tail, rest) && forall x :: x in rest ==> (x in tail <==> x in ring)
  {
    hide Sub, Place, Apart;
    SubTail(ring, all, cur);
    forall x | x in all[Place(all, cur) + 1..] ensures x in ring[Place(ring, cur) + 1..] <==> x in ring {
      SubBehind(ring, all, cur, x);
    }
  }

  /** Some member of the ring is still to come. */
  lemma {:induction false} RingOn(rest: seq<Id>, before: seq<Id>, tail: seq<Id>, ring: seq<Id>)
    requires Sub(tail, rest) && tail != [] && ring != [] && forall x :: x in rest ==> (x in tail <==> x in ring)
    ensures FirstIn(rest + before, ring) == tail[0]
  {
    hide FirstIn;
    SubFirst(tail, rest, ring);
    SubMembers(tail, rest);
    assert tail[0] in rest && tail[0] in ring;
    FirstInAppend(rest, before, ring);
  }

  /** None is: around to the first. */
  lemma {:induction false} RingAround(all: seq<Id>, before: seq<Id>, rest: seq<Id>, ring: seq<Id>, cur: Id)
    requires Sub(ring, all) && all == before + rest && cur in before && cur in ring
    requires forall x :: x in rest ==> x !in ring
    ensures FirstIn(rest + before, ring) == ring[0]
  {
    hide FirstIn;
    SubFirst(ring, all, ring);
    FirstInAppend(rest, before, ring);
    FirstInAppend(before, rest, ring);
  }

  /** Where a press lands: the first channel of the ring after the current one, in opening order and
      around, also when the current one is filtered out of the ring; the ring's first when there is
      no current one. */
  lemma {:induction false} LandsNext(r: Router)
    requires Inv(r) && r.order != []
    ensures var cur := Engaged(r);
            && (cur.Some? ==>
                  && cur.value in r.order
                  && NextTarget(r) == FirstIn(From(r.order, Place(r.order, cur.value)), Ring(r)))
            && (cur == None ==> NextTarget(r) == Ring(r)[0])
  {
    hide Ring, ChansOk, Sub, Place, FirstIn, Around, From, Apart;
    RingSub(r);
    var cur := Engaged(r);
    if cur.Some? {
      assert cur.value in r.order;
      if cur.value in Ring(r) {
        RingNext(r.order, Ring(r), cur.value);
      } else {
        AroundFull(r.order, Ring(r), Place(r.order, cur.value));
      }
    }
  }

  // ---- Around and around -----------------------------------------------------

  /** Where `n` presses land. */
  function Presses(r: Router, n: nat): seq<Id>
    requires r.order != []
    decreases n
  {
    if n == 0 then [] else
      var r' := NextChannel(r).0;
      [NextTarget(r)] + (if r'.order == [] then [] else Presses(r', n - 1))
  }

  /** The same channels, mutes and empty batches. */
  ghost predicate SameRing(r: Router, r': Router) {
    && r'.order == r.order && (forall id :: id in r'.chans <==> id in r.chans)
    && forall id :: id in r.chans ==>
         r'.chans[id].muted == r.chans[id].muted && r'.chans[id].entries == r.chans[id].entries
  }

  lemma {:induction false} UnmutedSame(r: Router, r': Router, ids: seq<Id>)
    requires SameRing(r, r')
    ensures Unmuted(r', ids) == Unmuted(r, ids) && NonEmpty(r', ids) == NonEmpty(r, ids)
  {
    if ids != [] {
      UnmutedSame(r, r', ids[1..]);
    }
  }

  lemma {:induction false} RingSame(r: Router, r': Router)
    requires SameRing(r, r')
    ensures Ring(r') == Ring(r)
  {
    hide SameRing, Unmuted, NonEmpty;
    UnmutedSame(r, r', r.order);
    UnmutedSame(r, r', Unmuted(r, r.order));
    OrderSame(r, r');
  }

  lemma {:induction false} OrderSame(r: Router, r': Router)
    requires SameRing(r, r')
    ensures r'.order == r.order
  {
  }

  /** A press changes no part of the ring, and its target is the new position. */
  lemma {:induction false} PressKeepsRing(r: Router)
    requires Inv(r) && r.order != []
    ensures var r' := NextChannel(r).0;
            Inv(r') && r'.order == r.order && Ring(r') == Ring(r) && Engaged(r') == Some(NextTarget(r))
                && NextTarget(r) in Ring(r)
  {
    hide Ring, NextChannel, NextTarget, Inv, CaughtUp;
    NextChannelKeeps(r);
    NextChannelIs(r);
    TargetOpen(r);
    RingSame(r, NextChannel(r).0);
  }

  lemma {:induction false} PlaceAt(ids: seq<Id>, k: nat)
    requires Apart(ids) && k < |ids|
    ensures Place(ids, ids[k]) == k
  {
    hide Place;
    assert Place(ids, ids[k]) < |ids|;
  }

  /** `ids` from place `p` all the way around. */
  function Turned(ids: seq<Id>, p: nat): seq<Id>
    requires p < |ids|
  {
    ids[p..] + ids[..p]
  }

  lemma {:induction false} TurnOn(ids: seq<Id>, p: nat)
    requires p < |ids|
    ensures Turned(ids, (p + 1) % |ids|) == Turned(ids, p)[1..] + [ids[p]]
    ensures Turned(ids, p)[0] == ids[p] && |Turned(ids, p)| == |ids|
  {
    Wraps(p, 1, |ids|);
    if p + 1 == |ids| {
      assert ids == ids[..p] + [ids[p]];
    }
  }

  lemma {:induction false} PressesAre(r: Router, n: nat)
    requires Inv(r) && r.order != [] && n <= |Ring(r)|
    ensures Presses(r, n) == Turned(Ring(r), Place(Ring(r), NextTarget(r)))[..n]
    decreases n
  {
    hide Inv, Ring, NextChannel, Apart, Place, Turned;
    PressOn(r);
    if n > 0 {
      PressesAre(NextChannel(r).0, n - 1);
    }
  }

  /** One press on, the ring is seen from one place further. */
  lemma {:induction false} PressOn(r: Router)
    requires Inv(r) && r.order != []
    ensures var r', ring, t := NextChannel(r).0, Ring(r), NextTarget(r);
            && Inv(r') && r'.order == r.order && Ring(r') == ring && t in ring
            && Turned(ring, Place(ring, NextTarget(r'))) == Turned(ring, Place(ring, t))[1..] + [t]
            && |Turned(ring, Place(ring, t))| == |ring| && Turned(ring, Place(ring, t))[0] == t
            && NextTarget(r') in ring
  {
    hide Inv, Ring, NextChannel, Apart, Place, Turned;
    var ring, r' := Ring(r), NextChannel(r).0;
    var p := Place(ring, NextTarget(r));
    PressKeepsRing(r);
    PressKeepsRing(r');
    RingApart(r);
    assert NextTarget(r') == ring[(p + 1) % |ring|];
    PlaceAt(ring, (p + 1) % |ring|);
    TurnOn(ring, p);
  }

  lemma {:induction false} TurnedApart(ids: seq<Id>, p: nat)
    requires Apart(ids) && p < |ids|
    ensures Apart(Turned(ids, p)) && forall id :: id in Turned(ids, p) <==> id in ids
  {
    assert ids == ids[..p] + ids[p..];
  }

  /** As many presses as the ring has members visit each exactly once; the next one starts over. */
  lemma {:induction false} RoundRobin(r: Router)
    requires Inv(r) && r.order != []
    ensures var n := |Ring(r)|; var visited := Presses(r, n);
            && |visited| == n && Apart(visited)
            && (forall id :: id in Ring(r) <==> id in visited)
            && Presses(r, n + 1) == visited + [visited[0]]
  {
    hide Inv, Ring, NextChannel, Place, NextTarget, Turned, Apart;
    var ring, t := Ring(r), NextTarget(r);
    PressOn(r);
    var turned := Turned(ring, Place(ring, t));
    RingApart(r);
    TurnedApart(ring, Place(ring, t));
    PressesAre(r, |ring|);
    assert turned[..|ring|] == turned;
    var r' := NextChannel(r).0;
    PressesAre(r', |ring|);
    var on := Turned(ring, Place(ring, NextTarget(r')));
    assert on[..|ring|] == on;
    assert [t] + (turned[1..] + [t]) == turned + [t];
  }
}
