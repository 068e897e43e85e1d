/**
 The re-sequencer of streamed deltas. The deltas of one block reach the rules in any order; those
 ahead of a missing index are held until the gap closes or is given up. `Order` is the state as a
 value, with the transitions as functions and what they guarantee as lemmas; the class
 `DeltaOrder` updates the same fields in place and is proved equal to them.
 */
module DeltaOrders {
  import opened Bags

  datatype Delta = Delta(text: string, index: nat, fin: bool)

  // `next`: the index the block expects (0: a new block). `ahead`: what arrived too early, the
  // sorted map of the source as its list of entries by ascending index. `gen`: names the current
  // gap, so the timer of an older one is recognised. `skipped`: indices given up while their
  // successors were let go.
  datatype Order = Order(next: nat, ahead: seq<Delta>, gen: nat, skipped: set<nat>)

  const FRESH := Order(0, [], 0, {})

  ghost predicate Ascending(ahead: seq<Delta>) {
    forall i, j :: 0 <= i < j < |ahead| ==> ahead[i].index < ahead[j].index
  }

  predicate Holds(ahead: seq<Delta>, i: nat) {
    exists k :: 0 <= k < |ahead| && ahead[k].index == i
  }

  /** `ahead` with `d` in its place. */
  function Insert(ahead: seq<Delta>, d: Delta): seq<Delta> {
    if ahead == [] || d.index < ahead[0].index then [d] + ahead
    else [ahead[0]] + Insert(ahead[1..], d)
  }

  /** The index expected after `d`. */
  function After(d: Delta): nat {
    if d.fin then 0 else d.index + 1
  }

  /** The missing indices below the highest held one. */
  function Missing(o: Order): set<nat> {
    var top := if o.ahead == [] then 0 else o.ahead[|o.ahead| - 1].index;
    set i | o.next <= i < top && !Holds(o.ahead, i)
  }

  /** Let go of everything held, in index order; the missing indices are given up. */
  function Release(o: Order): (Order, seq<Delta>) {
    if o.ahead == [] then (o.(skipped := o.skipped + Missing(o)), []) else
      (Order(After(o.ahead[|o.ahead| - 1]), [], o.gen + 1, o.skipped + Missing(o)), o.ahead)
  }

  /** Take the held deltas that follow without a gap. Nothing held is ever below `next`, so only
      the first entry can be the one to remove. */
  function Drain(o: Order): (Order, seq<Delta>)
    decreases |o.ahead|
  {
    if o.ahead == [] || o.ahead[0].index != o.next then (o, []) else
      var (o', rest) := Drain(o.(next := After(o.ahead[0]), ahead := o.ahead[1..]));
      (o', [o.ahead[0]] + rest)
  }

  /** A delta with index 0 starts the next block: what the last one held goes first. */
  function Begin(o: Order, d: Delta): (Order, seq<Delta>) {
    if d.index != 0 then (o, [])
    else if o.next > 0 then
      var (o', out) := Release(o);
      (o'.(next := 0, skipped := {}), out)
    else (o.(skipped := {}), [])
  }

  predicate Late(o: Order, d: Delta) {
    d.index != o.next && d.index in o.skipped
  }

  /** Place a delta in the block begun: a duplicate, or one whose gap was given up, goes at once
      after what is held; one ahead is held; the expected one goes with what it unblocks. */
  function Place(o: Order, d: Delta): (Order, seq<Delta>, bool) {
    if d.index < o.next || Holds(o.ahead, d.index) || Late(o, d) then
      var (o', out) := Release(if Late(o, d) then o.(skipped := o.skipped - {d.index}) else o);
      (o', out + [d], false)
    else if d.index > o.next then
      (o.(ahead := Insert(o.ahead, d)), [], o.ahead == [])
    else
      var (o', out) := Drain(o.(skipped := o.skipped - {d.index}, next := After(d)));
      (if o'.ahead == [] then o'.(gen := o'.gen + 1) else o', [d] + out, false)
  }

  /** Take one delta: the deltas ready now, in order, and whether a new gap began. */
  function Accept(o: Order, d: Delta): (Order, seq<Delta>, bool) {
    var (o1, first) := Begin(o, d);
    var (o2, out, gap) := Place(o1, d);
    (o2, first + out, gap)
  }

  // ---- What is held is sorted and ahead of what is expected ---------------

  ghost predicate Valid(o: Order) {
    Ascending(o.ahead) && (o.ahead != [] ==> o.ahead[0].index > o.next)
  }

  lemma {:induction false} InsertAscends(ahead: seq<Delta>, d: Delta)
    requires Ascending(ahead) && !Holds(ahead, d.index)
    ensures Ascending(Insert(ahead, d))
    ensures Insert(ahead, d) != []
    ensures Insert(ahead, d)[0] == d || (ahead != [] && Insert(ahead, d)[0] == ahead[0])
  {
    if !(ahead == [] || d.index < ahead[0].index) {
      InsertAscends(ahead[1..], d);
    }
  }

  lemma {:induction false} InsertAdds(ahead: seq<Delta>, d: Delta)
    ensures multiset(Insert(ahead, d)) == multiset(ahead) + multiset{d}
  {
    if !(ahead == [] || d.index < ahead[0].index) {
      InsertAdds(ahead[1..], d);
      assert ahead == [ahead[0]] + ahead[1..];
    }
  }

  /** What follows without a gap is the front of what is held. */
  lemma {:induction false} DrainSplits(o: Order)
    requires Ascending(o.ahead) && (o.ahead != [] ==> o.ahead[0].index >= o.next)
    ensures o.ahead == Drain(o).1 + Drain(o).0.ahead
    ensures Drain(o).0.gen == o.gen && Drain(o).0.skipped == o.skipped
    ensures Drain(o).0.ahead != [] ==> Drain(o).0.ahead[0].index > Drain(o).0.next
    decreases |o.ahead|
  {
    if o.ahead != [] && o.ahead[0].index == o.next {
      DrainSplits(o.(next := After(o.ahead[0]), ahead := o.ahead[1..]));
    }
  }

  lemma {:induction false} AscendingTail(a: seq<Delta>, b: seq<Delta>)
    requires Ascending(a + b)
    ensures Ascending(b)
  {
    forall i, j | 0 <= i < j < |b| ensures b[i].index < b[j].index {
      assert (a + b)[|a| + i] == b[i] && (a + b)[|a| + j] == b[j];
    }
  }

  lemma {:induction false} BeginKeeps(o: Order, d: Delta)
    requires Valid(o)
    ensures Valid(Begin(o, d).0)
    ensures Begin(o, d).1 + Begin(o, d).0.ahead == o.ahead
    ensures d.index == 0 ==> Begin(o, d).0.next == 0
    ensures d.index != 0 ==> Begin(o, d) == (o, [])
    ensures Begin(o, d).0.gen >= o.gen
    ensures Begin(o, d).0.ahead == o.ahead ==> Begin(o, d).0.gen == o.gen
    ensures Begin(o, d).0.ahead != o.ahead ==> Begin(o, d).0.ahead == [] && Begin(o, d).0.gen > o.gen
  {
  }

  lemma {:induction false} PlaceKeeps(o: Order, d: Delta)
    requires Valid(o)
    ensures Valid(Place(o, d).0)
  {
    if d.index < o.next || Holds(o.ahead, d.index) || Late(o, d) {
    } else if d.index > o.next {
      InsertAscends(o.ahead, d);
    } else {
      var o1 := o.(skipped := o.skipped - {d.index}, next := After(d));
      DrainSplits(o1);
      AscendingTail(Drain(o1).1, Drain(o1).0.ahead);
    }
  }

  // ---- Nothing is lost and nothing is read twice --------------------------

  lemma {:induction false} PlaceConserves(o: Order, d: Delta)
    requires Valid(o)
    ensures multiset(Place(o, d).1) + multiset(Place(o, d).0.ahead) == multiset(o.ahead) + multiset{d}
  {
    hide Drain, Insert, Ascending, Missing;
    if d.index < o.next || Holds(o.ahead, d.index) || Late(o, d) {
      ReleasesAll(if Late(o, d) then o.(skipped := o.skipped - {d.index}) else o);
    } else if d.index > o.next {
      InsertAdds(o.ahead, d);
    } else {
      RestAbove(o, d);
      var o1 := o.(skipped := o.skipped - {d.index}, next := After(d));
      DrainSplits(o1);
      assert multiset(o.ahead) == multiset(Drain(o1).1) + multiset(Drain(o1).0.ahead);
    }
  }

  lemma {:induction false} ReleasesAll(o: Order)
    ensures Release(o).1 == o.ahead && Release(o).0.ahead == []
  {
  }

  lemma {:induction false} AcceptConserves(o: Order, d: Delta)
    requires Valid(o)
    ensures Valid(Accept(o, d).0)
    ensures multiset(Accept(o, d).1) + multiset(Accept(o, d).0.ahead) == multiset(o.ahead) + multiset{d}
  {
    hide Begin, Place;
    var (o1, first) := Begin(o, d);
    BeginKeeps(o, d);
    PlaceKeeps(o1, d);
    PlaceConserves(o1, d);
    var (o2, out, gap) := Place(o1, d);
    assert Accept(o, d) == (o2, first + out, gap);
    assert multiset(o.ahead) == multiset(first) + multiset(o1.ahead);
    Regroup(first, out, multiset(o.ahead), multiset(o1.ahead), multiset(o2.ahead), multiset{}, multiset{d});
    assert multiset{} + multiset{d} == multiset{d};
  }

  /** What may happen to one channel's order: a delta comes, or what is held is let go. */
  datatype Event = Arrive(delta: Delta) | LetGo

  function Step(o: Order, e: Event): (Order, seq<Delta>) {
    match e
    case Arrive(d) => var (o', out, _) := Accept(o, d); (o', out)
    case LetGo => Release(o)
  }

  function Run(o: Order, events: seq<Event>): (Order, seq<Delta>)
    decreases |events|
  {
    if events == [] then (o, []) else
      var (o1, out) := Step(o, events[0]);
      var (o2, rest) := Run(o1, events[1..]);
      (o2, out + rest)
  }

  function Arrived(events: seq<Event>): multiset<Delta> {
    if events == [] then multiset{} else
      (if events[0].Arrive? then multiset{events[0].delta} else multiset{}) + Arrived(events[1..])
  }

  lemma {:induction false} StepConserves(o: Order, e: Event)
    requires Valid(o)
    ensures Valid(Step(o, e).0)
    ensures multiset(Step(o, e).1) + multiset(Step(o, e).0.ahead) == multiset(o.ahead) + Arrived([e])
  {
    if e.Arrive? {
      AcceptConserves(o, e.delta);
    }
  }

  /** Over any run, with duplicates, late deltas, restarts and releases wherever they fall: what
      came out plus what is still held is exactly what was held plus what arrived. */
  lemma {:induction false} RunConserves(o: Order, events: seq<Event>)
    requires Valid(o)
    ensures multiset(Run(o, events).1) + multiset(Run(o, events).0.ahead) == multiset(o.ahead) + Arrived(events)
    ensures Valid(Run(o, events).0)
    decreases |events|
  {
    hide Step;
    if events != [] {
      var (o1, out) := Step(o, events[0]);
      StepConserves(o, events[0]);
      RunConserves(o1, events[1..]);
      var (o2, rest) := Run(o1, events[1..]);
      assert Run(o, events) == (o2, out + rest);
      assert Arrived(events) == Arrived([events[0]]) + Arrived(events[1..]);
      Regroup(out, rest, multiset(o.ahead), multiset(o1.ahead), multiset(o2.ahead),
              Arrived([events[0]]), Arrived(events[1..]));
    }
  }

  // ---- Which gap a timer belongs to ---------------------------------------

  lemma {:induction false} PlaceKeepsItsName(o: Order, d: Delta)
    requires Valid(o)
    ensures var (o', _, gap) := Place(o, d);
            && o'.gen >= o.gen
            && (gap ==> o'.ahead != [] && o'.gen == o.gen && o.ahead == [])
            && (o'.ahead != [] && !gap ==> o.ahead != [] && o'.gen == o.gen)
            && (o.ahead != [] && o'.ahead == [] ==> o'.gen > o.gen)
  {
    if d.index == o.next {
      DrainSplits(o.(skipped := o.skipped - {d.index}, next := After(d)));
    } else if d.index > o.next && !Holds(o.ahead, d.index) {
      InsertAscends(o.ahead, d);
    }
  }

  lemma {:induction false} NoGapAtTheStart(o: Order, d: Delta)
    requires Valid(o) && o.next == 0 && d.index == 0
    ensures !Place(o, d).2
  {
  }

  /** A gap that stays open keeps its name; whenever what was held goes, the name moves on. So a
      timer armed for a gap that has closed never matches a held delta of a later one, provided
      the caller names each new gap afresh. */
  lemma {:induction false} GapKeepsItsName(o: Order, d: Delta)
    requires Valid(o)
    ensures var (o', _, gap) := Accept(o, d);
            && o'.gen >= o.gen
            && (gap ==> o'.ahead != [] && o'.gen == o.gen && o.ahead == [])
            && (o'.ahead != [] && !gap ==> o.ahead != [] && o'.gen == o.gen)
            && (o.ahead != [] && o'.ahead == [] ==> o'.gen > o.gen)
  {
    hide Begin, Place;
    var (o1, first) := Begin(o, d);
    var (o2, out, gap) := Place(o1, d);
    assert Accept(o, d) == (o2, first + out, gap);
    BeginKeeps(o, d);
    if d.index == 0 {
      NoGapAtTheStart(o1, d);
    }
    PlaceKeepsItsName(o1, d);
  }

  lemma {:induction false} ReleaseMovesTheName(o: Order)
    ensures Release(o).0.ahead == [] && Release(o).0.gen >= o.gen
    ensures o.ahead != [] ==> Release(o).0.gen > o.gen
    ensures o.ahead == [] ==> Release(o) == (o, [])
  {
    if o.ahead == [] {
      assert Missing(o) == {};
      assert o.skipped + {} == o.skipped;
    }
  }

  // ---- What one delta lets go ------------------------------------------------

  /** `run` follows index `next` without a gap: each is the one expected after the one before it. */
  ghost predicate Follows(run: seq<Delta>, next: nat) {
    forall i :: 0 <= i < |run| ==> run[i].index == if i == 0 then next else After(run[i - 1])
  }

  lemma {:induction false} DrainFollows(o: Order)
    ensures Follows(Drain(o).1, o.next)
    ensures Drain(o).0.ahead != [] ==> Drain(o).0.ahead[0].index != Drain(o).0.next
    ensures Drain(o).0.next == if Drain(o).1 == [] then o.next else After(Drain(o).1[|Drain(o).1| - 1])
    decreases |o.ahead|
  {
    if o.ahead != [] && o.ahead[0].index == o.next {
      var o1 := o.(next := After(o.ahead[0]), ahead := o.ahead[1..]);
      DrainFollows(o1);
      assert Drain(o).1 == [o.ahead[0]] + Drain(o1).1;
    }
  }

  /** A delta that cannot be put in order any more: behind the expected index, a duplicate of one held, or of an
      index that was given up. */
  predicate OutOfOrder(o: Order, d: Delta) {
    d.index < o.next || Holds(o.ahead, d.index) || (d.index in o.skipped && d.index != o.next)
  }

  /** A delta that starts another block comes behind all that is held of the last one; one that cannot be put in order
      comes behind all that is held; one ahead of a missing index waits, and names a gap when it is the first; the
      expected one comes with all that follows it without a gap. */
  lemma {:induction false} AcceptSays(o: Order, d: Delta)
    requires Valid(o)
    ensures var (o', out, gap) := Accept(o, d); var starts := d.index == 0 && o.next > 0;
            && (starts ==> out == o.ahead + [d] && o'.ahead == [] && o'.next == After(d) && o'.skipped == {} && !gap)
            && (!starts && d.index > 0 && OutOfOrder(o, d) ==>
                  && out == o.ahead + [d] && o'.ahead == [] && !gap
                  && o'.next == (if o.ahead == [] then o.next else After(o.ahead[|o.ahead| - 1])))
            && (d.index > o.next && !OutOfOrder(o, d) ==>
                  && out == [] && o'.next == o.next && o'.skipped == o.skipped && gap == (o.ahead == [])
                  && multiset(o'.ahead) == multiset(o.ahead) + multiset{d})
            && (d.index == o.next ==>
                  && !gap && out != [] && out[0] == d && Follows(out[1..], After(d)) && out[1..] + o'.ahead == o.ahead
                  && o'.next == After(out[|out| - 1]) && (o'.ahead != [] ==> o'.ahead[0].index != o'.next))
  {
    hide Place, Ascending, Follows, Holds;
    AcceptIs(o, d);
    hide Accept, Valid;
    if d.index > 0 {
      PlaceSays(o, d);
    } else if o.next == 0 {
      var o1 := o.(skipped := {});
      SkipsNone(o);
      PlaceSays(o1, d);
    } else {
      StartsAlone(Begin(o, d).0, d);
    }
  }

  lemma {:induction false} SkipsNone(o: Order)
    requires Valid(o)
    ensures Valid(o.(skipped := {}))
  {
  }

  lemma {:induction false} AcceptIs(o: Order, d: Delta)
    ensures d.index > 0 ==> Accept(o, d) == Place(o, d)
    ensures d.index == 0 && o.next == 0 ==> Accept(o, d) == Place(o.(skipped := {}), d)
    ensures d.index == 0 && o.next > 0 ==>
              var o1 := Begin(o, d).0; var (o', out, gap) := Place(o1, d);
              && o1.next == 0 && o1.ahead == [] && o1.skipped == {} && Accept(o, d) == (o', o.ahead + out, gap)
  {
    hide Place;
    var (o1, first) := Begin(o, d);
    var (o2, out, gap) := Place(o1, d);
    assert [] + out == out;
  }

  lemma {:induction false} StartsAlone(o: Order, d: Delta)
    requires o.next == 0 && d.index == 0 && o.ahead == [] && o.skipped == {}
    ensures var (o', out, gap) := Place(o, d);
            out == [d] && o'.ahead == [] && o'.next == After(d) && o'.skipped == {} && !gap
  {
    assert [d] + [] == [d];
  }

  lemma {:induction false} PlaceSays(o: Order, d: Delta)
    requires Valid(o)
    ensures var (o', out, gap) := Place(o, d);
            && (OutOfOrder(o, d) ==>
                  && out == o.ahead + [d] && o'.ahead == [] && !gap
                  && o'.next == (if o.ahead == [] then o.next else After(o.ahead[|o.ahead| - 1])))
            && (d.index > o.next && !OutOfOrder(o, d) ==>
                  && out == [] && o'.next == o.next && o'.skipped == o.skipped && gap == (o.ahead == [])
                  && multiset(o'.ahead) == multiset(o.ahead) + multiset{d})
            && (d.index == o.next ==>
                  && !gap && out != [] && out[0] == d && Follows(out[1..], After(d)) && out[1..] + o'.ahead == o.ahead
                  && o'.next == After(out[|out| - 1]) && (o'.ahead != [] ==> o'.ahead[0].index != o'.next))
  {
    hide Drain, Insert, Ascending;
    HeldAbove(o);
    if OutOfOrder(o, d) {
      assert [] + [d] == [d];
    } else if d.index > o.next {
      InsertAdds(o.ahead, d);
    } else {
      var o1 := o.(skipped := o.skipped - {d.index}, next := After(d));
      RestAbove(o, d);
      DrainSplits(o1);
      DrainFollows(o1);
      assert ([d] + Drain(o1).1)[1..] == Drain(o1).1;
    }
  }

  lemma {:induction false} HeldAbove(o: Order)
    requires Valid(o)
    ensures !Holds(o.ahead, o.next)
  {
  }

  lemma {:induction false} RestAbove(o: Order, d: Delta)
    requires Valid(o) && d.index == o.next
    ensures Ascending(o.ahead) && (o.ahead != [] ==> o.ahead[0].index >= After(d))
  {
  }

  /** Letting go gives up exactly the missing indices below the last one held; one of them that comes after all is
      read, and no longer awaited. */
  lemma {:induction false} ReleaseGivesUp(o: Order, d: Delta)
    requires Valid(o)
    ensures var (o', out) := Release(o);
            && out == o.ahead
            && (forall i :: i in o'.skipped <==>
                  i in o.skipped || (o.ahead != [] && o.next <= i < o.ahead[|o.ahead| - 1].index && !Holds(o.ahead, i)))
            && (d.index > 0 && d.index in o'.skipped && d.index != o'.next ==>
                  Accept(o', d).1 == [d] && d.index !in Accept(o', d).0.skipped)
  {
    var o' := Release(o).0;
    if d.index > 0 && d.index in o'.skipped && d.index != o'.next {
      assert o'.ahead == [] && Late(o', d);
      assert [] + ([] + [d]) == [d];
    }
  }

  // ---- The arrival order within a block does not matter -------------------

  /** The deltas of a block: numbered from 0, the last one final. */
  function Block(texts: seq<string>): (b: seq<Delta>)
    ensures |b| == |texts|
    ensures forall i :: 0 <= i < |texts| ==> b[i] == Delta(texts[i], i, i == |texts| - 1)
  {
    seq(|texts|, i requires 0 <= i < |texts| => Delta(texts[i], i, i == |texts| - 1))
  }

  ghost predicate AtRest(o: Order) {
    o.next == 0 && o.ahead == [] && o.skipped == {}
  }

  function Feed(o: Order, deltas: seq<Delta>): (Order, seq<Delta>)
    decreases |deltas|
  {
    if deltas == [] then (o, []) else
      var (o1, out, _) := Accept(o, deltas[0]);
      var (o2, rest) := Feed(o1, deltas[1..]);
      (o2, out + rest)
  }

  /** In the middle of block `b`: everything below `m` went out, `held` is held, `rest` is to come. */
  ghost predicate Amid(o: Order, b: seq<Delta>, m: nat, rest: seq<Delta>) {
    && m < |b|
    && o.next == m && o.skipped == {} && Valid(o)
    && multiset(b) == multiset(b[..m]) + multiset(o.ahead) + multiset(rest)
  }

  lemma {:induction false} SliceHead(b: seq<Delta>, m: nat, m': nat)
    requires m < m' <= |b|
    ensures b[m..m'] == [b[m]] + b[m + 1..m']
  {
  }

  lemma {:induction false} DrainPrefix(o: Order, b: seq<Delta>, m: nat) returns (m': nat)
    requires m <= |b| && forall i :: 0 <= i < |b| ==> b[i].index == i && b[i].fin == (i == |b| - 1)
    requires o.next == if m == |b| then 0 else m
    requires Ascending(o.ahead)
    requires forall k :: 0 <= k < |o.ahead| ==> m <= o.ahead[k].index < |b| && o.ahead[k] == b[o.ahead[k].index]
    ensures m <= m' <= |b|
    ensures Drain(o).1 == b[m..m']
    ensures Drain(o).0.next == if m' == |b| then 0 else m'
    decreases |o.ahead|
  {
    if o.ahead != [] && o.ahead[0].index == o.next {
      assert o.ahead[0] == b[m];
      m' := DrainPrefix(o.(next := After(b[m]), ahead := o.ahead[1..]), b, m + 1);
      SliceHead(b, m, m');
    } else {
      m' := m;
    }
  }

  lemma {:induction false} OnceEach(b: seq<Delta>, i: nat)
    requires i < |b| && forall k :: 0 <= k < |b| ==> b[k].index == k
    ensures multiset(b)[b[i]] == 1
  {
    assert b == b[..i] + [b[i]] + b[i + 1..];
    assert b[i] !in b[..i] && b[i] !in b[i + 1..];
  }

  lemma {:induction false} InPrefix(b: seq<Delta>, m: nat, i: nat)
    requires i < m <= |b|
    ensures multiset(b[..m])[b[i]] >= 1
  {
    assert b[..m][i] == b[i];
  }

  /** Every delta of a block comes once, so what is held or to come is numbered from `m` on. */
  lemma {:induction false} OfTheBlock(o: Order, b: seq<Delta>, m: nat, rest: seq<Delta>, d: Delta)
    requires Amid(o, b, m, rest) && forall k :: 0 <= k < |b| ==> b[k].index == k
    requires d in o.ahead || d in rest
    ensures m <= d.index < |b| && d == b[d.index]
    ensures multiset(o.ahead)[d] + multiset(rest)[d] == 1
  {
    assert d in multiset(b);
    var i :| 0 <= i < |b| && b[i] == d;
    OnceEach(b, i);
    if i < m {
      InPrefix(b, m, i);
    }
  }

  lemma {:induction false} SomethingToCome(o: Order, b: seq<Delta>, m: nat, rest: seq<Delta>)
    requires Amid(o, b, m, rest) && forall k :: 0 <= k < |b| ==> b[k].index == k
    ensures b[m] in rest
  {
    assert b[m] in multiset(b);
    assert b[m] !in b[..m];
    forall k | 0 <= k < |o.ahead| ensures o.ahead[k] != b[m] {
      assert o.ahead[k].index >= o.ahead[0].index;
    }
  }

  lemma {:induction false} NotHeld(o: Order, b: seq<Delta>, m: nat, rest: seq<Delta>, d: Delta)
    requires Amid(o, b, m, rest) && forall k :: 0 <= k < |b| ==> b[k].index == k
    requires d in rest
    ensures !Holds(o.ahead, d.index)
  {
    OfTheBlock(o, b, m, rest, d);
    forall p | 0 <= p < |o.ahead| ensures o.ahead[p].index != d.index {
      OfTheBlock(o, b, m, rest, o.ahead[p]);
      assert o.ahead[p] != d;
    }
  }

  lemma {:induction false} AnyOrderAmid(o: Order, texts: seq<string>, m: nat, rest: seq<Delta>)
    requires Amid(o, Block(texts), m, rest)
    ensures Feed(o, rest).1 == Block(texts)[m..]
    ensures AtRest(Feed(o, rest).0)
    decreases |rest|
  {
    hide Place, Begin;
    var b := Block(texts);
    SomethingToCome(o, b, m, rest);
    var d := rest[0];
    OfTheBlock(o, b, m, rest, d);
    NotHeld(o, b, m, rest, d);
    forall k | 0 <= k < |o.ahead|
      ensures m < o.ahead[k].index < |b| && o.ahead[k] == b[o.ahead[k].index]
    {
      OfTheBlock(o, b, m, rest, o.ahead[k]);
    }
    BeginAmid(o, d);
    var m' := PlaceAdvances(o, b, m, d);
    PlaceKeeps(o, d);
    PlaceConserves(o, d);
    var (o1, out, gap) := Place(o, d);
    assert Accept(o, d) == (o1, [] + out, gap);
    assert [] + out == out;
    StillToCome(b, m, m', o.ahead, o1.ahead, rest);
    assert b[m..] == b[m..m'] + b[m'..];
    if m' < |b| {
      AnyOrderAmid(o1, texts, m', rest[1..]);
    } else {
      assert rest[1..] == [] && o1.ahead == [];
      assert Feed(o1, []) == (o1, []);
    }
  }

  lemma {:induction false} BeginAmid(o: Order, d: Delta)
    requires o.skipped == {} && (d.index == 0 ==> o.next == 0)
    ensures Begin(o, d) == (o, [])
  {
  }

  lemma {:induction false} AddsNothing<T>(b: seq<T>, x: seq<T>, y: seq<T>)
    requires multiset(b) == multiset(b) + multiset(x) + multiset(y)
    ensures x == [] && y == []
  {
    var all := b + x + y;
    assert multiset(all) == multiset(b);
    assert |multiset(all)| == |all|;
  }

  lemma {:induction false} StillToCome(b: seq<Delta>, m: nat, m': nat, held: seq<Delta>, held': seq<Delta>,
      rest: seq<Delta>)
    requires m <= m' <= |b| && rest != []
    requires multiset(b) == multiset(b[..m]) + multiset(held) + multiset(rest)
    requires multiset(b[m..m']) + multiset(held') == multiset(held) + multiset{rest[0]}
    ensures multiset(b) == multiset(b[..m']) + multiset(held') + multiset(rest[1..])
    ensures m' == |b| ==> held' == [] && rest[1..] == []
  {
    assert b[..m'] == b[..m] + b[m..m'];
    assert rest == [rest[0]] + rest[1..];
    forall d: Delta | true
      ensures multiset(b)[d] == (multiset(b[..m']) + multiset(held') + multiset(rest[1..]))[d]
    {
      assert (multiset(b[m..m']) + multiset(held'))[d] == (multiset(held) + multiset{rest[0]})[d];
    }
    if m' == |b| {
      assert b[..m'] == b;
      AddsNothing(b, held', rest[1..]);
    }
  }

  lemma {:induction false} PlaceNext(o: Order, d: Delta)
    requires d.index == o.next && o.skipped == {} && !Holds(o.ahead, d.index)
    ensures var o1 := o.(next := After(d));
            && Place(o, d).1 == [d] + Drain(o1).1
            && Place(o, d).0.next == Drain(o1).0.next && Place(o, d).0.skipped == Drain(o1).0.skipped
  {
    hide Drain;
    assert o.(skipped := o.skipped - {d.index}, next := After(d)) == o.(next := After(d));
  }

  lemma {:induction false} PlaceAhead(o: Order, d: Delta)
    requires d.index > o.next && o.skipped == {} && !Holds(o.ahead, d.index)
    ensures Place(o, d).1 == [] && Place(o, d).0.next == o.next && Place(o, d).0.skipped == {}
  {
  }

  /** The next delta to come either waits or carries the output on to the next gap. */
  lemma {:induction false} PlaceAdvances(o: Order, b: seq<Delta>, m: nat, d: Delta) returns (m': nat)
    requires m < |b| && o.next == m && o.skipped == {} && Valid(o)
    requires forall i :: 0 <= i < |b| ==> b[i].index == i && b[i].fin == (i == |b| - 1)
    requires forall k :: 0 <= k < |o.ahead| ==> m < o.ahead[k].index < |b| && o.ahead[k] == b[o.ahead[k].index]
    requires m <= d.index < |b| && d == b[d.index] && !Holds(o.ahead, d.index)
    ensures m <= m' <= |b|
    ensures Place(o, d).1 == b[m..m']
    ensures Place(o, d).0.next == (if m' == |b| then 0 else m') && Place(o, d).0.skipped == {}
  {
    hide Place, Drain;
    if d.index > m {
      PlaceAhead(o, d);
      m' := m;
    } else {
      PlaceNext(o, d);
      var o1 := o.(next := After(d));
      m' := DrainPrefix(o1, b, m + 1);
      DrainSplits(o1);
      SliceHead(b, m, m');
    }
  }

  /** The deltas of a block, arriving in any order at all, come out as the block, in order, and
      leave the order ready for the next block. */
  lemma {:induction false} AnyArrivalOrder(o: Order, texts: seq<string>, arrival: seq<Delta>)
    requires AtRest(o) && texts != []
    requires multiset(arrival) == multiset(Block(texts))
    ensures Feed(o, arrival).1 == Block(texts)
    ensures AtRest(Feed(o, arrival).0)
  {
    AnyOrderAmid(o, texts, 0, arrival);
    assert Block(texts)[0..] == Block(texts);
  }

  function Flatten<T>(ss: seq<seq<T>>): seq<T> {
    if ss == [] then [] else ss[0] + Flatten(ss[1..])
  }

  function Blocks(texts: seq<seq<string>>): seq<Delta> {
    if texts == [] then [] else Block(texts[0]) + Blocks(texts[1..])
  }

  lemma {:induction false} FeedSplit(o: Order, a: seq<Delta>, b: seq<Delta>)
    ensures Feed(o, a + b).0 == Feed(Feed(o, a).0, b).0
    ensures Feed(o, a + b).1 == Feed(o, a).1 + Feed(Feed(o, a).0, b).1
    decreases |a|
  {
    if a == [] {
      assert a + b == b;
    } else {
      var (o1, out, _) := Accept(o, a[0]);
      assert (a + b)[1..] == a[1..] + b && (a + b)[0] == a[0];
      FeedSplit(o1, a[1..], b);
    }
  }

  /** Block after block, each shuffled on its own: the output is the in-order stream. */
  lemma {:induction false} AnyArrivalOrderOfBlocks(o: Order, texts: seq<seq<string>>, arrivals: seq<seq<Delta>>)
    requires AtRest(o) && |arrivals| == |texts|
    requires forall i :: 0 <= i < |texts| ==> texts[i] != [] && multiset(arrivals[i]) == multiset(Block(texts[i]))
    ensures Feed(o, Flatten(arrivals)).1 == Blocks(texts)
    ensures AtRest(Feed(o, Flatten(arrivals)).0)
    decreases |texts|
  {
    if texts != [] {
      AnyArrivalOrder(o, texts[0], arrivals[0]);
      FeedSplit(o, arrivals[0], Flatten(arrivals[1..]));
      AnyArrivalOrderOfBlocks(Feed(o, arrivals[0]).0, texts[1..], arrivals[1..]);
    }
  }

  // ---- The fields updated in place ----------------------------------------

  class DeltaOrder {
    var next: nat
    var ahead: seq<Delta>
    var gen: nat
    var skipped: set<nat>

    function View(): Order
      reads this
    {
      Order(next, ahead, gen, skipped)
    }

    constructor (o: Order)
      ensures View() == o
    {
      next, ahead, gen, skipped := o.next, o.ahead, o.gen, o.skipped;
    }

    method Advance(d: Delta)
      modifies this`next
      ensures next == After(d)
    {
      next := if d.fin then 0 else d.index + 1;
    }

    method ReleaseHeld() returns (out: seq<Delta>)
      modifies this
      ensures (View(), out) == Release(old(View()))
    {
      skipped := skipped + Missing(View());
      var held := ahead;
      ahead := [];
      out := [];
      for k := 0 to |held|
        invariant out == held[..k]
        invariant next == if k == 0 then old(next) else After(held[k - 1])
        invariant ahead == [] && gen == old(gen) && skipped == old(skipped) + Missing(old(View()))
      {
        Advance(held[k]);
        out := out + [held[k]];
      }
      assert out == held;
      if out != [] {
        gen := gen + 1;
      } else {
        assert Missing(old(View())) == {};
      }
    }

    method BeginBlock(d: Delta) returns (out: seq<Delta>)
      modifies this
      ensures (View(), out) == Begin(old(View()), d)
    {
      out := [];
      if d.index == 0 && next > 0 {
        out := ReleaseHeld();
        next := 0;
      }
      if d.index == 0 {
        skipped := {};
      }
    }

    method Follow() returns (out: seq<Delta>)
      modifies this
      ensures (View(), out) == Drain(old(View()))
    {
      out := [];
      while ahead != [] && ahead[0].index == next
        invariant Drain(old(View())).0 == Drain(View()).0
        invariant Drain(old(View())).1 == out + Drain(View()).1
        decreases |ahead|
      {
        var d := ahead[0];
        ahead := ahead[1..];
        out := out + [d];
        Advance(d);
      }
      assert Drain(View()) == (View(), []);
      assert out + [] == out;
    }

    method Take(d: Delta) returns (ready: seq<Delta>, gap: bool)
      modifies this
      ensures (View(), ready, gap) == Accept(old(View()), d)
    {
      var first := BeginBlock(d);
      var late := d.index != next && d.index in skipped;
      if d.index < next || Holds(ahead, d.index) || late {
        if late {
          skipped := skipped - {d.index};
        }
        var out := ReleaseHeld();
        return first + (out + [d]), false;
      }
      if d.index > next {
        gap := ahead == [];
        ahead := Insert(ahead, d);
        return first + [], gap;
      }
      skipped := skipped - {d.index};
      Advance(d);
      var out := Follow();
      if ahead == [] {
        gen := gen + 1;
      }
      return first + ([d] + out), false;
    }
  }
}
