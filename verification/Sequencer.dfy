/**
 Earcons one after the other: each gets a start time behind the one before it, a burst is cut
 short. `Slots` is the schedule as a value; `Schedule` updates it in place. Times are nanoseconds.
 */
module Sequencer {
  import opened Options

  type Earcon = string
  type Time = nat

  const MILLI: nat := 1_000_000
  const GAP: nat := 60 * MILLI
  const MAX: nat := 3
  const AFTER_KEY: nat := 300 * MILLI

  datatype Slot = Slot(earcon: Earcon, start: Time, end: Time)
  datatype Slots = Slots(slots: seq<Slot>, keyEnd: Option<Time>)
  datatype Verdict = Starts(at: Time) | Duplicate | Full

  function Max(a: nat, b: nat): nat {
    if a >= b then a else b
  }

  /** Those of `slots` that satisfy `keep`. */
  function Retain(slots: seq<Slot>, keep: Slot -> bool): seq<Slot> {
    if slots == [] then []
    else if keep(slots[0]) then [slots[0]] + Retain(slots[1..], keep)
    else Retain(slots[1..], keep)
  }

  function KeySound(s: Slots, len: nat, now: Time): Slots {
    s.(keyEnd := Some(match s.keyEnd case Some(k) => Max(k, now + len) case None => now + len))
  }

  /** The earliest start for what is scheduled at `now`. */
  function Floor(s: Slots, now: Time): Time {
    if s.keyEnd.Some? && s.keyEnd.value + AFTER_KEY > now then s.keyEnd.value + AFTER_KEY else now
  }

  function Admit(s: Slots, e: Earcon, len: nat, now: Time): (Slots, Verdict) {
    var live := Retain(s.slots, (x: Slot) => x.end > now);
    var floor := Floor(s, now);
    if live == [] then (s.(slots := [Slot(e, floor, floor + len)]), Starts(floor))
    else
      var last := live[|live| - 1];
      if last.earcon == e then (s.(slots := live), Duplicate)
      else if |live| >= MAX then (s.(slots := live), Full)
      else
        var start := Max(last.end + GAP, floor);
        (s.(slots := live + [Slot(e, start, start + len)]), Starts(start))
  }

  function DropWaiting(s: Slots, now: Time): Slots {
    s.(slots := Retain(s.slots, (x: Slot) => x.start <= now))
  }

  function QuietAt(s: Slots, now: Time): Time {
    if s.slots == [] then Floor(s, now)
    else Max(s.slots[|s.slots| - 1].end + GAP, Floor(s, now))
  }

  // ---- The class ----------------------------------------------------------

  class Schedule {
    var slots: seq<Slot>
    var keyEnd: Option<Time>

    function View(): Slots
      reads this
    {
      Slots(slots, keyEnd)
    }

    constructor ()
      ensures View() == Slots([], None)
    {
      slots, keyEnd := [], None;
    }

    method PlayKey(len: nat, now: Time)
      modifies this
      ensures View() == KeySound(old(View()), len, now)
    {
      var end := now + len;
      if keyEnd.Some? && keyEnd.value > end {
        end := keyEnd.value;
      }
      keyEnd := Some(end);
    }

    method Earliest(now: Time) returns (at: Time)
      ensures at == Floor(View(), now)
    {
      at := now;
      if keyEnd.Some? && keyEnd.value + AFTER_KEY > now {
        at := keyEnd.value + AFTER_KEY;
      }
    }

    method Schedule(e: Earcon, len: nat, now: Time) returns (v: Verdict)
      modifies this
      ensures (View(), v) == Admit(old(View()), e, len, now)
    {
      slots := Retain(slots, (x: Slot) => x.end > now);
      var floor := Earliest(now);
      if slots != [] {
        var last := slots[|slots| - 1];
        if last.earcon == e {
          return Duplicate;
        }
        if |slots| >= MAX {
          return Full;
        }
        var start := Max(last.end + GAP, floor);
        slots := slots + [Slot(e, start, start + len)];
        return Starts(start);
      }
      slots := [Slot(e, floor, floor + len)];
      return Starts(floor);
    }

    method DropNotStarted(now: Time)
      modifies this
      ensures View() == DropWaiting(old(View()), now)
    {
      slots := Retain(slots, (x: Slot) => x.start <= now);
    }

    method Quiet(now: Time) returns (at: Time)
      ensures at == QuietAt(View(), now)
    {
      at := Earliest(now);
      if slots != [] {
        at := Max(slots[|slots| - 1].end + GAP, at);
      }
    }
  }

  // ---- Runs ---------------------------------------------------------------

  datatype Call = Key(len: nat) | Want(earcon: Earcon, len: nat) | Mute

  // A schedule with its past: what was admitted, ended and left the schedule, in order, and the
  // instant of the last call. What a mute drops is in neither.
  datatype World = World(s: Slots, past: seq<Slot>, now: Time)

  function Step(w: World, c: Call, now: Time): World {
    match c
    case Key(len) => World(KeySound(w.s, len, now), w.past, now)
    case Want(e, len) =>
      World(Admit(w.s, e, len, now).0, w.past + Retain(w.s.slots, (x: Slot) => x.end <= now), now)
    case Mute => World(DropWaiting(w.s, now), w.past, now)
  }

  ghost predicate Within(c: Call, maxKey: nat, maxLen: nat) {
    match c
    case Key(len) => len <= maxKey
    case Want(_, len) => len <= maxLen
    case Mute => true
  }

  function Run(w: World, calls: seq<(Call, nat)>): World
    decreases |calls|
  {
    if calls == [] then w else
      Run(Step(w, calls[0].0, w.now + calls[0].1), calls[1..])
  }

  const START := World(Slots([], None), [], 0)

  /** Each slot `GAP` behind the one before it, neighbours different. */
  ghost predicate Linked(slots: seq<Slot>) {
    && (forall i :: 0 <= i < |slots| ==> slots[i].start <= slots[i].end)
    && (forall i :: 0 < i < |slots| ==> slots[i - 1].end + GAP <= slots[i].start)
    && (forall i :: 0 < i < |slots| ==> slots[i - 1].earcon != slots[i].earcon)
  }

  /** No slot starts later than right behind the one before it, or than `bound`. */
  ghost predicate Prompt(slots: seq<Slot>, bound: nat, maxLen: nat) {
    && (forall i :: 0 <= i < |slots| ==> slots[i].end <= slots[i].start + maxLen)
    && (slots != [] ==> slots[0].start <= bound)
    && (forall i :: 0 < i < |slots| ==> slots[i].start <= Max(slots[i - 1].end + GAP, bound))
  }

  ghost predicate Ordered(history: seq<Slot>) {
    forall i, j :: 0 <= i < j < |history| ==> history[i].end <= history[j].start
  }

  ghost predicate Before(past: seq<Slot>, slots: seq<Slot>) {
    forall i, j :: 0 <= i < |past| && 0 <= j < |slots| ==> past[i].end <= slots[j].start
  }

  ghost predicate Over(past: seq<Slot>, now: Time) {
    forall i :: 0 <= i < |past| ==> past[i].end <= now
  }

  /** What holds between calls. */
  ghost predicate Good(w: World, maxKey: nat, maxLen: nat) {
    && |w.s.slots| <= MAX
    && Linked(w.s.slots)
    && Prompt(w.s.slots, w.now + maxKey + AFTER_KEY, maxLen)
    && Ordered(w.past) && Over(w.past, w.now) && Before(w.past, w.s.slots)
    && (w.s.keyEnd.Some? ==> w.s.keyEnd.value <= w.now + maxKey)
  }

  // ---- Retaining a linked schedule cuts off one end -------------------------

  lemma {:induction false} LinkedRises(slots: seq<Slot>, i: nat, j: nat)
    requires Linked(slots) && i <= j < |slots|
    ensures slots[i].start <= slots[j].start && slots[i].end <= slots[j].end
    ensures i < j ==> slots[i].end <= slots[j].start
    decreases j
  {
    if i < j {
      LinkedRises(slots, i, j - 1);
    }
  }

  lemma {:induction false} RetainAll(slots: seq<Slot>, keep: Slot -> bool)
    requires forall i :: 0 <= i < |slots| ==> keep(slots[i])
    ensures Retain(slots, keep) == slots
  {
    if slots != [] {
      RetainAll(slots[1..], keep);
    }
  }

  lemma {:induction false} RetainNone(slots: seq<Slot>, keep: Slot -> bool)
    requires forall i :: 0 <= i < |slots| ==> !keep(slots[i])
    ensures Retain(slots, keep) == []
  {
    if slots != [] {
      RetainNone(slots[1..], keep);
    }
  }

  lemma {:induction false} RetainBoth(a: seq<Slot>, b: seq<Slot>, keep: Slot -> bool)
    ensures Retain(a + b, keep) == Retain(a, keep) + Retain(b, keep)
  {
    if a == [] {
      assert a + b == b;
    } else {
      assert (a + b)[1..] == a[1..] + b;
      RetainBoth(a[1..], b, keep);
    }
  }

  /** How many at the front of a linked schedule have ended. */
  lemma {:induction false} Ended(slots: seq<Slot>, now: Time) returns (k: nat)
    requires Linked(slots)
    ensures k <= |slots|
    ensures forall i :: 0 <= i < k ==> slots[i].end <= now
    ensures forall i :: k <= i < |slots| ==> slots[i].end > now
  {
    k := 0;
    while k < |slots| && slots[k].end <= now
      invariant k <= |slots| && forall i :: 0 <= i < k ==> slots[i].end <= now
    {
      k := k + 1;
    }
    forall i | k <= i < |slots| ensures slots[i].end > now {
      LinkedRises(slots, k, i);
    }
  }

  lemma {:induction false} LiveAndOver(slots: seq<Slot>, now: Time) returns (k: nat)
    requires Linked(slots)
    ensures k <= |slots|
    ensures Retain(slots, (x: Slot) => x.end > now) == slots[k..]
    ensures Retain(slots, (x: Slot) => x.end <= now) == slots[..k]
    ensures Over(slots[..k], now)
  {
    k := Ended(slots, now);
    RetainBack(slots, k, (x: Slot) => x.end > now);
    RetainFront(slots, k, (x: Slot) => x.end <= now);
  }

  lemma {:induction false} Started(slots: seq<Slot>, now: Time) returns (k: nat)
    requires Linked(slots)
    ensures k <= |slots| && Retain(slots, (x: Slot) => x.start <= now) == slots[..k]
  {
    k := 0;
    while k < |slots| && slots[k].start <= now
      invariant k <= |slots| && forall i :: 0 <= i < k ==> slots[i].start <= now
    {
      k := k + 1;
    }
    forall i | k <= i < |slots| ensures slots[i].start > now {
      LinkedRises(slots, k, i);
    }
    RetainFront(slots, k, (x: Slot) => x.start <= now);
  }

  lemma {:induction false} RetainFront(slots: seq<Slot>, k: nat, keep: Slot -> bool)
    requires k <= |slots|
    requires forall i :: 0 <= i < k ==> keep(slots[i])
    requires forall i :: k <= i < |slots| ==> !keep(slots[i])
    ensures Retain(slots, keep) == slots[..k]
  {
    assert slots == slots[..k] + slots[k..];
    RetainBoth(slots[..k], slots[k..], keep);
    RetainAll(slots[..k], keep);
    RetainNone(slots[k..], keep);
  }

  lemma {:induction false} RetainBack(slots: seq<Slot>, k: nat, keep: Slot -> bool)
    requires k <= |slots|
    requires forall i :: 0 <= i < k ==> !keep(slots[i])
    requires forall i :: k <= i < |slots| ==> keep(slots[i])
    ensures Retain(slots, keep) == slots[k..]
  {
    assert slots == slots[..k] + slots[k..];
    RetainBoth(slots[..k], slots[k..], keep);
    RetainNone(slots[..k], keep);
    RetainAll(slots[k..], keep);
  }

  // ---- Each call keeps it all ----------------------------------------------

  lemma {:induction false} PromptSuffix(slots: seq<Slot>, bound: nat, maxLen: nat, k: nat, now: Time)
    requires Prompt(slots, bound, maxLen) && k <= |slots| && now + GAP <= bound
    requires Over(slots[..k], now)
    ensures Prompt(slots[k..], bound, maxLen)
  {
    if 0 < k < |slots| {
      assert slots[..k][k - 1] == slots[k - 1];
      assert slots[k].start <= bound;
    }
    forall i | 0 < i < |slots[k..]|
      ensures slots[k..][i].start <= Max(slots[k..][i - 1].end + GAP, bound)
    {
      assert slots[k..][i] == slots[k + i] && slots[k..][i - 1] == slots[k + i - 1];
    }
  }

  /** The start of the slot in place `i` is within its share of the burst. */
  lemma {:induction false} PromptBound(slots: seq<Slot>, bound: nat, maxLen: nat, i: nat)
    requires Prompt(slots, bound, maxLen) && i < |slots|
    ensures slots[i].start <= bound + i * (maxLen + GAP)
  {
    if i > 0 {
      PromptBound(slots, bound, maxLen, i - 1);
      assert i * (maxLen + GAP) == (i - 1) * (maxLen + GAP) + (maxLen + GAP);
    }
  }

  lemma {:induction false} WithinTheBurst(slots: seq<Slot>, bound: nat, maxLen: nat, i: nat)
    requires Prompt(slots, bound, maxLen) && i < |slots| && i < MAX
    ensures slots[i].start <= bound + (MAX - 1) * (maxLen + GAP)
  {
    hide Prompt;
    PromptBound(slots, bound, maxLen, i);
    assert i * (maxLen + GAP) <= (MAX - 1) * (maxLen + GAP);
  }

  lemma {:induction false} LinkedSuffix(slots: seq<Slot>, k: nat)
    requires Linked(slots) && k <= |slots|
    ensures Linked(slots[k..])
  {
    forall i | 0 < i < |slots[k..]|
      ensures slots[k..][i - 1].end + GAP <= slots[k..][i].start
      ensures slots[k..][i - 1].earcon != slots[k..][i].earcon
    {
      assert slots[k..][i] == slots[k + i] && slots[k..][i - 1] == slots[k + i - 1];
    }
  }

  /** What has ended goes from the schedule to the past. */
  lemma {:induction false} PastGrows(past: seq<Slot>, slots: seq<Slot>, k: nat, before: Time, now: Time)
    requires before <= now && Ordered(past) && Over(past, before) && Before(past, slots) && Linked(slots)
    requires k <= |slots| && Over(slots[..k], now)
    ensures Ordered(past + slots[..k]) && Over(past + slots[..k], now)
    ensures Before(past + slots[..k], slots[k..])
  {
    forall i, j | 0 <= i < j < |slots| ensures slots[i].end <= slots[j].start {
      LinkedRises(slots, i, j);
    }
    forall i, j | 0 <= i < |past + slots[..k]| && 0 <= j < |slots[k..]|
      ensures (past + slots[..k])[i].end <= slots[k..][j].start
    {
      assert slots[k..][j] == slots[k + j];
    }
  }

  /** One more slot behind the live ones. */
  lemma {:induction false} OneMore(live: seq<Slot>, slot: Slot, bound: nat, maxLen: nat)
    requires Linked(live) && Prompt(live, bound, maxLen)
    requires slot.start <= slot.end <= slot.start + maxLen
    requires live != [] ==> live[|live| - 1].end + GAP <= slot.start && live[|live| - 1].earcon != slot.earcon
    requires slot.start <= if live == [] then bound else Max(live[|live| - 1].end + GAP, bound)
    ensures Linked(live + [slot]) && Prompt(live + [slot], bound, maxLen)
  {
    var all := live + [slot];
    forall i | 0 <= i < |all|
      ensures all[i].start <= all[i].end <= all[i].start + maxLen
    {
      assert i < |live| ==> all[i] == live[i];
    }
    forall i | 0 < i < |all|
      ensures all[i - 1].end + GAP <= all[i].start <= Max(all[i - 1].end + GAP, bound)
      ensures all[i - 1].earcon != all[i].earcon
    {
      assert all[i - 1] == live[i - 1];
      assert i < |live| ==> all[i] == live[i];
    }
  }

  lemma {:induction false} OneMoreAfter(past: seq<Slot>, live: seq<Slot>, slot: Slot, now: Time)
    requires Before(past, live) && Over(past, now) && now <= slot.start
    ensures Before(past, live + [slot])
  {
  }

  lemma {:induction false} WantKeeps(w: World, e: Earcon, len: nat, now: Time, maxKey: nat, maxLen: nat)
    requires Good(w, maxKey, maxLen) && now >= w.now && len <= maxLen
    ensures Good(Step(w, Want(e, len), now), maxKey, maxLen)
    ensures var v := Admit(w.s, e, len, now).1;
            v.Starts? ==>
              && now <= v.at <= now + maxKey + AFTER_KEY + (MAX - 1) * (maxLen + GAP)
              && Admit(w.s, e, len, now).0.slots != []
              && Admit(w.s, e, len, now).0.slots[|Admit(w.s, e, len, now).0.slots| - 1] == Slot(e, v.at, v.at + len)
  {
    hide Linked, Prompt, Before, Ordered, Over, Retain;
    var bound := now + maxKey + AFTER_KEY;
    var slots := w.s.slots;
    PromptLater(slots, w.now + maxKey + AFTER_KEY, bound, maxLen);
    var k := LiveAndOver(slots, now);
    var live := slots[k..];
    PromptSuffix(slots, bound, maxLen, k, now);
    LinkedSuffix(slots, k);
    PastGrows(w.past, slots, k, w.now, now);
    var past := w.past + slots[..k];
    var (s', v) := Admit(w.s, e, len, now);
    if v.Starts? {
      var slot := Slot(e, v.at, v.at + len);
      assert s'.slots == live + [slot];
      OneMore(live, slot, bound, maxLen);
      OneMoreAfter(past, live, slot, now);
      WithinTheBurst(live + [slot], bound, maxLen, |live|);
    }
  }

  lemma {:induction false} PromptLater(slots: seq<Slot>, bound: nat, later: nat, maxLen: nat)
    requires Prompt(slots, bound, maxLen) && bound <= later
    ensures Prompt(slots, later, maxLen)
  {
  }

  lemma {:induction false} MuteKeeps(w: World, now: Time, maxKey: nat, maxLen: nat)
    requires Good(w, maxKey, maxLen) && now >= w.now
    ensures Good(Step(w, Mute, now), maxKey, maxLen)
  {
    hide Linked, Prompt, Before, Ordered, Retain;
    var bound := now + maxKey + AFTER_KEY;
    PromptLater(w.s.slots, w.now + maxKey + AFTER_KEY, bound, maxLen);
    var k := Started(w.s.slots, now);
    CutShort(w.past, w.s.slots, k, bound, maxLen);
  }

  lemma {:induction false} CutShort(past: seq<Slot>, slots: seq<Slot>, k: nat, bound: nat, maxLen: nat)
    requires Linked(slots) && Prompt(slots, bound, maxLen) && Before(past, slots) && k <= |slots|
    ensures Linked(slots[..k]) && Prompt(slots[..k], bound, maxLen) && Before(past, slots[..k])
  {
  }

  lemma {:induction false} StepKeeps(w: World, c: Call, now: Time, maxKey: nat, maxLen: nat)
    requires Good(w, maxKey, maxLen) && now >= w.now && Within(c, maxKey, maxLen)
    ensures Good(Step(w, c, now), maxKey, maxLen)
  {
    hide Linked, Prompt, Before, Ordered, Retain;
    match c
    case Key(_) => PromptLater(w.s.slots, w.now + maxKey + AFTER_KEY, now + maxKey + AFTER_KEY, maxLen);
    case Want(e, len) => WantKeeps(w, e, len, now, maxKey, maxLen);
    case Mute => MuteKeeps(w, now, maxKey, maxLen);
  }

  lemma {:induction false} RunStaysGood(w: World, calls: seq<(Call, nat)>, maxKey: nat, maxLen: nat)
    requires Good(w, maxKey, maxLen)
    requires forall i :: 0 <= i < |calls| ==> Within(calls[i].0, maxKey, maxLen)
    ensures Good(Run(w, calls), maxKey, maxLen)
    decreases |calls|
  {
    hide Good, Step;
    if calls != [] {
      StepKeeps(w, calls[0].0, w.now + calls[0].1, maxKey, maxLen);
      RunStaysGood(Step(w, calls[0].0, w.now + calls[0].1), calls[1..], maxKey, maxLen);
    }
  }

  /** Over every run with time going forward: what was admitted and not dropped never overlaps,
      what waits is `GAP` apart with different neighbours, at most `MAX` wait or play, and the next
      quiet instant lies behind all of it and behind the last key's sound. */
  lemma {:induction false} NeverOverlaps(calls: seq<(Call, nat)>, maxKey: nat, maxLen: nat, now: Time)
    requires forall i :: 0 <= i < |calls| ==> Within(calls[i].0, maxKey, maxLen)
    requires now >= Run(START, calls).now
    ensures var w := Run(START, calls);
            && Ordered(w.past + w.s.slots)
            && Linked(w.s.slots) && |w.s.slots| <= MAX
            && now <= QuietAt(w.s, now)
            && (w.s.keyEnd.Some? ==> w.s.keyEnd.value + AFTER_KEY <= Max(now, QuietAt(w.s, now)))
            && Over(w.past + w.s.slots, QuietAt(w.s, now))
  {
    assert Good(START, maxKey, maxLen);
    RunStaysGood(START, calls, maxKey, maxLen);
    hide Prompt, Run;
    var w := Run(START, calls);
    var slots := w.s.slots;
    forall i, j | 0 <= i < j < |slots| ensures slots[i].end <= slots[j].start {
      LinkedRises(slots, i, j);
    }
    forall i | 0 <= i < |slots| ensures slots[i].end + GAP <= QuietAt(w.s, now) {
      LinkedRises(slots, i, |slots| - 1);
    }
  }

  /** However busy, an earcon that is admitted starts soon. */
  lemma {:induction false} AdmittedStartsSoon(calls: seq<(Call, nat)>, e: Earcon, len: nat, maxKey: nat, maxLen: nat,
      now: Time)
    requires forall i :: 0 <= i < |calls| ==> Within(calls[i].0, maxKey, maxLen)
    requires now >= Run(START, calls).now && len <= maxLen
    ensures var v := Admit(Run(START, calls).s, e, len, now).1;
            v.Starts? ==> now <= v.at <= now + maxKey + AFTER_KEY + (MAX - 1) * (maxLen + GAP)
  {
    assert Good(START, maxKey, maxLen);
    RunStaysGood(START, calls, maxKey, maxLen);
    hide Good, Run;
    WantKeeps(Run(START, calls), e, len, now, maxKey, maxLen);
  }

  // ---- When an earcon is admitted --------------------------------------------

  /** Those of `slots` that have not ended. */
  ghost predicate LiveOnes(slots: seq<Slot>, live: seq<Slot>, now: Time) {
    exists k :: 0 <= k <= |slots| && live == slots[k..] && Over(slots[..k], now)
                && forall i :: 0 <= i < |live| ==> live[i].end > now
  }

  /** What has ended leaves the schedule. The earcon is refused only as a repeat of the last live one, or with `MAX`
      live; else it takes the last slot, and starts at once unless a live slot or the last key's sound is in the
      way: then right after both. */
  lemma {:induction false} AdmittedUnless(w: World, e: Earcon, len: nat, now: Time, maxKey: nat, maxLen: nat)
    returns (live: seq<Slot>)
    requires Good(w, maxKey, maxLen)
    ensures LiveOnes(w.s.slots, live, now)
    ensures var (s', v) := Admit(w.s, e, len, now);
            var busy := live != [] && live[|live| - 1].earcon == e;
            var quiet := if w.s.keyEnd.Some? then w.s.keyEnd.value + AFTER_KEY else 0;
            && s'.keyEnd == w.s.keyEnd
            && (v == Duplicate <==> busy)
            && (v == Full <==> !busy && |live| >= MAX)
            && (!v.Starts? ==> s'.slots == live)
            && (v.Starts? ==>
                  && s'.slots == live + [Slot(e, v.at, v.at + len)]
                  && now <= v.at && quiet <= v.at && (live != [] ==> live[|live| - 1].end + GAP <= v.at)
                  && (v.at == now || v.at == quiet || (live != [] && v.at == live[|live| - 1].end + GAP)))
  {
    hide Linked, Prompt, Before, Ordered, Retain;
    var k := Ended(w.s.slots, now);
    live := w.s.slots[k..];
    RetainBack(w.s.slots, k, (x: Slot) => x.end > now);
  }
}
