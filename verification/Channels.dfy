/** One channel as an object whose fields the router changes in place. */
module Channels {
  import opened Options
  import opened RouterModel
  import opened RouterInvariants

  class Channel {
    var title: Option<string>
    var hostTab: Option<string>
    var policy: Policy
    var entries: seq<Entry>
    var cursor: nat
    var gen: nat
    var replaying: bool
    var muted: bool
    var growing: bool
    var decisions: map<nat, bool>
    var agent: bool
    var aside: set<nat>

    function View(): Chan
      reads this
    {
      Chan(title, hostTab, policy, entries, cursor, gen, replaying, muted, growing, decisions, agent, aside)
    }

    constructor (title: Option<string>, hostTab: Option<string>, policy: Policy, muted: bool)
      ensures View() == Fresh(title, hostTab, policy, muted)
    {
      this.title, this.hostTab, this.policy, this.muted := title, hostTab, policy, muted;
      entries, cursor, gen, replaying, growing := [], 0, 0, false, false;
      decisions, agent, aside := map[], false, {};
    }

    /** The client describes the channel again. */
    method Describe(title: Option<string>, hostTab: Option<string>, policy: Option<Policy>)
      modifies this
      ensures View() == old(View()).(title := title, hostTab := hostTab,
                                     policy := if policy.Some? then policy.value else old(this.policy))
    {
      this.title := title;
      this.hostTab := hostTab;
      if policy.Some? {
        this.policy := policy.value;
      }
    }

    method Push(e: Entry, replace: bool, front: bool, reading: bool)
      modifies this
      ensures View() == PushEntry(old(View()), e, replace, front, reading)
    {
      if replace || (CaughtUp(View()) && !reading && !growing) {
        entries, decisions, aside, cursor := [], map[], {}, 0;
      }
      var at := if front && cursor <= |entries| then cursor else |entries|;
      entries := entries[..at] + [e] + entries[at..];
      gen := gen + 1;
      replaying := false;
    }

    /** The entry just added is the agent's: a decision or not, and read already (`end`) or not. */
    method Mark(entry: nat, decision: bool, heard: bool, end: bool)
      modifies this`growing, this`agent, this`decisions, this`cursor
      ensures View() == old(View()).(growing := true, agent := true,
                                     decisions := if decision then old(decisions)[entry := heard] else old(decisions),
                                     cursor := if end then |entries| else old(cursor))
    {
      growing := true;
      agent := true;
      if decision {
        decisions := decisions[entry := heard];
      }
      if end {
        cursor := |entries|;
      }
    }

    /** Read from place `at` on; `replay`: as a replay. */
    method ReadFrom(at: nat, replay: bool)
      modifies this`cursor, this`replaying
      ensures View() == old(View()).(cursor := at, replaying := replay || old(replaying))
    {
      cursor := at;
      if replay {
        replaying := true;
      }
    }

    method Take() returns (e: Option<Entry>)
      modifies this`cursor
      ensures (View(), e) == TakeEntry(old(View()))
    {
      while cursor < |entries| && entries[cursor].id in aside
        invariant SkipAside(entries, cursor, aside) == SkipAside(old(entries), old(cursor), old(aside))
        decreases |entries| - cursor
      {
        cursor := cursor + 1;
      }
      if cursor < |entries| {
        e := Some(entries[cursor]);
        cursor := cursor + 1;
      } else {
        e := None;
      }
    }

    method ToEnd() returns (n: nat)
      modifies this`cursor
      ensures (View(), n) == SkipToEnd(old(View()))
    {
      n := Pending(View());
      cursor := |entries|;
    }

    method Rewind(entry: nat) returns (ok: bool)
      modifies this`cursor
      ensures (View(), ok) == StepBack(old(View()), entry)
    {
      ok := 0 < cursor <= |entries| && entries[cursor - 1].id == entry;
      if ok {
        cursor := cursor - 1;
      }
    }

    /** Take out the entry at `i`, a decision. */
    method Remove(i: nat) returns (e: Entry)
      requires i < |entries|
      modifies this`entries, this`decisions, this`aside
      ensures e == old(entries)[i] && entries == old(entries)[..i] + old(entries)[i + 1..]
      ensures decisions == old(decisions) - {e.id} && aside == old(aside) - {e.id}
    {
      e := entries[i];
      decisions := decisions - {e.id};
      aside := aside - {e.id};
      entries := entries[..i] + entries[i + 1..];
    }

    /** Walk the batch; each decision named leaves it, the cursor staying between read and unread. */
    method Drop(which: Resolved) returns (unread: seq<Entry>)
      requires cursor <= |entries| && Unique(entries)
      modifies this`entries, this`cursor, this`decisions, this`aside
      ensures (View(), unread) == DropThe(old(View()), which)
    {
      hide Dropped, Gone, DropThe, Unique, Goes;
      unread := [];
      var i := 0;
      ghost var k, c := 0, View();
      DropStart(c, which);
      while i < |entries|
        invariant k <= |c.entries| && |entries| - i == |c.entries| - k
        invariant (entries, i, cursor, unread) == Dropped(c, which, k)
        invariant decisions == c.decisions - Gone(c, which, k) && aside == c.aside - Gone(c, which, k)
        decreases |entries| - i
      {
        DropAt(c, which, k);
        GoneNext(c, which, k);
        GoesStill(c, View(), entries[i].id, i < cursor, which);
        if Goes(View(), entries[i].id, i < cursor, which) {
          DropGoes(c, which, k);
          var before := i < cursor;
          var e := Remove(i);
          if before {
            cursor := cursor - 1;
          } else {
            unread := unread + [e];
          }
        } else {
          DropStays(c, which, k);
          i := i + 1;
        }
        k := k + 1;
      }
      DropEnd(c, which);
    }
  }

  lemma {:induction false} GoesStill(c: Chan, c': Chan, id: nat, before: bool, which: Resolved)
    requires (id in c'.decisions <==> id in c.decisions) && (id in c.decisions ==> c'.decisions[id] == c.decisions[id])
    ensures Goes(c', id, before, which) <==> Goes(c, id, before, which)
  {
  }

  /** The entries of the batch before place `k` that stay (or go). */
  ghost function Passed(c: Chan, which: Resolved, k: nat, gone: bool): (seq<Entry>, seq<Entry>)
    requires c.cursor <= |c.entries| && k <= |c.entries|
  {
    if k <= c.cursor then (Those(c, c.entries[..k], true, which, gone), [])
    else (Those(c, c.entries[..c.cursor], true, which, gone), Those(c, c.entries[c.cursor..k], false, which, gone))
  }

  /** The walk at place `k` of the old batch: the batch, the place in it, the cursor, the unread taken out. */
  ghost function Dropped(c: Chan, which: Resolved, k: nat): (seq<Entry>, nat, nat, seq<Entry>)
    requires c.cursor <= |c.entries| && k <= |c.entries|
  {
    var (read, ahead) := Passed(c, which, k, false);
    (read + ahead + c.entries[k..], |read| + |ahead|, |read| + (if k <= c.cursor then c.cursor - k else 0),
     Passed(c, which, k, true).1)
  }

  ghost function Gone(c: Chan, which: Resolved, k: nat): set<nat>
    requires c.cursor <= |c.entries| && k <= |c.entries|
  {
    EntryIds(Passed(c, which, k, true).0) + EntryIds(Passed(c, which, k, true).1)
  }

  /** One more entry passed. */
  lemma {:induction false} PassNext(c: Chan, which: Resolved, k: nat, gone: bool)
    requires c.cursor <= |c.entries| && k < |c.entries|
    ensures var e, before := c.entries[k], k < c.cursor;
            var (read, ahead) := Passed(c, which, k, gone);
            var more := if Goes(c, e.id, before, which) == gone then [e] else [];
            Passed(c, which, k + 1, gone) == if before then (read + more, ahead) else (read, ahead + more)
  {
    if k < c.cursor {
      assert c.entries[..k + 1] == c.entries[..k] + [c.entries[k]];
      ThoseSnoc(c, c.entries[..k], c.entries[k], true, which, gone);
    } else {
      assert c.entries[c.cursor..k + 1] == c.entries[c.cursor..k] + [c.entries[k]];
      ThoseSnoc(c, c.entries[c.cursor..k], c.entries[k], false, which, gone);
    }
  }

  lemma {:induction false} DropStart(c: Chan, which: Resolved)
    requires c.cursor <= |c.entries|
    ensures Dropped(c, which, 0) == (c.entries, 0, c.cursor, []) && Gone(c, which, 0) == {}
  {
    assert c.entries[..0] == [] && [] + [] + c.entries[0..] == c.entries;
  }

  /** Where the walk is: at entry `k`, before the cursor exactly if the entry was read. */
  lemma {:induction false} DropAt(c: Chan, which: Resolved, k: nat)
    requires c.cursor <= |c.entries| && k < |c.entries| && Unique(c.entries)
    ensures var (entries, i, cursor, _) := Dropped(c, which, k);
            && i < |entries| && entries[i] == c.entries[k] && (i < cursor <==>
                k < c.cursor) && c.entries[k].id !in Gone(c, which, k)
  {
    hide Goes, Those, Passed, Unique, Gone;
    PassedEarlier(c, which, k);
    PassedRead(c, which, k, false);
  }

  /** An entry that stays is stepped over. */
  lemma {:induction false} DropStays(c: Chan, which: Resolved, k: nat)
    requires c.cursor <= |c.entries| && k < |c.entries| && !Goes(c, c.entries[k].id, k < c.cursor, which)
    ensures var (entries, i, cursor, unread) := Dropped(c, which, k);
            Dropped(c, which, k + 1) == (entries, i + 1, cursor, unread)
  {
    hide Goes, Those, Passed;
    PassNext(c, which, k, false);
    PassNext(c, which, k, true);
    PassedRead(c, which, k, false);
    var (read, ahead) := Passed(c, which, k, false);
    var (_, unread) := Passed(c, which, k, true);
    var e, rest := c.entries[k], c.entries[k + 1..];
    assert c.entries[k..] == [e] + rest && unread + [] == unread;
    if k < c.cursor {
      assert read + [e] + [] + rest == read + [] + ([e] + rest);
    } else {
      assert read + (ahead + [e]) + rest == read + ahead + ([e] + rest);
    }
  }

  /** A decision named leaves. */
  lemma {:induction false} DropGoes(c: Chan, which: Resolved, k: nat)
    requires c.cursor <= |c.entries| && k < |c.entries| && Goes(c, c.entries[k].id, k < c.cursor, which)
    ensures var (entries, i, cursor, unread) := Dropped(c, which, k);
            var before := k < c.cursor;
            && i < |entries| && (before ==> cursor > 0)
            && Dropped(c, which, k + 1) == (entries[..i] + entries[i + 1..], i, if before then cursor - 1 else cursor,
                                            if before then unread else unread + [c.entries[k]])
  {
    hide Goes, Those, Passed;
    PassNext(c, which, k, false);
    PassNext(c, which, k, true);
    PassedRead(c, which, k, false);
    var (read, ahead) := Passed(c, which, k, false);
    assert c.entries[k..] == [c.entries[k]] + c.entries[k + 1..];
    SplitAt(read + ahead, c.entries[k], c.entries[k + 1..]);
    assert read + [] == read && ahead + [] == ahead;
  }

  lemma {:induction false} PassedRead(c: Chan, which: Resolved, k: nat, gone: bool)
    requires c.cursor <= |c.entries| && k <= |c.entries|
    ensures k <= c.cursor ==> Passed(c, which, k, gone).1 == []
  {
  }

  lemma {:induction false} SplitAt(s: seq<Entry>, e: Entry, t: seq<Entry>)
    ensures var all := s + ([e] + t); all[|s|] == e && all[..|s|] + all[|s| + 1..] == s + t
  {
  }

  lemma {:induction false} GoneNext(c: Chan, which: Resolved, k: nat)
    requires c.cursor <= |c.entries| && k < |c.entries|
    ensures var e := c.entries[k];
            Gone(c, which, k + 1) == Gone(c, which, k) + (if Goes(c, e.id, k < c.cursor, which) then {e.id} else {})
  {
    hide Goes, Those, Passed;
    PassNext(c, which, k, true);
    IdsAdd(Passed(c, which, k, true).0, c.entries[k]);
    IdsAdd(Passed(c, which, k, true).1, c.entries[k]);
  }

  lemma {:induction false} IdsAdd(s: seq<Entry>, e: Entry)
    ensures EntryIds(s + [e]) == EntryIds(s) + {e.id} && s + [] == s
  {
    forall id | id in EntryIds(s) ensures id in EntryIds(s + [e]) {
      var x :| x in s && x.id == id;
      assert x in s + [e];
    }
    assert e in s + [e];
  }

  /** What was passed is of earlier entries. */
  lemma {:induction false} PassedEarlier(c: Chan, which: Resolved, k: nat)
    requires c.cursor <= |c.entries| && k < |c.entries| && Unique(c.entries)
    ensures c.entries[k].id !in Gone(c, which, k)
  {
    hide Those, Goes;
    if k <= c.cursor {
      ThoseAre(c, c.entries[..k], true, which, true);
    } else {
      ThoseAre(c, c.entries[..c.cursor], true, which, true);
      ThoseAre(c, c.entries[c.cursor..k], false, which, true);
    }
  }

  lemma {:induction false} PassedAll(c: Chan, which: Resolved, gone: bool)
    requires c.cursor <= |c.entries|
    ensures Passed(c, which, |c.entries|, gone)
         == (Those(c, c.entries[..c.cursor], true, which, gone), Those(c, c.entries[c.cursor..], false, which, gone))
  {
    hide Goes;
    assert c.entries[c.cursor..|c.entries|] == c.entries[c.cursor..];
  }

  lemma {:induction false} DropEnd(c: Chan, which: Resolved)
    requires c.cursor <= |c.entries|
    ensures var (entries, _, cursor, unread) := Dropped(c, which, |c.entries|);
            DropThe(c, which) == (c.(entries := entries, cursor := cursor,
                decisions := c.decisions - Gone(c, which, |c.entries|),
                                     aside := c.aside - Gone(c, which, |c.entries|)), unread)
  {
    hide Those, Goes, Passed;
    PassedAll(c, which, false);
    PassedAll(c, which, true);
    var stay := Those(c, c.entries[..c.cursor], true, which, false)
        + Those(c, c.entries[c.cursor..], false, which, false);
    assert stay + c.entries[|c.entries|..] == stay;
  }
}
