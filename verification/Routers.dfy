/** The router as an object: channels are objects too, and every method changes fields in place. */
module Routers {
  import opened Options
  import opened RouterModel
  import opened RouterInvariants
  import opened RouterFeeding
  import opened Channels

  lemma {:induction false} CloseSays(r: RouterModel.Router, id: Id)
    ensures RouterModel.Close(r, id).1 <==> id in r.chans
    ensures id !in r.chans ==> RouterModel.Close(r, id).0 == r
  {
  }

  class Router {
    var order: seq<Id>
    var channels: map<Id, Channel>
    var nextEntry: nat
    var active: Option<Id>
    var lastActive: Option<Id>
    var lastReader: Option<Id>
    var closedReaderTab: Option<string>
    var focus: Option<Id>
    var announce: Option<Switch>
    var reading: Option<(Id, nat)>
    var suppressed: map<Id, nat>
    var priority: seq<Id>
    var hold: Option<(Id, nat)>
    var muted: set<Id>
    var focusOnly: bool
    var authorized: set<Id>

    function Chans(): map<Id, Chan>
      reads `channels, channels.Values
    {
      map id | id in channels :: channels[id].View()
    }

    function View(): RouterModel.Router
      reads this, channels.Values
    {
      RouterModel.Router(order, Chans(), nextEntry, active, lastActive, lastReader, closedReaderTab, focus, announce,
          reading,
                         suppressed, priority, hold, muted, focusOnly, authorized)
    }

    /** No two ids share a channel object. What the fields keep besides is the joint invariant `Inv`
        of `View`: each method is an operation of `RouterInvariants.Step`, and `StepKeeps` is about those. */
    ghost predicate Valid()
      reads `channels
    {
      forall x, y :: x in channels && y in channels && x != y ==> channels[x] != channels[y]
    }

    constructor ()
      ensures Valid() && View() == EMPTY && channels == map[]
    {
      order, channels, nextEntry := [], map[], 0;
      active, lastActive, lastReader, closedReaderTab, focus := None, None, None, None, None;
      announce, reading, suppressed, priority, hold := None, None, map[], [], None;
      muted, focusOnly, authorized := {}, false, {};
      new;
      assert Chans() == map[];
    }

    lemma {:induction false} At(id: Id)
      ensures id in Chans() <==> id in channels
      ensures id in channels ==> Chans()[id] == channels[id].View()
    {
    }

    lemma {:induction false} AtView(id: Id)
      ensures id in View().chans <==> id in channels
      ensures id in channels ==> View().chans[id] == channels[id].View()
    {
    }

    lemma {:induction false} Fields()
      ensures View().active == active && View().lastActive == lastActive && View().focus == focus
          && View().order == order
      ensures View().muted == muted
    {
    }

    /** Only channel `id` changed. */
    twostate lemma OneChanged(id: Id)
      requires channels == old(channels) && Valid() && id in channels
      requires forall x :: x in channels && x != id ==> unchanged(channels[x])
      ensures Chans() == old(Chans())[id := channels[id].View()]
    {
    }

    twostate lemma NoneChanged()
      requires channels == old(channels) && forall x :: x in channels ==> unchanged(channels[x])
      ensures Chans() == old(Chans())
    {
    }

    // ---- Opening and closing -------------------------------------------------

    /** Add a channel. */
    method Add(id: Id, c: Channel)
      requires id !in channels
      modifies this`order, this`channels
      ensures order == old(order) + [id] && channels == old(channels)[id := c]
          && Chans() == old(Chans())[id := c.View()]
    {
      order := order + [id];
      channels := channels[id := c];
    }

    method Open(id: Id, title: Option<string>, hostTab: Option<string>, policy: Option<Policy>) returns (created: bool)
      requires Valid()
      modifies this`order, this`channels, channels.Values
      ensures Valid() && (View(), created) == RouterModel.Open(old(View()), id, title, hostTab, policy)
      ensures forall x :: x in channels ==>
                (x in old(channels) && channels[x] == old(channels[x])) || fresh(channels[x])
    {
      At(id);
      hide Chans;
      if id in channels {
        channels[id].Describe(title, hostTab, policy);
        created := false;
        OneChanged(id);
      } else {
        var c := new Channel(title, hostTab, if policy.Some? then policy.value else Latest, id in muted);
        NoneChanged();
        Add(id, c);
        created := true;
      }
    }

    method LabelIfMissing(id: Id, title: string) returns (named: bool)
      requires Valid()
      modifies channels.Values
      ensures Valid() && (View(), named) == RouterModel.LabelIfMissing(old(View()), id, title)
    {
      At(id);
      hide Chans;
      named := title != "" && id in channels && (channels[id].title == None || channels[id].title == Some(""));
      if named {
        channels[id].title := Some(title);
        OneChanged(id);
      } else {
        NoneChanged();
      }
    }

    method SetReader(id: Id)
      modifies this`active, this`lastActive, this`lastReader, this`closedReaderTab
      ensures active == lastActive == lastReader == Some(id) && closedReaderTab == None
    {
      active, lastActive, lastReader, closedReaderTab := Some(id), Some(id), Some(id), None;
    }

    /** Drop an armed announcement. */
    method ClearAnnounce()
      modifies this`announce
      ensures View() == RouterModel.ClearAnnounce(old(View()))
    {
      announce := None;
    }

    method EndHold(id: Id)
      modifies this`hold
      ensures hold == if old(hold).Some? && old(hold).value.0 == id then None else old(hold)
    {
      if hold.Some? && hold.value.0 == id {
        hold := None;
      }
    }

    /** Take `id` out of the opening order and the open channels. */
    method Remove(id: Id)
      modifies this`order, this`channels
      ensures order == Without(old(order), id) && channels == old(channels) - {id} && Chans() == old(Chans()) - {id}
    {
      order := Without(order, id);
      channels := channels - {id};
    }

    /** Nothing names `id` as the reader, the focus or what is announced or read any more. */
    method Unname(id: Id, tab: Option<string>)
      modifies this`closedReaderTab, this`active, this`lastActive, this`focus, this`announce, this`reading
      ensures closedReaderTab == if lastReader == Some(id) then (if tab == Some("") then None else tab)
          else old(closedReaderTab)
      ensures active == Unless(old(active), id) && lastActive == Unless(old(lastActive), id)
          && focus == Unless(old(focus), id)
      ensures announce == if old(announce).Some? && old(announce).value.channel == id then None else old(announce)
      ensures reading == if old(reading).Some? && old(reading).value.0 == id then None else old(reading)
    {
      if lastReader == Some(id) {
        closedReaderTab := if tab == Some("") then None else tab;
      }
      active, lastActive, focus := Unless(active, id), Unless(lastActive, id), Unless(focus, id);
      announce := if announce.Some? && announce.value.channel == id then None else announce;
      reading := if reading.Some? && reading.value.0 == id then None else reading;
    }

    /** No list of channels holds `id` any more, and its hold ends. */
    method Unlist(id: Id)
      modifies this`suppressed, this`priority, this`authorized, this`hold
      ensures suppressed == old(suppressed) - {id} && priority == Without(old(priority), id)
          && authorized == old(authorized) - {id}
      ensures hold == if old(hold).Some? && old(hold).value.0 == id then None else old(hold)
    {
      suppressed := suppressed - {id};
      priority := Without(priority, id);
      authorized := authorized - {id};
      EndHold(id);
    }

    /** Forget everything about `id`. */
    method Forget(id: Id)
      requires id in channels
      modifies this
      ensures View() == RouterModel.Close(old(View()), id).0 && channels == old(channels) - {id}
    {
      At(id);
      hide Chans, Without, Unless;
      var tab := channels[id].hostTab;
      Remove(id);
      Unname(id, tab);
      Unlist(id);
    }

    method Close(id: Id) returns (closed: bool)
      requires Valid()
      modifies this
      ensures Valid() && (View(), closed) == RouterModel.Close(old(View()), id)
      ensures channels == old(channels) - {id}
    {
      At(id);
      CloseSays(View(), id);
      hide Chans, RouterModel.Close;
      closed := id in channels;
      if closed {
        Forget(id);
      }
    }

    // ---- Gates ---------------------------------------------------------------

    method Focus(id: Id) returns (ok: bool)
      requires Valid()
      modifies this`focus, this`authorized
      ensures Valid() && (View(), ok) == RouterModel.Focus(old(View()), id)
    {
      At(id);
      hide Chans, Ready;
      if id !in channels {
        return false;
      }
      if focus.Some? && focus.value != id && Ready(View(), focus.value) {
        authorized := authorized + {focus.value};
      }
      focus := Some(id);
      ok := true;
    }

    method SetMuted(id: Id, on: bool)
      requires Valid()
      modifies this`muted, this`hold, channels.Values
      ensures Valid() && View() == RouterModel.SetMuted(old(View()), id, on)
    {
      At(id);
      hide Chans;
      muted := if on then muted + {id} else muted - {id};
      if id in channels {
        channels[id].muted := on;
        OneChanged(id);
      } else {
        NoneChanged();
      }
      if on {
        EndHold(id);
      }
    }

    method SetFocusOnly(on: bool)
      requires Valid()
      modifies this`focusOnly
      ensures Valid() && View() == old(View()).(focusOnly := on)
    {
      hide Chans;
      focusOnly := on;
    }

    method Authorize(id: Id) returns (ok: bool)
      requires Valid()
      modifies this`authorized
      ensures Valid() && (View(), ok) == RouterModel.Authorize(old(View()), id)
    {
      At(id);
      hide Chans;
      ok := id in channels;
      if ok {
        authorized := authorized + {id};
      }
    }

    method Prioritize(id: Id) returns (ok: bool)
      requires Valid()
      modifies this`priority
      ensures Valid() && (View(), ok) == RouterModel.Prioritize(old(View()), id)
    {
      At(id);
      hide Chans;
      ok := id in channels;
      if ok && id !in priority {
        priority := priority + [id];
      }
    }

    // ---- Text ----------------------------------------------------------------

    method PushWith(id: Id, text: string, title: Option<string>, replace: bool, front: bool)
        returns (entry: Option<nat>)
      requires Valid()
      modifies this`nextEntry, channels.Values
      ensures Valid() && (View(), entry) == RouterModel.PushWith(old(View()), id, text, title, replace, front)
    {
      At(id);
      hide Chans, PushEntry;
      if id in channels {
        channels[id].Push(Entry(nextEntry + 1, text, title), replace, front, reading.Some? && reading.value.0 == id);
        nextEntry := nextEntry + 1;
        entry := Some(nextEntry);
        OneChanged(id);
      } else {
        entry := None;
      }
    }

    method Push(id: Id, text: string, title: Option<string>) returns (entry: Option<nat>)
      requires Valid()
      modifies this`nextEntry, channels.Values
      ensures Valid() && (View(), entry) == RouterModel.Push(old(View()), id, text, title)
    {
      At(id);
      hide Chans, RouterModel.PushWith;
      if id in channels {
        entry := PushWith(id, text, title, channels[id].policy.Latest?, false);
      } else {
        entry := None;
      }
    }

    method Append(id: Id, text: string, decision: bool, heard: bool) returns (entry: Option<nat>)
      requires Valid()
      modifies this`nextEntry, channels.Values
      ensures Valid() && (View(), entry) == RouterModel.Append(old(View()), id, text, decision, heard)
    {
      At(id);
      hide Chans, PushEntry, Pending;
      if id in channels {
        var c := channels[id];
        var unread := Pending(c.View()) > 0 || (reading.Some? && reading.value.0 == id);
        entry := PushWith(id, text, None, false, false);
        At(id);
        label Pushed:
        c.Mark(entry.value, decision, heard, heard && !unread);
        OneChanged@Pushed(id);
      } else {
        entry := None;
      }
    }

    method DropDecisions(id: Id, which: Resolved) returns (unread: seq<Entry>)
      requires Valid() && Inv(View())
      modifies channels.Values
      ensures Valid() && (View(), unread) == RouterModel.DropDecisions(old(View()), id, which)
    {
      At(id);
      if id in channels {
        BatchOk(View(), id);
      }
      hide Inv, Chans, DropThe, Unique;
      if id in channels {
        unread := channels[id].Drop(which);
        OneChanged(id);
      } else {
        unread := [];
      }
    }

    method EndBatch(id: Id)
      requires Valid()
      modifies channels.Values
      ensures Valid() && View() == RouterModel.EndBatch(old(View()), id)
    {
      At(id);
      hide Chans;
      if id in channels {
        channels[id].growing := false;
        OneChanged(id);
      }
    }

    method SetAside(id: Id, entry: nat, on: bool) returns (ok: bool)
      requires Valid()
      modifies channels.Values
      ensures Valid() && (View(), ok) == RouterModel.SetAside(old(View()), id, entry, on)
    {
      At(id);
      hide Chans;
      ok := id in channels && Where(channels[id].entries, entry) < |channels[id].entries|;
      if ok {
        var c := channels[id];
        c.aside := if on then c.aside + {entry} else c.aside - {entry};
        OneChanged(id);
      }
    }

    method Revise(id: Id, entry: nat, text: string) returns (ok: bool)
      requires Valid()
      modifies channels.Values
      ensures Valid() && (View(), ok) == RouterModel.Revise(old(View()), id, entry, text)
    {
      At(id);
      hide Chans;
      ok := id in channels && Where(channels[id].entries, entry) < |channels[id].entries|;
      if ok {
        var c := channels[id];
        var k := Where(c.entries, entry);
        c.entries := c.entries[k := c.entries[k].(text := text)];
        OneChanged(id);
      }
    }

    method Rewind(id: Id, entry: nat) returns (ok: bool)
      requires Valid()
      modifies channels.Values
      ensures Valid() && (View(), ok) == RouterModel.Rewind(old(View()), id, entry)
    {
      At(id);
      hide Chans, StepBack;
      if id in channels {
        ok := channels[id].Rewind(entry);
        OneChanged(id);
      } else {
        ok := false;
      }
    }

    // ---- Flushing ------------------------------------------------------------

    method Flush(id: Id) returns (n: nat)
      requires Valid()
      modifies this`announce, this`hold, channels.Values
      ensures Valid() && (View(), n) == FlushOne(old(View()), id)
    {
      At(id);
      hide Chans, SkipToEnd;
      if announce.Some? && announce.value.channel == id {
        announce := None;
      }
      EndHold(id);
      if id in channels {
        var c := channels[id];
        c.growing := false;
        n := c.ToEnd();
        OneChanged(id);
      } else {
        n := 0;
      }
    }

    /** Skip the next channel in order to its end. */
    method EndNext(ghost was: RouterModel.Router, k: nat) returns (n: nat)
      requires Valid() && k < |order| && order[k] in channels && order[k] in was.chans && order[k] !in order[..k]
      requires Chans() == Ended(was.chans, order[..k])
      modifies channels.Values
      ensures Chans() == Ended(was.chans, order[..k + 1]) && n == Pending(was.chans[order[k]])
    {
      hide Chans, SkipToEnd, Pending, Ended;
      var id := order[k];
      assert order[..k + 1] == order[..k] + [id];
      At(id);
      EndedSnoc(was.chans, order[..k], id);
      n := channels[id].ToEnd();
      OneChanged(id);
    }

    /** Skip every channel to its end. */
    method EndAll() returns (n: nat)
      requires Valid() && OrderOk(View())
      modifies channels.Values
      ensures Chans() == Ended(old(Chans()), order) && n == Sum(old(View()), order)
    {
      ghost var was := View();
      OrderIs(was);
      EndedNone(was.chans);
      hide OrderOk, Chans, SkipToEnd, Pending, Ended, Sum;
      SumNone(was);
      n := 0;
      var k := 0;
      assert order[..0] == [];
      while k < |order|
        invariant k <= |order|
        invariant Chans() == Ended(was.chans, order[..k])
        invariant n == Sum(was, order[..k])
      {
        EndStep(was, k);
        At(order[k]);
        var more := EndNext(was, k);
        n := n + more;
        k := k + 1;
      }
      assert order[..k] == order;
    }

    method FlushEverything() returns (n: nat)
      requires Valid() && OrderOk(View())
      modifies this`announce, this`hold, channels.Values
      ensures Valid() && (View(), n) == FlushAll(old(View()))
    {
      hide OrderOk, Chans, Ended, Sum, FlushAll;
      ghost var was := View();
      announce, hold := None, None;
      assert Chans() == was.chans;
      SumKept(was, View(), order);
      n := EndAll();
      assert View() == was.(announce := None, hold := None, chans := Ended(was.chans, was.order));
      FlushAllIs(was);
    }

    // ---- Picking and feeding -------------------------------------------------

    method IsSuppressed(id: Id) returns (b: bool)
      modifies this`suppressed
      ensures View() == AskSuppressed(old(View()), id) && b == Suppressed(old(View()), id)
    {
      At(id);
      hide Chans;
      b := id in suppressed && id in channels && channels[id].gen == suppressed[id];
      if id in suppressed && !b {
        suppressed := suppressed - {id};
      }
    }

    method IsPickable(id: Id) returns (b: bool)
      modifies this`suppressed
      ensures View() == AskPickable(old(View()), id) && b == Pickable(old(View()), id)
    {
      hide Chans, Suppressed, AskSuppressed;
      b := Audible(View(), id);
      if b {
        var s := IsSuppressed(id);
        b := !s && !Gated(View(), id);
      }
    }

    /** The first of `ids` that may be picked. */
    method FirstOf(ids: seq<Id>) returns (t: Option<Id>)
      modifies this`suppressed
      ensures (View(), t) == FirstPickable(old(View()), ids)
    {
      hide Chans, Pickable, AskPickable;
      var k := 0;
      assert ids[0..] == ids;
      while k < |ids|
        invariant k <= |ids| && FirstPickable(View(), ids[k..]) == FirstPickable(old(View()), ids)
      {
        assert ids[k..][1..] == ids[k + 1..];
        var b := IsPickable(ids[k]);
        if b {
          return Some(ids[k]);
        }
        k := k + 1;
      }
      t := None;
    }

    method PruneLists()
      modifies this`priority, this`authorized
      ensures View() == Prune(old(View()))
    {
      hide Chans, Ready, ReadyOnes;
      priority, authorized := ReadyOnes(View(), priority), set a | a in authorized && Ready(View(), a);
    }

    method Pick() returns (t: Option<Id>)
      modifies this`priority, this`authorized, this`hold, this`suppressed
      ensures (View(), t) == RouterModel.Pick(old(View()))
    {
      hide Chans, Prune, Holds, Audible;
      PruneLists();
      if hold.Some? && Holds(View(), hold.value.0, hold.value.1) {
        return Some(hold.value.0);
      }
      hold := None;
      if active.Some? && Audible(View(), active.value) {
        return active;
      }
      t := PickAmongWaiting();
    }

    method PickAmongWaiting() returns (t: Option<Id>)
      modifies this`suppressed
      ensures (View(), t) == PickWaiting(old(View()))
    {
      hide Chans, Audible, Suppressed, AskSuppressed, FirstPickable, Gated;
      t := FirstOf(priority);
      if t.Some? {
        return;
      }
      if focus.Some? && Audible(View(), focus.value) {
        var s := IsSuppressed(focus.value);
        if !s {
          return focus;
        }
      }
      t := FirstOf(order);
    }

    method HasWork() returns (b: bool)
      modifies this`priority, this`authorized, this`hold, this`suppressed
      ensures (View(), b) == RouterModel.HasWork(old(View()))
    {
      hide Chans, RouterModel.Pick;
      if announce.Some? {
        return true;
      }
      var t := Pick();
      b := t.Some?;
    }

    method Arm(id: Id, replay: bool, manual: bool)
      modifies this`announce
      ensures View() == RouterModel.Arm(old(View()), id, replay, manual)
    {
      hide Chans;
      announce := Some(Switch(id, replay, manual));
    }

    method Done()
      modifies this`reading
      ensures View() == RouterModel.Done(old(View()))
    {
      hide Chans;
      reading := None;
    }

    /** The armed announcement, taken; nothing is being read any more. */
    method TakeAnnounce() returns (fed: Option<Feed>)
      modifies this`announce, this`reading
      ensures if old(announce).Some? && old(announce).value.channel in old(View()).chans
              then fed.Some? && (View(), fed) == FeedAnnounce(old(View()).(reading := None))
              else fed == None && View() == old(View()).(reading := None).(announce := None)
    {
      reading := None;
      fed := None;
      if announce.Some? {
        var sw := announce.value;
        At(sw.channel);
        hide Chans;
        announce := None;
        assert Chans() == old(Chans());
        if sw.channel in channels {
          var title := channels[sw.channel].title;
          fed := Some(Announce(sw.channel, if title == Some("") then None else title, sw.replay, sw.manual));
        }
      }
    }

    /** The next entry of `id`. */
    method FeedEntry(id: Id) returns (fed: Option<Feed>)
      requires Valid()
      modifies this`authorized, this`reading, channels.Values
      ensures Valid() && (View(), fed) == RouterModel.FeedEntry(old(View()), id)
    {
      At(id);
      hide Chans, TakeEntry, Pending;
      if id !in channels {
        return None;
      }
      var c := channels[id];
      var e := c.Take();
      OneChanged(id);
      if e == None {
        return None;
      }
      if Pending(c.View()) == 0 {
        authorized := authorized - {id};
      }
      reading := Some((id, e.value.id));
      fed := Some(Read(id, e.value));
    }

    /** `id` reads now; whether its hand-off was armed. */
    method GiveFloor(id: Id) returns (armed: bool)
      modifies this`announce, this`active, this`lastActive, this`lastReader, this`closedReaderTab
      ensures armed == (old(active) != Some(id) && IsHandoff(old(View()), id))
      ensures View() == if armed then RouterModel.Arm(RouterModel.SetReader(old(View()), id), id, false, false)
                        else if old(active) != Some(id) then RouterModel.SetReader(old(View()), id) else old(View())
    {
      hide Chans, IsHandoff;
      armed := false;
      if active != Some(id) {
        armed := IsHandoff(View(), id);
        SetReader(id);
        assert Chans() == old(Chans());
        if armed {
          Arm(id, false, false);
        }
      }
    }

    /** The next thing to read: an armed announcement, else the next entry of the picked channel,
        a hand-off announced first. */
    method NextFeed() returns (fed: Option<Feed>)
      requires Valid() && Inv(View())
      modifies this`reading, this`announce, this`priority, this`authorized, this`hold, this`suppressed,
               this`active, this`lastActive, this`lastReader, this`closedReaderTab, channels.Values
      ensures Valid() && (View(), fed) == RouterModel.NextFeed(old(View()))
      decreases if announce.Some? then 0 else 1, 2
    {
      ghost var was := View();
      FeedHead(was);
      hide Inv, Chans, RouterModel.Pick, RouterModel.NextFeed, FeedAnnounce;
      fed := TakeAnnounce();
      if fed.Some? {
        return;
      }
      fed := FeedPick(was);
    }

    /** Nothing reads. */
    method Rest()
      modifies this`active
      ensures View() == old(View()).(active := None)
    {
      hide Chans;
      active := None;
    }

    /** Feed of the channel to be picked. */
    method FeedPick(ghost was: RouterModel.Router) returns (fed: Option<Feed>)
      requires Valid() && Inv(was) && was.announce == None && View() == was.(reading := None).(announce := None)
      modifies this`reading, this`announce, this`priority, this`authorized, this`hold, this`suppressed,
               this`active, this`lastActive, this`lastReader, this`closedReaderTab, channels.Values
      ensures Valid() && (View(), fed) == RouterModel.NextFeed(was)
      decreases 1, 1
    {
      FeedHead(was);
      hide Inv, Chans, RouterModel.Pick, RouterModel.NextFeed;
      var target := Pick();
      if target == None {
        Rest();
        fed := None;
      } else {
        fed := FeedTo(target.value, was);
      }
    }

    /** Feed of the channel picked. */
    method FeedTo(id: Id, ghost was: RouterModel.Router) returns (fed: Option<Feed>)
      requires Valid() && Inv(was) && was.announce == None
      requires (View(), Some(id)) == RouterModel.Pick(was.(reading := None).(announce := None))
      modifies this`reading, this`announce, this`priority, this`authorized, this`hold, this`suppressed,
               this`active, this`lastActive, this`lastReader, this`closedReaderTab, channels.Values
      ensures Valid() && (View(), fed) == RouterModel.NextFeed(was)
      decreases 1, 0
    {
      FeedParts(was);
      hide Inv, Chans, RouterModel.Pick, RouterModel.NextFeed, FeedAnnounce, RouterModel.FeedEntry, IsHandoff,
          RouterModel.SetReader, RouterModel.Arm;
      var armed := GiveFloor(id);
      if armed {
        fed := NextFeed();
      } else {
        fed := FeedEntry(id);
      }
    }

    // ---- Switching -----------------------------------------------------------

    /** `id` reads now, with these suppressions, this hold and this armed announcement. */
    method Give(id: Id, suppressed: map<Id, nat>, hold: Option<(Id, nat)>, announce: Option<Switch>)
      modifies this`suppressed, this`hold, this`announce, this`active, this`lastActive, this`lastReader,
          this`closedReaderTab
      ensures View() == RouterModel.SetReader(old(View()), id).(suppressed := suppressed, hold := hold,
          announce := announce)
    {
      hide Chans;
      SetReader(id);
      this.suppressed, this.hold, this.announce := suppressed, hold, announce;
      assert Chans() == old(Chans());
    }

    method TakeFloor(id: Id) returns (ok: bool)
      modifies this`suppressed, this`hold, this`announce, this`active, this`lastActive, this`lastReader,
          this`closedReaderTab
      ensures (View(), ok) == RouterModel.TakeFloor(old(View()), id)
    {
      At(id);
      hide Chans, IsHandoff;
      ok := id in channels;
      if ok {
        var handoff := IsHandoff(View(), id);
        Give(id, suppressed - {id}, if hold.Some? && hold.value.0 != id then None else hold,
             if handoff then Some(Switch(id, false, false))
             else if announce.Some? && announce.value.channel != id then None else announce);
      }
    }

    /** `id`'s cursor goes to place `at`; `replay`: a replay is in progress. */
    method MoveCursor(id: Id, at: nat, replay: bool)
      requires Valid() && id in channels
      modifies channels.Values
      ensures id in old(View()).chans && channels[id].cursor == at
      ensures View() == Update(old(View()), id, old(View()).chans[id].(cursor := at,
          replaying := replay || old(channels[id].replaying)))
    {
      At(id);
      hide Chans;
      channels[id].ReadFrom(at, replay);
      OneChanged(id);
    }

    /** Read `id`'s batch from `entry` on (or the top) as something the user started. */
    method ReadAt(id: Id, entry: Option<nat>, replay: bool) returns (ok: bool)
      requires Valid()
      modifies this`suppressed, this`hold, this`announce, this`active, this`lastActive, this`lastReader,
          this`closedReaderTab,
               this`authorized, channels.Values
      ensures Valid() && (View(), ok) == RouterModel.ReadAt(old(View()), id, entry, replay)
    {
      At(id);
      hide Chans, IsHandoff, Where;
      if id !in channels || channels[id].entries == [] {
        return false;
      }
      var c := channels[id];
      var at := if entry.Some? then Where(c.entries, entry.value) else 0;
      if at == |c.entries| {
        return false;
      }
      MoveCursor(id, at, replay);
      var handoff := IsHandoff(View(), id);
      authorized := authorized + {id};
      Give(id, suppressed - {id}, Some((id, nextEntry)), if handoff then Some(Switch(id, replay, true)) else announce);
      ok := true;
    }

    /** Move the reading channel one step around the ring and arm its announcement. */
    method NextChannel() returns (target: Option<(Id, bool)>)
      requires Valid() && Inv(View())
      modifies this`suppressed, this`hold, this`announce, this`active, this`lastActive, this`lastReader,
          this`closedReaderTab,
               channels.Values
      ensures Valid() && (View(), target) == RouterModel.NextChannel(old(View()))
    {
      hide Inv, Chans, NextTarget;
      if order == [] {
        target := None;
      } else {
        target := SwitchTo(NextTarget(View()));
      }
    }

    /** The switch lands on `id`: announced, and a replay holds the floor. */
    method Land(id: Id, replay: bool, left: map<Id, nat>)
      requires Valid() && id in channels
      modifies this`suppressed, this`hold, this`announce, this`active, this`lastActive, this`lastReader,
          this`closedReaderTab,
               channels.Values
      ensures View() == Landed(old(View()), id, replay, left)
    {
      At(id);
      hide Chans;
      if replay {
        MoveCursor(id, 0, true);
      }
      Give(id, left, if replay then Some((id, nextEntry)) else None, Some(Switch(id, replay, true)));
    }

    method SwitchTo(id: Id) returns (target: Option<(Id, bool)>)
      requires Valid() && Inv(View()) && order != [] && id == NextTarget(View())
      modifies this`suppressed, this`hold, this`announce, this`active, this`lastActive, this`lastReader,
          this`closedReaderTab,
               channels.Values
      ensures Valid() && (View(), target) == RouterModel.NextChannel(old(View()))
    {
      SwitchSays(View());
      At(id);
      hide Inv, Chans, NextTarget, CaughtUp, RouterModel.NextChannel, Left, Engaged, Landed, Apart;
      var replay := CaughtUp(channels[id].View()) || Engaged(View()) == Some(id) || channels[id].replaying;
      Land(id, replay, Left(View(), id));
      target := Some((id, replay));
    }

  }

  ghost function Ended(chans: map<Id, Chan>, ids: seq<Id>): map<Id, Chan> {
    map id | id in chans :: if id in ids then SkipToEnd(chans[id]).0 else chans[id]
  }

  lemma {:induction false} EndedNone(chans: map<Id, Chan>)
    ensures Ended(chans, []) == chans
  {
  }

  lemma {:induction false} EndedSnoc(chans: map<Id, Chan>, ids: seq<Id>, id: Id)
    requires id in chans && id !in ids
    ensures id in Ended(chans, ids) && Ended(chans, ids)[id] == chans[id]
    ensures Ended(chans, ids + [id]) == Ended(chans, ids)[id := SkipToEnd(chans[id]).0]
    ensures SkipToEnd(chans[id]).1 == Pending(chans[id])
  {
    hide Pending;
  }

  lemma {:induction false} EndedKeys(chans: map<Id, Chan>, ids: seq<Id>)
    ensures forall id :: id in Ended(chans, ids) <==> id in chans
  {
  }

  lemma {:induction false} NotYet(ids: seq<Id>, k: nat)
    requires Apart(ids) && k < |ids|
    ensures ids[k] !in ids[..k]
  {
  }

  lemma {:induction false} EndStep(r: RouterModel.Router, k: nat)
    requires Apart(r.order) && k < |r.order| && r.order[k] in r.chans
    ensures r.order[k] !in r.order[..k] && r.order[k] in Ended(r.chans, r.order[..k])
    ensures Sum(r, r.order[..k + 1]) == Sum(r, r.order[..k]) + Pending(r.chans[r.order[k]])
  {
    SumSnoc(r, r.order[..k], r.order[k]);
    EndedKeys(r.chans, r.order[..k]);
    NotYet(r.order, k);
    assert r.order[..k + 1] == r.order[..k] + [r.order[k]];
    hide Sum, Ended, Apart, Pending;
  }

  lemma {:induction false} SumNone(r: RouterModel.Router)
    ensures Sum(r, []) == 0
  {
  }

  lemma {:induction false} SumKept(r: RouterModel.Router, r': RouterModel.Router, ids: seq<Id>)
    requires r'.chans == r.chans
    ensures Sum(r', ids) == Sum(r, ids)
    ensures r'.order == r.order ==> (OrderOk(r) <==> OrderOk(r'))
  {
    hide Pending;
    if ids != [] {
      SumKept(r, r', ids[1..]);
    }
  }

  lemma {:induction false} FlushAllIs(r: RouterModel.Router)
    requires OrderOk(r)
    ensures FlushAll(r) == (r.(announce := None, hold := None, chans := Ended(r.chans, r.order)), Sum(r, r.order))
  {
    hide Pending, Sum;
    assert Ended(r.chans, r.order) == FlushAll(r).0.chans;
  }

  lemma {:induction false} OrderIs(r: RouterModel.Router)
    requires OrderOk(r)
    ensures Apart(r.order) && forall id :: id in r.order <==> id in r.chans
  {
  }

  /** The cases of a feed, and that the announcement of a hand-off just armed is what is fed next. */
  lemma {:induction false} FeedParts(r: RouterModel.Router)
    requires Inv(r)
    ensures var r0 := r.(reading := None);
            if r.announce.Some? then r.announce.value.channel in r.chans && NextFeed(r) == FeedAnnounce(r0)
            else
              var (r1, t) := Pick(r0.(announce := None));
              if t == None then NextFeed(r) == (r1.(active := None), None)
              else if r1.active != t && IsHandoff(r1, t.value) then
                var r2 := Arm(SetReader(r1, t.value), t.value, false, false);
                Inv(r2) && r2.announce.Some? && NextFeed(r) == NextFeed(r2)
              else NextFeed(r) == FeedEntry(if r1.active != t then SetReader(r1, t.value) else r1, t.value)
  {
    FeedCases(r);
    if r.announce == None {
      var r0 := r.(reading := None);
      EndsKeep(r, "");
      PickKeeps(r0);
      var (r1, t) := Pick(r0);
      assert r0.(announce := None) == r0;
      if t.Some? {
        ArmedNext(r1, t.value);
      }
    }
    hide Inv, NextFeed, Pick, FeedFrom, FeedAnnounce, FeedEntry, Audible, Pending, IsHandoff;
    if r.announce.Some? {
      AnnouncedOpen(r);
    }
  }

  /** The suppressions when the floor moves to `id`: the channel left is one until it gets new text. */
  function Left(r: RouterModel.Router, id: Id): map<Id, nat> {
    (if r.active.Some? && r.active.value != id && r.active.value in r.chans
     then r.suppressed[r.active.value := r.chans[r.active.value].gen] else r.suppressed) - {id}
  }

  function Landed(r: RouterModel.Router, id: Id, replay: bool, left: map<Id, nat>): RouterModel.Router
    requires id in r.chans
  {
    var r1 := if replay then Update(r, id, r.chans[id].(cursor := 0, replaying := true)) else r;
    SetReader(r1, id).(suppressed := left, hold := if replay then Some((id, r.nextEntry)) else None,
                       announce := Some(Switch(id, replay, true)))
  }

  lemma {:induction false} SwitchSays(r: RouterModel.Router)
    requires Inv(r) && r.order != []
    ensures var id := NextTarget(r);
            && id in r.chans
            && var replay := CaughtUp(r.chans[id]) || Engaged(r) == Some(id) || r.chans[id].replaying;
            NextChannel(r) == (Landed(r, id, replay, Left(r, id)), Some((id, replay)))
  {
    TargetOpen(r);
    hide Inv, NextTarget, CaughtUp, Engaged;
  }

  lemma {:induction false} FeedHead(r: RouterModel.Router)
    requires Inv(r)
    ensures var r0 := r.(reading := None);
            && (r.announce.Some? ==> r.announce.value.channel in r.chans && NextFeed(r) == FeedAnnounce(r0))
            && (r.announce == None && Pick(r0.(announce := None)).1 == None ==>
                  NextFeed(r) == (Pick(r0.(announce := None)).0.(active := None), None))
  {
    hide Inv, NextFeed, Pick, FeedAnnounce, FeedEntry, IsHandoff, SetReader, Arm;
    FeedParts(r);
  }

  lemma {:induction false} ArmedNext(r: RouterModel.Router, id: Id)
    requires Inv(r) && id in r.chans && r.announce == None && r.reading == None && (r.hold.Some? ==>
        r.hold.value.0 == id)
    ensures var r2 := Arm(SetReader(r, id), id, false, false);
            Inv(r2) && r2.announce.Some? && NextFeed(r2) == FeedAnnounce(r2)
  {
    var r2 := Arm(SetReader(r, id), id, false, false);
    hide ChansOk, OrderOk, FeedAnnounce, Pick;
    SameChans(r, r2);
    assert r2.(reading := None) == r2;
  }

  lemma {:induction false} BatchOk(r: RouterModel.Router, id: Id)
    requires Inv(r) && id in r.chans
    ensures r.chans[id].cursor <= |r.chans[id].entries| && Unique(r.chans[id].entries)
  {
  }

  lemma {:induction false} SumSnoc(r: RouterModel.Router, ids: seq<Id>, id: Id)
    ensures Sum(r, ids + [id]) == Sum(r, ids) + (if id in r.chans then Pending(r.chans[id]) else 0)
  {
    hide Pending;
    if ids != [] {
      assert (ids + [id])[1..] == ids[1..] + [id];
      SumSnoc(r, ids[1..], id);
    } else {
      assert ([] + [id])[1..] == [];
    }
  }
}
