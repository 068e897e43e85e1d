/** What the reader is given to speak: the text of the next entry, or the configured announcement of a channel. */
module DriverTexts {
  import opened Options
  import opened RouterModel
  import opened RouterInvariants
  import opened RouterFeeding
  import opened RouterKeys
  import opened DriverModel
  import opened DriverAgreement

  // ---- Announcements ---------------------------------------------------------

  /** `text` is what is configured for a channel of that title, read again or not. */
  ghost predicate Configured(c: Config, title: Option<string>, replay: bool, text: string) {
    && c.announce
    && (title == None && replay ==> c.unnamedReplayText == Some(text))
    && (title == None && !replay ==> c.unnamedText == Some(text))
    && (title.Some? && replay ==> Replaced(c.replayText, title.value, text))
    && (title.Some? && !replay ==> Replaced(c.announceText, title.value, text))
  }

  const LABEL: string := "{label}"

  predicate At(text: string, k: nat) {
    k + 7 <= |text| && text[k..k + 7] == LABEL
  }

  /** The label comes first at place `k`. */
  ghost predicate First(text: string, k: nat) {
    At(text, k) && forall j: nat :: j < k ==> !At(text, j)
  }

  ghost predicate NoLabel(text: string) {
    forall j: nat :: !At(text, j)
  }

  /** `out` is `text` with the label, wherever it comes, replaced by `title`. */
  ghost predicate Replaced(text: string, title: string, out: string)
    decreases |text|
  {
    || (NoLabel(text) && out == text)
    || exists k: nat :: First(text, k) && k + 7 <= |text| && text[..k] + title <= out
                        && Replaced(text[k + 7..], title, out[k + |title|..])
  }

  lemma {:induction false} NextAt(text: string, k: nat)
    requires text != ""
    ensures At(text[1..], k) <==> At(text, k + 1)
  {
    if k + 8 <= |text| {
      assert text[1..][k..k + 7] == text[k + 1..k + 8];
    }
  }

  lemma {:induction false} AtStart(text: string)
    ensures At(text, 0) <==> LABEL <= text
  {
    assert |text| >= 7 ==> text[0..7] == text[..7];
  }

  lemma {:induction false} LaterFirst(text: string, k: nat)
    requires First(text, k) && k > 0
    ensures text != "" && !(LABEL <= text) && First(text[1..], k - 1)
  {
    AtStart(text);
    NextAt(text, k - 1);
    forall j: nat | j < k - 1 ensures !At(text[1..], j) {
      NextAt(text, j);
    }
  }

  lemma {:induction false} FillHere(text: string, title: string)
    requires LABEL <= text
    ensures 7 <= |text| && Fill(text, title) == title + Fill(text[7..], title)
  {
  }

  lemma {:induction false} FillOn(text: string, title: string)
    requires text != "" && !(LABEL <= text)
    ensures Fill(text, title) == [text[0]] + Fill(text[1..], title)
  {
  }

  lemma {:induction false} OneMore(text: string, k: nat, title: string, rest: string)
    requires 0 < k <= |text|
    ensures [text[0]] + (text[1..][..k - 1] + title + rest) == text[..k] + title + rest
  {
    assert [text[0]] + text[1..][..k - 1] == text[..k];
  }

  /** The label is replaced where it comes first, then in the rest. */
  lemma {:induction false} FillAt(text: string, title: string, k: nat)
    requires First(text, k)
    ensures k + 7 <= |text| && Fill(text, title) == text[..k] + title + Fill(text[k + 7..], title)
    decreases k
  {
    hide Fill;
    AtStart(text);
    if k > 0 {
      LaterFirst(text, k);
      hide First, At;
      FillOn(text, title);
      FillAt(text[1..], title, k - 1);
      assert text[1..][k - 1 + 7..] == text[k + 7..];
      OneMore(text, k, title, Fill(text[k + 7..], title));
    } else {
      FillHere(text, title);
      assert text[..0] + title == title;
    }
  }

  lemma {:induction false} FillNone(text: string, title: string)
    requires NoLabel(text)
    ensures Fill(text, title) == text
  {
    AtStart(text);
    if text != "" {
      forall j: nat ensures !At(text[1..], j) {
        NextAt(text, j);
      }
      FillNone(text[1..], title);
      assert [text[0]] + text[1..] == text;
    }
  }

  lemma {:induction false} HasFirst(text: string, j: nat) returns (k: nat)
    requires At(text, j)
    ensures First(text, k)
    decreases j
  {
    hide At;
    if i: nat :| i < j && At(text, i) {
      k := HasFirst(text, i);
    } else {
      k := j;
    }
  }

  lemma {:induction false} FillReplaces(text: string, title: string)
    ensures Replaced(text, title, Fill(text, title))
    decreases |text|
  {
    hide Fill, At;
    if j: nat :| At(text, j) {
      var k := HasFirst(text, j);
      FillAt(text, title, k);
      hide First;
      FillReplaces(text[k + 7..], title);
      var out := Fill(text, title);
      assert text[..k] + title <= out;
      assert out[k + |title|..] == Fill(text[k + 7..], title);
    } else {
      FillNone(text, title);
    }
  }

  /** An announcement is worded as configured, unless announcements are off or none is configured for a channel
      without a label. */
  lemma {:induction false} WordedRight(c: Config, title: Option<string>, replay: bool)
    ensures Wording(c, title, replay).Some? ==> Configured(c, title, replay, Wording(c, title, replay).value)
    ensures Wording(c, title, replay) == None <==>
            !c.announce || (title == None && (if replay then c.unnamedReplayText else c.unnamedText) == None)
  {
    hide Fill, Replaced;
    if title.Some? {
      FillReplaces(c.announceText, title.value);
      FillReplaces(c.replayText, title.value);
    }
  }

  // ---- What a feed hands over ------------------------------------------------

  /** Whether the announcement of `ch` is of a replay: the armed one says, one that was not armed is not. */
  predicate AsReplay(r: Router, ch: Id) {
    r.announce.Some? && r.announce.value.channel == ch && r.announce.value.replay
  }

  /** `f` is of `r`: an entry in flight is the first unread one of its channel, with its text; an announcement has
      the text configured for its channel's label, of a replay only if it was armed as one. */
  ghost predicate Says(r: Router, config: Config, f: Flight) {
    && f.channel in r.chans
    && match f.entry
       case Some(e) =>
         var unread := Unread(r.chans[f.channel]);
         unread != [] && unread[0].id == e && unread[0].text == f.text
       case None =>
         || Configured(config, LabelOf(r, f.channel), false, f.text)
         || (AsReplay(r, f.channel) && Configured(config, LabelOf(r, f.channel), true, f.text))
  }

  lemma {:induction false} AnnouncedSays(r: Router)
    requires Inv(r) && NextFeed(r).1.Some? && NextFeed(r).1.value.Announce?
    ensures var fed := NextFeed(r).1.value;
            && fed.channel in r.chans && fed.title == LabelOf(r, fed.channel) && fed.replay == AsReplay(r, fed.channel)
            && NextFeed(r).0.chans == r.chans && NextFeed(r).0.announce == None
  {
    FeedCases(r);
    FeedCounts(r);
    if r.announce.Some? {
      AnnouncedOpen(r);
    } else {
      var r1 := Pick(r.(reading := None)).0;
      var t := Pick(r.(reading := None)).1;
      EndsKeep(r, "");
      PickKeeps(r.(reading := None));
      hide Pick, IsHandoff, Unread, ChansOk, OrderOk, NamesOk, FloorOk, NextFeed, FeedFrom, TakeEntry, Pending;
      if !(r1.active != t && IsHandoff(r1, t.value)) {
        ChanIn(r, t.value);
        EntryFed(if r1.active != t then SetReader(r1, t.value) else r1, t.value);
      }
    }
  }

  lemma {:induction false} HandsOver(d: Driver, ch: Id, entry: Option<nat>, text: string, interrupt: bool)
    ensures var d' := HandOver(d, ch, entry, text, interrupt); var n := |d.reader.sent|;
            && |d'.reader.sent| > n && d'.reader.sent[n] == Speak(d.reader.items + 1, text, interrupt)
            && (forall k :: n < k < |d'.reader.sent| ==> d'.reader.sent[k] == Send(Skip))
  {
  }

  /** What is fed is right, and it is what the reader is told to speak: one item, interrupting or not as asked. */
  lemma {:induction false} FeedSays(d: Driver, interrupt: bool)
    requires Inv(d.router)
    ensures var (d', fed) := FeedNext(d, interrupt); var n := |d.reader.sent|;
            && (fed == None ==> d'.reader == d.reader)
            && (fed.Some? ==>
                  && d'.inFlight == fed
                  && Says(d.router, d.config, fed.value)
                  && |d'.reader.sent| > n
                  && d'.reader.sent[n] == Speak(fed.value.item, fed.value.text, interrupt)
                  && (forall k :: n < k < |d'.reader.sent| ==> d'.reader.sent[k] == Send(Skip)))
    decreases Measure(d.router)
  {
    hide Inv, NextFeed, HandOver, Measure, Wording, Configured, Unread;
    NextFeedKeeps(d.router);
    FeedMeasure(d.router);
    MeasurePositive(d.router);
    FeedCounts(d.router);
    var (r, fed) := NextFeed(d.router);
    var d1 := d.(router := r);
    match fed
    case None =>
    case Some(Read(ch, e)) =>
      HandOverIs(d1, ch, Some(e.id), e.text, interrupt);
      HandsOver(d1, ch, Some(e.id), e.text, interrupt);
      ReadSays(d.router);
    case Some(Announce(ch, title, replay, _)) =>
      AnnouncedSays(d.router);
      WordedRight(d.config, title, replay);
      var text := Wording(d.config, title, replay);
      if text == None {
        FeedSays(d1, interrupt);
      } else {
        HandOverIs(d1, ch, None, text.value, interrupt);
        HandsOver(d1, ch, None, text.value, interrupt);
      }
  }

  lemma {:induction false} ReadSays(r: Router)
    requires Inv(r) && NextFeed(r).1.Some? && NextFeed(r).1.value.Read?
    ensures var fed := NextFeed(r).1.value;
            fed.channel in r.chans && Unread(r.chans[fed.channel]) != [] && Unread(r.chans[fed.channel])[0] == fed.entry
  {
    FeedCounts(r);
    hide NextFeed, Inv, Unread;
  }

  /** An armed announcement that is worded is what is fed, with the wording of the replay it was armed as, or not. */
  lemma {:induction false} ArmedIsSaid(d: Driver, interrupt: bool)
    requires Inv(d.router) && d.router.announce.Some?
    ensures var sw := d.router.announce.value;
            var text := Wording(d.config, LabelOf(d.router, sw.channel), sw.replay);
            text.Some? ==>
              FeedNext(d, interrupt).1 == Some(Flight(d.reader.items + 1, sw.channel, None, text.value))
  {
    hide Inv, NextFeed, HandOver, Measure, Wording, Unread, Agreed;
    NextFeedKeeps(d.router);
    FeedMeasure(d.router);
    MeasurePositive(d.router);
    AnnouncedFirst(d.router);
    AnnouncedOpenFirst(d.router);
    AnnouncedSays(d.router);
    var sw := d.router.announce.value;
    var text := Wording(d.config, LabelOf(d.router, sw.channel), sw.replay);
    if text.Some? {
      HandOverIs(d.(router := NextFeed(d.router).0), sw.channel, None, text.value, interrupt);
    }
  }

  lemma {:induction false} AnnouncedOpenFirst(r: Router)
    requires Inv(r) && r.announce.Some?
    ensures r.active == Some(r.announce.value.channel)
  {
    AnnouncedOpen(r);
  }
}
