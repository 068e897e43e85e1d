/** What is heard of a turn's recap: which way its prose goes, and what follows when its slot is served. */
module RulesRecaps {
  import opened Options
  import opened Wordings
  import opened RulesModel
  import opened RulesFrames
  import opened RulesBuffer
  import opened RulesSpeech

  // ---- What a release sounds like --------------------------------------------

  /** A recap came, and there is something in it. */
  predicate Recapped(r: Release) {
    r.summary.Some? && !Blank(r.summary.value)
  }

  /** The channel's turn is still the one `r` is about. */
  predicate Alive(s: Rules, r: Release) {
    r.channel in s.turns && s.turns[r.channel].gen == r.gen
  }

  /** `out` is what is to be heard of `r`. A dead one is silent; a recap is heard in its normal form; without
      one the text itself is, but for a lead-in; without text the failure chime is. */
  ghost predicate Heard(env: Env, s: Rules, r: Release, out: seq<Action>) {
    var level := s.settings.muteLevel;
    && (!Alive(s, r) ==> out == [])
    && (Alive(s, r) && Recapped(r) ==>
          out == if Blank(env.normalize(r.summary.value)) then []
                 else [Aloud(level, r.channel, env.normalize(r.summary.value), None, Some(r.gen), Summary, [])])
    && (Alive(s, r) && !Recapped(r) && r.leadin ==> out == [])
    && (Alive(s, r) && !Recapped(r) && !r.leadin && !Blank(r.text) ==>
          out == [Aloud(level, r.channel, r.text, None, Some(r.gen), Prose, [])])
    && (Alive(s, r) && !Recapped(r) && !r.leadin && Blank(r.text) ==>
          out == if level < 2 then [Play(SummaryFailed)] else [])
  }

  /** Something that comes of a release. */
  predicate Released(a: Action) {
    ReleaseOf(a).Some? || a == Play(SummaryFailed)
  }

  /** What comes of a release at the front of `out`. */
  function Front(out: seq<Action>): seq<Action> {
    if out == [] || !Released(out[0]) then [] else [out[0]] + Front(out[1..])
  }

  /** Each slot served in `out` is one of `landing`, and what follows is what is to be heard of it. */
  ghost predicate HeardEach(env: Env, s: Rules, landing: map<nat, Release>, out: seq<Action>) {
    forall i :: 0 <= i < |out| && out[i].Served? ==>
      var t := out[i].ticket;
      t.slot in landing && For(landing[t.slot], t) && Heard(env, s, landing[t.slot], Front(out[i + 1..]))
  }

  ghost predicate Silent(out: seq<Action>) {
    forall a :: a in out ==> !a.Served? && !Released(a)
  }

  // ---- Serving ---------------------------------------------------------------

  lemma {:induction false} ApplyIsHeard(env: Env, s: Rules, r: Release)
    ensures Heard(env, s, r, Apply(env, s, r))
    ensures forall a :: a in Apply(env, s, r) ==> Released(a) && !a.Served?
  {
    hide Blank;
  }

  lemma {:induction false} HeardSame(env: Env, s: Rules, s1: Rules, r: Release, out: seq<Action>)
    requires s1.turns == s.turns && s1.settings == s.settings && Heard(env, s1, r, out)
    ensures Heard(env, s, r, out)
  {
    hide Blank, Aloud;
  }

  lemma {:induction false} FrontIs(out: seq<Action>, more: seq<Action>)
    requires forall a :: a in out ==> Released(a)
    requires more == [] || !Released(more[0])
    ensures Front(out + more) == out
  {
    hide Released;
    if out == [] {
      assert out + more == more;
    } else {
      assert out[0] in out && (out + more)[1..] == out[1..] + more;
      FrontIs(out[1..], more);
    }
  }

  lemma {:induction false} ServedPlace(out: seq<Action>, more: seq<Action>, i: nat)
    requires i < |out + more| && (out + more)[i].Served?
    ensures (forall a :: a in out ==> !a.Served?) ==> i >= |out|
    ensures (forall a :: a in more ==> !a.Served?) ==> i < |out|
  {
  }

  /** One slot served, then the rest. */
  lemma {:induction false} HeardThen(env: Env, s: Rules, landing: map<nat, Release>, t: Ticket, out: seq<Action>,
      more: seq<Action>)
    requires t.slot in landing && For(landing[t.slot], t) && Heard(env, s, landing[t.slot], out)
    requires forall a :: a in out ==> Released(a) && !a.Served?
    requires HeardEach(env, s, landing, more) && (more == [] || more[0].Served?)
    ensures HeardEach(env, s, landing, [Served(t)] + out + more)
  {
    hide Heard, For, HeardEach;
    FrontIs(out, more);
    HeardAfter(env, s, landing, out, more);
    HeardFirst(env, s, landing, t, out + more);
    assert [Served(t)] + out + more == [Served(t)] + (out + more);
  }

  lemma {:induction false} HeardFirst(env: Env, s: Rules, landing: map<nat, Release>, t: Ticket, out: seq<Action>)
    requires t.slot in landing && For(landing[t.slot], t) && Heard(env, s, landing[t.slot], Front(out))
    requires HeardEach(env, s, landing, out)
    ensures HeardEach(env, s, landing, [Served(t)] + out)
  {
    hide Heard, For, Front;
    var all := [Served(t)] + out;
    assert all[1..] == out;
    forall i | 0 <= i < |all| && all[i].Served?
      ensures var u := all[i].ticket;
              u.slot in landing && For(landing[u.slot], u) && Heard(env, s, landing[u.slot], Front(all[i + 1..]))
    {
      if i > 0 {
        assert all[i] == out[i - 1] && all[i + 1..] == out[i..];
      }
    }
  }

  lemma {:induction false} MoreLanding(env: Env, s: Rules, s1: Rules, less: map<nat, Release>,
      landing: map<nat, Release>, out: seq<Action>)
    requires s1.turns == s.turns && s1.settings == s.settings && HeardEach(env, s1, less, out)
    requires forall k :: k in less ==> k in landing && landing[k] == less[k]
    ensures HeardEach(env, s, landing, out)
  {
    hide Heard, For, Front;
    forall i | 0 <= i < |out| && out[i].Served?
      ensures var t := out[i].ticket; t.slot in landing && Heard(env, s, landing[t.slot], Front(out[i + 1..]))
    {
      HeardSame(env, s, s1, less[out[i].ticket.slot], Front(out[i + 1..]));
    }
  }

  function TicketOf(k: nat, r: Release): Ticket {
    Ticket(k, r.channel, r.gen, r.text)
  }

  lemma {:induction false} ServeIsHeard(env: Env, s: Rules)
    ensures var out := Serve(env, s).1;
            && HeardEach(env, s, s.parked, out)
            && (s.serveSeq !in s.parked ==> out == [])
            && (s.serveSeq in s.parked ==> out != [] && out[0] == Served(TicketOf(s.serveSeq, s.parked[s.serveSeq])))
    decreases s.parked.Keys
  {
    hide Apply, Heard, HeardEach, Released;
    if s.serveSeq in s.parked {
      var r := s.parked[s.serveSeq];
      var s1 := s.(parked := s.parked - {s.serveSeq}, serveSeq := s.serveSeq + 1);
      ServeIsHeard(env, s1);
      MoreLanding(env, s, s1, s1.parked, s.parked, Serve(env, s1).1);
      ApplyIsHeard(env, s1, r);
      HeardSame(env, s, s1, r, Apply(env, s1, r));
      HeardThen(env, s, s.parked, TicketOf(s.serveSeq, r), Apply(env, s1, r), Serve(env, s1).1);
    } else {
      NothingHeard(env, s, s.parked);
    }
  }

  lemma {:induction false} NothingHeard(env: Env, s: Rules, landing: map<nat, Release>)
    ensures HeardEach(env, s, landing, [])
  {
  }

  /** A slot that was served, or waits with its release, does not land again. */
  predicate Again(s: Rules, slot: Option<nat>) {
    slot.Some? && (slot.value < s.serveSeq || slot.value in s.parked)
  }

  /** What lands: without a slot it is heard at once; under its slot, when those before it were served, it is
      heard now, and so is each one parked behind it. */
  lemma {:induction false} LandIsHeard(env: Env, s: Rules, slot: Option<nat>, r: Release)
    ensures var out := Land(env, s, slot, r).1;
            && (slot == None ==> Heard(env, s, r, out) && forall a :: a in out ==> Released(a) && !a.Served?)
            && (Again(s, slot) ==> out == [])
            && (slot.Some? && !Again(s, slot) ==>
                  && HeardEach(env, s, s.parked[slot.value := r], out)
                  && (slot.value == s.serveSeq ==> out != [] && out[0] == Served(TicketOf(slot.value, r))))
  {
    hide Apply, Heard, HeardEach, Serve;
    ApplyIsHeard(env, s, r);
    if slot.Some? {
      var s1 := s.(watched := s.watched - {slot.value}, parked := s.parked[slot.value := r]);
      ServeIsHeard(env, s1);
      MoreLanding(env, s, s1, s1.parked, s1.parked, Serve(env, s1).1);
    }
  }

  /** More that is of no release. */
  lemma {:induction false} HeardBefore(env: Env, s: Rules, landing: map<nat, Release>, out: seq<Action>,
      more: seq<Action>)
    requires HeardEach(env, s, landing, out) && Silent(more)
    ensures HeardEach(env, s, landing, out + more)
  {
    hide Heard, For, Released;
    forall i | 0 <= i < |out + more| && (out + more)[i].Served?
      ensures var t := (out + more)[i].ticket;
              && t.slot in landing && For(landing[t.slot], t)
              && Heard(env, s, landing[t.slot], Front((out + more)[i + 1..]))
    {
      ServedPlace(out, more, i);
      assert (out + more)[i + 1..] == out[i + 1..] + more;
      FrontMore(out[i + 1..], more);
    }
  }

  lemma {:induction false} FrontMore(out: seq<Action>, more: seq<Action>)
    requires Silent(more)
    ensures Front(out + more) == Front(out)
  {
    hide Released;
    if out == [] {
      assert out + more == more;
      assert more != [] ==> more[0] in more;
    } else {
      assert (out + more)[1..] == out[1..] + more;
      FrontMore(out[1..], more);
    }
  }

  lemma {:induction false} SayingSilent(env: Env, s: Rules, ch: Id, ds: seq<Decision>)
    ensures Silent(SayDecisions(env, s, ch, ds))
  {
    if ds != [] {
      SayingSilent(env, s, ch, ds[1..]);
    }
  }

  // ---- Answers and watchdogs -------------------------------------------------

  lemma {:induction false} DeliveredSame(env: Env, s: Rules, job: Job, r: Release, out: seq<Action>)
    requires Heard(env, Delivered(s, job), r, out)
    ensures Heard(env, s, r, out)
  {
    hide Blank, Aloud, Owns;
  }

  lemma {:induction false} DeliveredEach(env: Env, s: Rules, job: Job, landing: map<nat, Release>, out: seq<Action>)
    requires HeardEach(env, Delivered(s, job), landing, out)
    ensures HeardEach(env, s, landing, out)
  {
    hide Heard, For, Front, Delivered;
    forall i | 0 <= i < |out| && out[i].Served?
      ensures var t := out[i].ticket;
              t.slot in landing && For(landing[t.slot], t) && Heard(env, s, landing[t.slot], Front(out[i + 1..]))
    {
      DeliveredSame(env, s, job, landing[out[i].ticket.slot], Front(out[i + 1..]));
    }
  }

  function RecapOf(job: Job, recap: Option<string>): Release {
    Release(job.channel, job.gen, job.text, job.leadin, recap)
  }

  /** A job's answer: the recap of a lead-in is heard at once; that of a turn once every slot before it was
      served, which is now when it is the next; and with it each recap parked behind it. */
  lemma {:induction false} AnswerIsHeard(env: Env, s: Rules, job: Job, recap: Option<string>)
    ensures var out := DigestDone(env, s, job, recap).1;
            && (job.slot == None ==> Heard(env, s, RecapOf(job, recap), Front(out)))
            && (Again(s, job.slot) ==> Silent(out))
            && (job.slot.Some? && !Again(s, job.slot) ==>
                  && HeardEach(env, s, s.parked[job.slot.value := RecapOf(job, recap)], out)
                  && (job.slot.value == s.serveSeq ==>
                        out != [] && out[0] == Served(TicketOf(job.slot.value, RecapOf(job, recap)))))
  {
    hide Land, SayDecisions, HeldFor, Heard, HeardEach, Released;
    var s1, r := Delivered(s, job), RecapOf(job, recap);
    DeliveredSlots(s, job);
    hide Delivered;
    var landed := Land(env, s1, job.slot, r);
    LandIsHeard(env, s1, job.slot, r);
    var said := SayDecisions(env, landed.0, job.channel, HeldFor(s, job));
    SayingSilent(env, landed.0, job.channel, HeldFor(s, job));
    if job.slot == None {
      assert said != [] ==> said[0] in said;
      FrontIs(landed.1, said);
      DeliveredSame(env, s, job, r, landed.1);
    } else if !Again(s, job.slot) {
      DeliveredEach(env, s, job, s1.parked[job.slot.value := r], landed.1);
      HeardBefore(env, s, s1.parked[job.slot.value := r], landed.1, said);
    } else {
      assert [] + said == said;
    }
  }

  /** A watchdog: its slot's text is heard as it is, when it is the next. */
  lemma {:induction false} WatchdogIsHeard(env: Env, s: Rules, k: nat, focused: Option<Id>)
    ensures var out := Fire(env, s, Watchdog(k), focused).1;
            && (k !in s.watched || Again(s, Some(k)) ==> out == [])
            && (k in s.watched && !Again(s, Some(k)) ==>
                  && HeardEach(env, s, s.parked[k := s.watched[k]], out)
                  && (k == s.serveSeq ==> out != [] && out[0] == Served(TicketOf(k, s.watched[k]))))
  {
    hide Land, HeardEach;
    if k in s.watched {
      var s1 := s.(watched := s.watched - {k});
      LandIsHeard(env, s1, Some(k), s.watched[k]);
      SameState(env, s, s1, s.parked[k := s.watched[k]], Land(env, s1, Some(k), s.watched[k]).1);
    }
  }

  lemma {:induction false} SameState(env: Env, s: Rules, s1: Rules, landing: map<nat, Release>, out: seq<Action>)
    requires s1.turns == s.turns && s1.settings == s.settings
    ensures HeardEach(env, s1, landing, out) ==> HeardEach(env, s, landing, out)
  {
    hide HeardEach;
    if HeardEach(env, s1, landing, out) {
      MoreLanding(env, s, s1, landing, landing, out);
    }
  }

  // ---- Which way a turn's prose goes -----------------------------------------

  /** The prose of `ch`'s turn that no recap covered yet. */
  function Unvoiced(s: Rules, ch: Id): seq<string> {
    var c := Was(s, ch);
    if c.voiced <= |c.prose| then c.prose[c.voiced..] else []
  }

  /** Each of `chunks` with something to read, as it is. */
  function Each(level: nat, ch: Id, chunks: seq<string>): seq<Action> {
    if chunks == [] then []
    else (if Blank(chunks[0]) then [] else [Aloud(level, ch, chunks[0], None, None, Prose, [chunks[0]])])
         + Each(level, ch, chunks[1..])
  }

  lemma {:induction false} EachRaw(env: Env, s: Rules, ch: Id, chunks: seq<string>)
    ensures SayEach(env, s, ch, "", chunks) == Each(s.settings.muteLevel, ch, chunks)
  {
    hide Blank;
    if chunks != [] {
      EachRaw(env, s, ch, chunks[1..]);
      assert "" + chunks[0] == chunks[0];
    }
  }

  /** What the recap of a turn covers. */
  function Uncovered(s: Rules, ch: Id): string {
    Trim(JoinSpace(Unvoiced(s, ch)))
  }

  predicate Short(s: Rules, ch: Id, leadin: bool) {
    |Uncovered(s, ch)| < SUMMARY_MIN && !leadin
  }

  /** The release of a turn's text without a recap. */
  function RawOf(s: Rules, ch: Id): Release {
    Release(ch, Ensure(s, ch).turns[ch].gen, Uncovered(s, ch), false, None)
  }

  /** With nothing to cover nothing happens. While muted, and when it is short and its session has the focus, what
      a recap would cover is read as it is. */
  lemma {:induction false} RecapIsRaw(env: Env, s: Rules, ch: Id, leadin: bool, focused: Option<Id>)
    requires s.settings.summaries
    requires Uncovered(s, ch) == "" || s.settings.muteLevel > 0 || (Short(s, ch, leadin) && focused == Some(ch))
    ensures var (s', out, went) := Summarizing(env, s, ch, leadin, focused);
            var chunks, level := Unvoiced(s, ch), s.settings.muteLevel;
            && !went && SlotsSame(s, s') && ch in s'.turns
            && (Uncovered(s, ch) == "" ==> out == [] && s'.turns[ch].voiced == Was(s, ch).voiced)
            && (Uncovered(s, ch) != "" ==>
                  && s'.turns[ch].voiced == |s'.turns[ch].prose|
                  && out == if s.whole then [Aloud(level, ch, JoinSpace(chunks), None, None, Prose, chunks)]
                            else Each(level, ch, chunks))
  {
    hide Land, Dispatch, Trim, JoinSpace, Say, SayEach, Each, Blank, Aloud, HoldKept, FlushProse;
    var s0 := Ensure(s, ch);
    var s1 := Set(s0, ch, s0.turns[ch].(voiced := |s0.turns[ch].prose|));
    var chunks := Unvoiced(s, ch);
    if Uncovered(s, ch) != "" {
      TrimmedIs(JoinSpace(chunks));
      SayIs(env, s1, ch, JoinSpace(chunks), None, None, Prose, chunks);
      EachRaw(env, s1, ch, chunks);
    }
  }

  /** A short text of a session without the focus goes through the reorder buffer as it is: heard at once when
      every slot before it was served. */
  lemma {:induction false} ShortIsServed(env: Env, s: Rules, ch: Id, focused: Option<Id>)
    requires s.settings.summaries && s.settings.muteLevel == 0 && Uncovered(s, ch) != ""
    requires Short(s, ch, false) && focused != Some(ch) && !Again(s, Some(s.nextSeq))
    ensures var (s', out, went) := Summarizing(env, s, ch, false, focused); var r := RawOf(s, ch);
            && !went && ch in s'.turns && s'.turns[ch].voiced == |s'.turns[ch].prose| && s'.nextSeq == s.nextSeq + 1
            && out != [] && out[0] == Slotted(TicketOf(s.nextSeq, r))
            && HeardEach(env, Ensure(s, ch), s.parked[s.nextSeq := r], out)
            && (s.nextSeq == s.serveSeq ==> |out| > 1 && out[1] == Served(TicketOf(s.nextSeq, r)))
  {
    hide Land, Dispatch, Trim, JoinSpace, SayRaw, HeardEach, HoldKept, FlushProse;
    var s0 := Ensure(s, ch);
    var s1 := Set(s0, ch, s0.turns[ch].(voiced := |s0.turns[ch].prose|));
    var r := RawOf(s, ch);
    var landed := Land(env, Alloc(s1), Some(s.nextSeq), r);
    LandIsHeard(env, Alloc(s1), Some(s.nextSeq), r);
    VoicedEach(env, s0, ch, s.parked[s.nextSeq := r], landed.1);
    HeardAfter(env, s0, s.parked[s.nextSeq := r], [Slotted(TicketOf(s.nextSeq, r))], landed.1);
    LandSeq(env, Alloc(s1), Some(s.nextSeq), r);
  }

  /** Otherwise a job goes out for it, which then counts as in flight; for a turn's end it takes a slot, watched
      with the text as it is. */
  lemma {:induction false} JobGoesOut(env: Env, s: Rules, ch: Id, leadin: bool, focused: Option<Id>)
    requires s.settings.summaries && s.settings.muteLevel == 0 && Uncovered(s, ch) != "" && !Short(s, ch, leadin)
    ensures var (s', out, went) := Summarizing(env, s, ch, leadin, focused);
            var r, token := RawOf(s, ch), s.nextToken + 1;
            && went && ch in s'.turns && s'.turns[ch].voiced == |s'.turns[ch].prose|
            && s'.turns[ch].lastToken == token == s'.nextToken && s'.turns[ch].inflight == Was(s, ch).inflight + 1
            && (leadin ==> SlotsSame(s, s') && out == [Summarize(Job(token, ch, r.gen, r.text, true, None))])
            && (!leadin ==>
                  && s'.nextSeq == s.nextSeq + 1 && s'.watched == s.watched[s.nextSeq := r]
                  && out == [Slotted(TicketOf(s.nextSeq, r)), Arm(Watchdog(s.nextSeq)),
                             Summarize(Job(token, ch, r.gen, r.text, false, Some(s.nextSeq)))])
  {
    hide Land, Trim, JoinSpace, SayRaw, Dispatch, HoldKept, FlushProse;
    var s0 := Ensure(s, ch);
    var s1 := Set(s0, ch, s0.turns[ch].(voiced := |s0.turns[ch].prose|));
    var r := RawOf(s, ch);
    DispatchIs(s1, ch, r.gen, r.text, leadin);
  }

  lemma {:induction false} DispatchIs(s: Rules, ch: Id, gen: nat, text: string, leadin: bool)
    requires ch in s.turns
    ensures var (s', out, went) := Dispatch(s, ch, gen, text, leadin);
            var r, token := Release(ch, gen, text, false, None), s.nextToken + 1;
            && went && ch in s'.turns
            && s'.turns[ch] == s.turns[ch].(lastToken := token, inflight := s.turns[ch].inflight + 1)
            && s'.nextToken == token
            && (leadin ==> SlotsSame(s, s') && out == [Summarize(Job(token, ch, gen, text, true, None))])
            && (!leadin ==>
                  && s'.nextSeq == s.nextSeq + 1 && s'.watched == s.watched[s.nextSeq := r]
                  && out == [Slotted(TicketOf(s.nextSeq, r)), Arm(Watchdog(s.nextSeq)),
                             Summarize(Job(token, ch, gen, text, false, Some(s.nextSeq)))])
  {
  }

  lemma {:induction false} LandSeq(env: Env, s: Rules, slot: Option<nat>, r: Release)
    ensures var s' := Land(env, s, slot, r).0; s'.nextSeq == s.nextSeq && s'.turns == s.turns
  {
    hide Serve;
    if slot.Some? {
      ServeSeq(env, s.(watched := s.watched - {slot.value}, parked := s.parked[slot.value := r]));
    }
  }

  lemma {:induction false} ServeSeq(env: Env, s: Rules)
    ensures Serve(env, s).0.nextSeq == s.nextSeq && Serve(env, s).0.turns == s.turns
    decreases s.parked.Keys
  {
    hide Apply;
    if s.serveSeq in s.parked {
      ServeSeq(env, s.(parked := s.parked - {s.serveSeq}, serveSeq := s.serveSeq + 1));
    }
  }

  lemma {:induction false} VoicedEach(env: Env, s: Rules, ch: Id, landing: map<nat, Release>, out: seq<Action>)
    requires ch in s.turns
    ensures var s1 := Alloc(Set(s, ch, s.turns[ch].(voiced := |s.turns[ch].prose|)));
            HeardEach(env, s1, landing, out) ==> HeardEach(env, s, landing, out)
  {
    hide Front, For, Released;
    var s1 := Alloc(Set(s, ch, s.turns[ch].(voiced := |s.turns[ch].prose|)));
    forall r: Release, more | Heard(env, s1, r, more) ensures Heard(env, s, r, more) {
      assert Alive(s1, r) <==> Alive(s, r);
    }
    hide Heard;
  }

  /** Before it, actions that serve nothing. */
  lemma {:induction false} HeardAfter(env: Env, s: Rules, landing: map<nat, Release>, first: seq<Action>,
      out: seq<Action>)
    requires (forall a :: a in first ==> !a.Served?) && HeardEach(env, s, landing, out)
    ensures HeardEach(env, s, landing, first + out)
  {
    hide Heard, For, Front;
    forall i | 0 <= i < |first + out| && (first + out)[i].Served?
      ensures var t := (first + out)[i].ticket;
              && t.slot in landing && For(landing[t.slot], t)
              && Heard(env, s, landing[t.slot], Front((first + out)[i + 1..]))
    {
      ServedPlace(first, out, i);
      var j := i - |first|;
      assert (first + out)[i] == out[j] && (first + out)[i + 1..] == out[j + 1..];
    }
  }
}
