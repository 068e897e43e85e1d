/**
 The wording of decisions: a question with its options, a permission prompt, a plan. However little
 the agent sent, the wording has something to read. Strings are trimmed and found blank by Unicode
 white space, as the source does.
 */
module Wordings {
  import opened Options

  predicate White(c: char) {
    || '\t' <= c <= '\r' || c == ' ' || c == '\U{85}' || c == '\U{A0}' || c == '\U{1680}'
        || '\U{2000}' <= c <= '\U{200A}'
    || c == '\U{2028}' || c == '\U{2029}' || c == '\U{202F}' || c == '\U{205F}' || c == '\U{3000}'
  }

  /** Nothing to read. */
  predicate Blank(s: string) {
    forall i :: 0 <= i < |s| ==> White(s[i])
  }

  function TrimStart(s: string): string {
    if s != "" && White(s[0]) then TrimStart(s[1..]) else s
  }

  function TrimEnd(s: string): string {
    if s != "" && White(s[|s| - 1]) then TrimEnd(s[..|s| - 1]) else s
  }

  function Trim(s: string): string {
    TrimEnd(TrimStart(s))
  }

  lemma {:induction false} StartTrimmed(s: string)
    ensures Blank(s) <==> TrimStart(s) == ""
    ensures TrimStart(s) != "" ==> !White(TrimStart(s)[0])
  {
    if s != "" && White(s[0]) {
      StartTrimmed(s[1..]);
      assert s == [s[0]] + s[1..];
    }
  }

  lemma {:induction false} EndTrimmed(s: string)
    requires s != "" && !White(s[0])
    ensures TrimEnd(s) != "" && TrimEnd(s)[0] == s[0]
    decreases |s|
  {
    if White(s[|s| - 1]) {
      EndTrimmed(s[..|s| - 1]);
    }
  }

  /** Trimming leaves nothing exactly of what is blank, and what it leaves is not blank. */
  lemma {:induction false} TrimmedIs(s: string)
    ensures Trim(s) == "" <==> Blank(s)
    ensures Trim(s) != "" ==> !Blank(Trim(s))
  {
    StartTrimmed(s);
    if TrimStart(s) != "" {
      EndTrimmed(TrimStart(s));
    }
  }

  /** Text with something to read in it stays so whatever is put around it. */
  lemma {:induction false} NotBlankIn(before: string, s: string, after: string)
    requires !Blank(s)
    ensures !Blank(before + s + after)
  {
    var i :| 0 <= i < |s| && !White(s[i]);
    assert (before + s + after)[|before| + i] == s[i];
  }

  /** Several texts with a space between them. */
  function JoinSpace(chunks: seq<string>): string {
    if chunks == [] then "" else if |chunks| == 1 then chunks[0] else chunks[0] + " " + JoinSpace(chunks[1..])
  }

  /** The words of a text, split at white space. */
  function Words(s: string): nat {
    if s == "" then 0
    else Words(s[1..]) + (if !White(s[0]) && (|s| == 1 || White(s[1])) then 1 else 0)
  }

  function Digits(n: nat): (r: string)
    ensures r != "" && forall i :: 0 <= i < |r| ==> '0' <= r[i] <= '9'
  {
    if n < 10 then ["0123456789"[n]] else Digits(n / 10) + ["0123456789"[n % 10]]
  }

  // ---- Questions -------------------------------------------------------------

  datatype Choice = Choice(title: string, description: Option<string>)

  predicate EndsSentence(s: string) {
    s != "" && s[|s| - 1] in ".!?"
  }

  /** Option `i`, numbered from 1. */
  function OptionText(i: nat, o: Choice): (r: string)
    ensures !Blank(r)
  {
    var desc := if o.description.Some? then Trim(o.description.value) else "";
    var r := "Option " + Digits(i + 1) + ": " + o.title + "."
             + (if desc == "" then "" else " " + desc + (if EndsSentence(desc) then "" else "."));
    assert r[0] == 'O';
    r
  }

  /** The options from number `i` on; one without a label is skipped but keeps its number. */
  function OptionTexts(i: nat, options: seq<Choice>): (r: seq<string>)
    ensures forall k :: 0 <= k < |r| ==> !Blank(r[k])
    decreases |options|
  {
    if options == [] then []
    else (if options[0].title == "" then [] else [OptionText(i, options[0])]) + OptionTexts(i + 1, options[1..])
  }

  method WordOptions(options: seq<Choice>) returns (segs: seq<string>)
    ensures segs == OptionTexts(0, options)
  {
    hide OptionText, Blank, OptionTexts;
    segs := [];
    assert options[0..] == options && [] + OptionTexts(0, options) == OptionTexts(0, options);
    for i := 0 to |options|
      invariant segs + OptionTexts(i, options[i..]) == OptionTexts(0, options)
    {
      NextOption(i, options[i..], segs);
      assert options[i..][1..] == options[i + 1..];
      if options[i].title != "" {
        segs := segs + [OptionText(i, options[i])];
      }
    }
    NoOptions(|options|);
    assert options[|options|..] == [] && segs + [] == segs;
  }

  lemma {:induction false} NoOptions(i: nat)
    ensures OptionTexts(i, []) == []
  {
  }

  lemma {:induction false} NextOption(i: nat, options: seq<Choice>, segs: seq<string>)
    requires options != []
    ensures segs + OptionTexts(i, options)
            == (if options[0].title == "" then segs else segs + [OptionText(i, options[0])])
                + OptionTexts(i + 1, options[1..])
  {
    hide OptionText, Blank;
  }

  /** A wording of its own, for what came with no text. */
  function Fallback(s: string): (r: string)
    requires s != "" && !White(s[0])
    ensures r == s && !Blank(r)
  {
    s
  }

  function MultiNote(): (r: string)
    ensures !Blank(r)
  {
    Fallback("This is a multi-select;" + " you can pick more than one.")
  }

  function Head(text: string, multi: bool): string {
    if multi then (if text == "" then "" else text + " ") + MultiNote() else text
  }

  lemma {:induction false} JoinedNotBlank(segs: seq<string>)
    requires segs != [] && !Blank(segs[0])
    ensures !Blank(JoinSpace(segs))
  {
    if |segs| > 1 {
      NotBlankIn("", segs[0], " " + JoinSpace(segs[1..]));
      assert "" + segs[0] + (" " + JoinSpace(segs[1..])) == JoinSpace(segs);
    }
  }

  lemma {:induction false} HeadNotBlank(text: string, multi: bool)
    ensures var head := Head(Trim(text), multi); head == "" || !Blank(head)
  {
    hide Trim, MultiNote;
    TrimmedIs(text);
    if multi {
      var before := if Trim(text) == "" then "" else Trim(text) + " ";
      NotBlankIn(before, MultiNote(), "");
      assert before + MultiNote() + "" == Head(Trim(text), multi);
    }
  }

  /** A question, its options; a question with neither still asks. */
  function QuestionText(text: string, options: seq<Choice>, multi: bool): (r: string)
    ensures !Blank(r)
  {
    var segs := OptionTexts(0, options);
    var head := Head(Trim(text), multi);
    HeadNotBlank(text, multi);
    if head != "" && segs != [] then
      NotBlankIn("", head, " " + JoinSpace(segs));
      assert "" + head + (" " + JoinSpace(segs)) == head + " " + JoinSpace(segs);
      head + " " + JoinSpace(segs)
    else if segs != [] then
      JoinedNotBlank(segs);
      JoinSpace(segs)
    else if head != "" then head
    else Fallback("A question needs your answer.")
  }

  // ---- Plans, permissions, sets, extras --------------------------------------

  function PlanText(text: string): (r: string)
    ensures !Blank(r)
  {
    if Trim(text) == "" then Fallback("A plan is ready for your review.") else Fallback("Plan ready. " + Trim(text))
  }

  function PermissionText(text: string): (r: string)
    ensures !Blank(r)
  {
    TrimmedIs(text);
    if Trim(text) == "" then Fallback("Permission needed.") else Trim(text)
  }

  /** Question `k` (from 0) of a set of `n`. */
  function NumberedQuestion(k: nat, n: nat, body: string): (r: string)
    ensures !Blank(r)
  {
    Fallback("Question " + Digits(k + 1) + " of " + Digits(n) + ". " + body)
  }

  /** The extras with something to read, trimmed. */
  function Worthwhile(extras: seq<string>): seq<string> {
    if extras == [] then []
    else (if Trim(extras[0]) == "" then [] else [Trim(extras[0])]) + Worthwhile(extras[1..])
  }

  function WithExtras(base: string, extras: seq<string>): (r: string)
    ensures !Blank(base) ==> !Blank(r)
  {
    var worth := Worthwhile(extras);
    if worth == [] then base else
      if Blank(base) then base + " " + JoinSpace(worth) else
        NotBlankIn("", base, " " + JoinSpace(worth));
        assert "" + base + (" " + JoinSpace(worth)) == base + " " + JoinSpace(worth);
        base + " " + JoinSpace(worth)
  }

  // ---- What the wordings say -------------------------------------------------

  /** `t` is in `s` at place `i`. */
  predicate Occurs(t: string, s: string, i: nat) {
    i + |t| <= |s| && s[i..i + |t|] == t
  }

  /** The texts occur in `s`, one after the other. */
  ghost predicate InOrder(texts: seq<string>, s: string) {
    texts == [] || exists i: nat :: Occurs(texts[0], s, i) && InOrder(texts[1..], s[i + |texts[0]|..])
  }

  lemma {:induction false} Found(texts: seq<string>, s: string, i: nat)
    requires texts != [] && Occurs(texts[0], s, i) && InOrder(texts[1..], s[i + |texts[0]|..])
    ensures InOrder(texts, s)
  {
  }

  lemma {:induction false} InOrderAfter(texts: seq<string>, before: string, s: string)
    requires InOrder(texts, s)
    ensures InOrder(texts, before + s)
  {
    if texts != [] {
      var i: nat :| Occurs(texts[0], s, i) && InOrder(texts[1..], s[i + |texts[0]|..]);
      var all, k := before + s, |before| + i;
      assert all[k..k + |texts[0]|] == s[i..i + |texts[0]|];
      assert all[k + |texts[0]|..] == s[i + |texts[0]|..];
      assert Occurs(texts[0], all, k);
    }
  }

  lemma {:induction false} InOrderThen(texts: seq<string>, more: seq<string>, s: string, t: string)
    requires InOrder(texts, s) && InOrder(more, t)
    ensures InOrder(texts + more, s + t)
    decreases |texts|
  {
    if texts == [] {
      assert texts + more == more;
      InOrderAfter(more, s, t);
    } else {
      var n := |texts[0]|;
      var i: nat :| Occurs(texts[0], s, i) && InOrder(texts[1..], s[i + n..]);
      hide InOrder;
      InOrderThen(texts[1..], more, s[i + n..], t);
      assert (texts + more)[1..] == texts[1..] + more;
      OccursMore(texts[0], s, i, t);
      Found(texts + more, s + t, i);
    }
  }

  lemma {:induction false} OccursMore(text: string, s: string, i: nat, t: string)
    requires Occurs(text, s, i)
    ensures Occurs(text, s + t, i) && (s + t)[i + |text|..] == s[i + |text|..] + t
  {
    assert (s + t)[i..i + |text|] == s[i..i + |text|];
  }

  lemma {:induction false} Itself(s: string)
    ensures InOrder([s], s) && InOrder([], s)
  {
    assert s[0..0 + |s|] == s && [s][1..] == [];
    Found([s], s, 0);
  }

  /** The number a text of digits stands for. */
  function NumberOf(digits: string): nat
    requires forall i :: 0 <= i < |digits| ==> '0' <= digits[i] <= '9'
  {
    if digits == "" then 0
    else 10 * NumberOf(digits[..|digits| - 1]) + (digits[|digits| - 1] - '0') as nat
  }

  lemma {:induction false} DigitsAre(n: nat)
    ensures NumberOf(Digits(n)) == n
  {
    if n >= 10 {
      DigitsAre(n / 10);
      assert Digits(n)[..|Digits(n)| - 1] == Digits(n / 10);
    } else {
      assert Digits(n)[..0] == "";
    }
  }

  function Said(text: string): seq<string> {
    if Trim(text) == "" then [] else [Trim(text)]
  }

  /** What option number `i` says: its number and label, and its description. */
  function OptionSays(i: nat, o: Choice): seq<string> {
    if o.title == "" then []
    else ["Option " + Digits(i + 1) + ": " + o.title + "."]
         + (if o.description.Some? then Said(o.description.value) else [])
  }

  function OptionsSay(i: nat, options: seq<Choice>): seq<string>
    decreases |options|
  {
    if options == [] then [] else OptionSays(i, options[0]) + OptionsSay(i + 1, options[1..])
  }

  lemma {:induction false} OptionIsSaid(i: nat, o: Choice)
    requires o.title != ""
    ensures InOrder(OptionSays(i, o), OptionText(i, o))
  {
    hide Trim, Digits, InOrder, Blank;
    var head := "Option " + Digits(i + 1) + ": " + o.title + ".";
    Itself(head);
    var desc := if o.description.Some? then Trim(o.description.value) else "";
    if desc != "" {
      Itself(desc);
      var end := if EndsSentence(desc) then "" else ".";
      Itself(end);
      InOrderThen([desc], [], desc, end);
      assert [desc] + [] == [desc];
      InOrderAfter([desc], " ", desc + end);
      InOrderThen([head], [desc], head, " " + (desc + end));
      assert [head] + [desc] == OptionSays(i, o);
      assert OptionText(i, o) == head + (" " + (desc + end));
    } else {
      assert OptionText(i, o) == head;
      assert OptionSays(i, o) == [head];
    }
  }

  lemma {:induction false} OptionsAreSaid(i: nat, options: seq<Choice>)
    ensures InOrder(OptionsSay(i, options), JoinSpace(OptionTexts(i, options)))
    ensures OptionTexts(i, options) == [] ==> OptionsSay(i, options) == []
    decreases |options|
  {
    hide OptionText, InOrder, Blank;
    if options == [] {
      Itself("");
    } else {
      var rest := OptionTexts(i + 1, options[1..]);
      OptionsAreSaid(i + 1, options[1..]);
      if options[0].title == "" {
        assert OptionsSay(i, options) == OptionsSay(i + 1, options[1..]);
        assert OptionTexts(i, options) == rest;
      } else {
        OptionIsSaid(i, options[0]);
        hide OptionSays;
        var first := OptionText(i, options[0]);
        assert OptionTexts(i, options) == [first] + rest;
        JoinedFirst(first, rest);
        if rest == [] {
          assert OptionsSay(i, options) == OptionSays(i, options[0]);
        } else {
          InOrderAfter(OptionsSay(i + 1, options[1..]), " ", JoinSpace(rest));
          InOrderThen(OptionSays(i, options[0]), OptionsSay(i + 1, options[1..]), first, " " + JoinSpace(rest));
        }
      }
    }
  }

  lemma {:induction false} JoinedFirst(first: string, rest: seq<string>)
    ensures JoinSpace([first] + rest) == if rest == [] then first else first + (" " + JoinSpace(rest))
  {
    assert ([first] + rest)[1..] == rest;
  }

  lemma {:induction false} HeadIsSaid(text: string, multi: bool)
    ensures InOrder(Said(text) + (if multi then [MultiNote()] else []), Head(Trim(text), multi))
    ensures Head(Trim(text), multi) == "" ==> !multi && Said(text) == []
  {
    hide Trim, InOrder, MultiNote;
    NoteSays();
    var t, note := Trim(text), MultiNote();
    Itself(t);
    Itself(note);
    if multi {
      InOrderAfter([note], " ", note);
      InOrderThen(Said(text), [note], t, " " + note);
      assert t + (" " + note) == t + " " + note;
      assert [] + [note] == [note] && "" + note == note;
      assert Said(text) == [] ==> Head(t, multi) == note;
    } else {
      assert Said(text) + [] == Said(text);
    }
  }

  lemma {:induction false} NoteSays()
    ensures MultiNote() != ""
  {
  }

  /** A question says its text, that several may be picked when they may, and each option with a label: its number as
      the host shows it, the label, the description; in that order. */
  lemma {:induction false} QuestionSays(text: string, options: seq<Choice>, multi: bool)
    ensures InOrder(Said(text) + (if multi then [MultiNote()] else []) + OptionsSay(0, options),
                    QuestionText(text, options, multi))
  {
    hide Trim, InOrder, MultiNote, OptionTexts, OptionsSay, Said, Head, Blank;
    HeadIsSaid(text, multi);
    OptionsAreSaid(0, options);
    var head, segs := Head(Trim(text), multi), OptionTexts(0, options);
    var said, more := Said(text) + (if multi then [MultiNote()] else []), OptionsSay(0, options);
    if segs == [] {
      assert said + more == said;
      Itself(QuestionText(text, options, multi));
      assert head == "" ==> said == [];
    } else {
      InOrderAfter(more, " ", JoinSpace(segs));
      InOrderThen(said, more, head, " " + JoinSpace(segs));
      assert head != "" ==> QuestionText(text, options, multi) == head + (" " + JoinSpace(segs));
      assert head == "" ==> said + more == more;
    }
  }

  /** The other wordings say what they are given: a plan that it is ready, a permission prompt its text, a question
      of a set its place before its text. */
  lemma {:induction false} OthersSay(text: string, k: nat, n: nat)
    ensures !Blank(text) ==> InOrder(["Plan ready.", Trim(text)], PlanText(text)) && PermissionText(text) == Trim(text)
    ensures InOrder(["Question " + Digits(k + 1) + " of " + Digits(n) + ".", text], NumberedQuestion(k, n, text))
  {
    hide InOrder, Digits, Blank, Trim;
    TrimmedIs(text);
    PairSays("Plan ready.", Trim(text));
    assert "Plan ready." + (" " + Trim(text)) == "Plan ready. " + Trim(text);
    var place := "Question " + Digits(k + 1) + " of " + Digits(n) + ".";
    PairSays(place, text);
    assert place + (" " + text) == "Question " + Digits(k + 1) + " of " + Digits(n) + ". " + text;
  }

  lemma {:induction false} PairSays(a: string, b: string)
    ensures InOrder([a, b], a + (" " + b))
  {
    hide InOrder;
    Itself(a);
    Itself(b);
    InOrderAfter([b], " ", b);
    InOrderThen([a], [b], a, " " + b);
    assert [a] + [b] == [a, b];
  }

  lemma {:induction false} JoinedInOrder(texts: seq<string>)
    ensures InOrder(texts, JoinSpace(texts))
  {
    hide InOrder;
    if texts == [] {
      Itself("");
    } else {
      Itself(texts[0]);
      JoinedInOrder(texts[1..]);
      JoinedFirst(texts[0], texts[1..]);
      assert [texts[0]] + texts[1..] == texts;
      if |texts| == 1 {
        assert texts == [texts[0]];
      } else {
        InOrderAfter(texts[1..], " ", JoinSpace(texts[1..]));
        InOrderThen([texts[0]], texts[1..], texts[0], " " + JoinSpace(texts[1..]));
      }
    }
  }

  /** The extras with something to read follow the text, each once, in order. */
  lemma {:induction false} ExtrasSay(base: string, extras: seq<string>)
    ensures base <= WithExtras(base, extras) && InOrder([base] + Worthwhile(extras), WithExtras(base, extras))
    ensures Worthwhile(extras) == [] ==> WithExtras(base, extras) == base
  {
    hide InOrder, Blank, Worthwhile;
    Itself(base);
    var worth := Worthwhile(extras);
    JoinedInOrder(worth);
    InOrderAfter(worth, " ", JoinSpace(worth));
    InOrderThen([base], worth, base, " " + JoinSpace(worth));
    assert base + (" " + JoinSpace(worth)) == base + " " + JoinSpace(worth);
    assert [base] + [] == [base];
  }

  /** Those are the ones that are not blank, trimmed. */
  lemma {:induction false} WorthwhileAre(extra: string, extras: seq<string>)
    ensures Worthwhile([extra] + extras) == (if Blank(extra) then [] else [Trim(extra)]) + Worthwhile(extras)
    ensures Worthwhile([]) == []
  {
    hide Trim, Blank;
    TrimmedIs(extra);
    assert ([extra] + extras)[1..] == extras;
  }

  /** A tool that runs. */
  function ToolText(name: string, summary: string): string {
    if Trim(summary) == "" then "Running " + Trim(name) + "." else Trim(summary)
  }

  // ---- The mark of spoken prose ----------------------------------------------

  const MARK: string := "\U{E002}"

  /** Prose in its spoken form is never blank: its mark is not white space. */
  lemma {:induction false} MarkedNotBlank(t: string)
    requires MARK <= t
    ensures !Blank(t)
  {
    assert t[0] == MARK[0];
  }
}
