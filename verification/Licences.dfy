/**
 The licence election of the notices generator: a recursive-descent parser over the tokens of an
 SPDX expression that decides while it parses. `Expr` is the grammar, `Elected` the election on the
 tree, `Satisfies` the meaning of AND and OR; the class `Parser` is the generator's own code, with
 its shared position.
 */
module Licences {
  import opened Options

  // The accepted licences, the preferred ones first.
  const PREFERENCE: seq<string> :=
    ["MIT", "Apache-2.0", "BSD-3-Clause", "BSD-2-Clause", "ISC", "Zlib", "Unicode-3.0", "Unicode-DFS-2016"]

  predicate Allowed(id: string) {
    id in PREFERENCE
  }

  function Position(s: seq<string>, id: string): (i: nat)
    requires id in s
    ensures i < |s| && s[i] == id
    ensures forall k :: 0 <= k < i ==> s[k] != id
  {
    if s[0] == id then 0 else 1 + Position(s[1..], id)
  }

  function Rank(id: string): (i: nat)
    requires Allowed(id)
    ensures i < |PREFERENCE| && PREFERENCE[i] == id
  {
    Position(PREFERENCE, id)
  }

  predicate AllAllowed(ids: seq<string>) {
    forall i :: 0 <= i < |ids| ==> Allowed(ids[i])
  }

  function Ranks(ids: seq<string>): (r: seq<nat>)
    requires AllAllowed(ids)
    ensures |r| == |ids|
  {
    if ids == [] then [] else [Rank(ids[0])] + Ranks(ids[1..])
  }

  /** The order of lists: the first difference decides, a prefix is smaller. */
  predicate Below(a: seq<nat>, b: seq<nat>) {
    if a == [] then b != []
    else b != [] && (a[0] < b[0] || (a[0] == b[0] && Below(a[1..], b[1..])))
  }

  lemma {:induction false} BelowIsTransitive(a: seq<nat>, b: seq<nat>, c: seq<nat>)
    requires Below(a, b) && Below(b, c)
    ensures Below(a, c)
  {
    if a != [] && a[0] == b[0] && b[0] == c[0] {
      BelowIsTransitive(a[1..], b[1..], c[1..]);
    }
  }

  lemma {:induction false} BelowIsStrict(a: seq<nat>, b: seq<nat>)
    requires Below(a, b)
    ensures !Below(b, a)
  {
    if a != [] && a[0] == b[0] {
      BelowIsStrict(a[1..], b[1..]);
    }
  }

  // ---- What the parser does at one OR level -------------------------------

  // A raised error: no alternative is allowed, or the tokens end too soon.
  datatype Outcome = Chosen(ids: seq<string>) | NoAllowed | OutOfTokens

  /** The first of the allowed options whose ranks are least. */
  function Best(options: seq<seq<string>>): (r: Option<seq<string>>)
    ensures r.Some? ==> r.value in options && AllAllowed(r.value)
  {
    if options == [] then None else
      var last := options[|options| - 1];
      match Best(options[..|options| - 1])
      case None => if AllAllowed(last) then Some(last) else None
      case Some(b) => if AllAllowed(last) && Below(Ranks(last), Ranks(b)) then Some(last) else Some(b)
  }

  /** An option is found exactly when one is allowed, and none allowed beats it. */
  lemma {:induction false} BestIsLeast(options: seq<seq<string>>)
    ensures Best(options).None? <==> forall o :: o in options ==> !AllAllowed(o)
    ensures Best(options).Some? ==>
              forall o :: o in options && AllAllowed(o) ==> !Below(Ranks(o), Ranks(Best(options).value))
  {
    if options != [] {
      var init, last := options[..|options| - 1], options[|options| - 1];
      assert options == init + [last];
      BestIsLeast(init);
      if AllAllowed(last) && Best(init).Some? {
        var b := Best(init).value;
        forall o | o in options && AllAllowed(o)
          ensures !Below(Ranks(o), Ranks(Best(options).value))
        {
          LeastOfTwo(Ranks(o), Ranks(b), Ranks(last));
          if o !in init {
            assert o == last;
            LeastOfTwo(Ranks(last), Ranks(last), Ranks(last));
          }
        }
      } else if AllAllowed(last) {
        LeastOfTwo(Ranks(last), Ranks(last), Ranks(last));
      }
    }
  }

  lemma {:induction false} LeastOfTwo(o: seq<nat>, b: seq<nat>, last: seq<nat>)
    ensures !Below(o, b) && Below(last, b) ==> !Below(o, last)
    ensures !Below(last, last)
  {
    if Below(o, last) && Below(last, b) {
      BelowIsTransitive(o, last, b);
    }
    if Below(last, last) {
      BelowIsStrict(last, last);
    }
  }

  function Pick(options: seq<seq<string>>, pos: nat): (Outcome, nat) {
    match Best(options)
    case Some(b) => (Chosen(b), pos)
    case None => (NoAllowed, pos)
  }

  // ---- The parser as functions of the position ----------------------------

  function Left(toks: seq<string>, pos: nat): nat {
    if pos < |toks| then |toks| - pos else 0
  }

  function ParseOr(toks: seq<string>, pos: nat): (r: (Outcome, nat))
    ensures r.0.Chosen? ==> r.1 > pos && pos < |toks|
    decreases Left(toks, pos), 3
  {
    match ParseAnd(toks, pos)
    case (Chosen(ids), p) => ParseAlternatives(toks, p, [ids])
    case error => error
  }

  function ParseAlternatives(toks: seq<string>, pos: nat, options: seq<seq<string>>): (r: (Outcome, nat))
    ensures r.0.Chosen? ==> r.1 >= pos
    decreases Left(toks, pos), 4
  {
    if pos < |toks| && toks[pos] == "OR" then
      match ParseAnd(toks, pos + 1)
      case (Chosen(ids), p) => ParseAlternatives(toks, p, options + [ids])
      case error => error
    else Pick(options, pos)
  }

  function ParseAnd(toks: seq<string>, pos: nat): (r: (Outcome, nat))
    ensures r.0.Chosen? ==> r.1 > pos && pos < |toks|
    decreases Left(toks, pos), 1
  {
    match ParseTerm(toks, pos)
    case (Chosen(ids), p) => ParseTerms(toks, p, ids)
    case error => error
  }

  function ParseTerms(toks: seq<string>, pos: nat, terms: seq<string>): (r: (Outcome, nat))
    ensures r.0.Chosen? ==> r.1 >= pos
    decreases Left(toks, pos), 2
  {
    if pos < |toks| && toks[pos] == "AND" then
      match ParseTerm(toks, pos + 1)
      case (Chosen(ids), p) => ParseTerms(toks, p, terms + ids)
      case error => error
    else (Chosen(terms), pos)
  }

  function ParseTerm(toks: seq<string>, pos: nat): (r: (Outcome, nat))
    ensures r.0.Chosen? ==> r.1 > pos && pos < |toks|
    decreases Left(toks, pos), 0
  {
    if pos >= |toks| then (OutOfTokens, pos)
    else if toks[pos] == "(" then
      match ParseOr(toks, pos + 1)
      case (Chosen(ids), p) => (Chosen(ids), p + 1)
      case error => error
    else (Chosen([toks[pos]]), pos + 1)
  }

  // ---- Expressions and their meaning --------------------------------------

  // AND binds tighter than OR, parentheses group (Annex D of the SPDX 2.3 specification).
  datatype Expr = One(first: Conj) | Or(first: Conj, rest: Expr)
  datatype Conj = Lone(term: Term) | And(term: Term, rest: Conj)
  datatype Term = Licence(id: string) | Group(expr: Expr)

  predicate Word(id: string) {
    id != "OR" && id != "AND" && id != "(" && id != ")"
  }

  predicate Worded(e: Expr) {
    WordedConj(e.first) && (e.Or? ==> Worded(e.rest))
  }

  predicate WordedConj(c: Conj) {
    WordedTerm(c.term) && (c.And? ==> WordedConj(c.rest))
  }

  predicate WordedTerm(t: Term) {
    match t
    case Licence(id) => Word(id)
    case Group(e) => Worded(e)
  }

  function Tokens(e: Expr): seq<string>
    decreases e, 1
  {
    ConjTokens(e.first) + AfterConj(e)
  }

  function AfterConj(e: Expr): seq<string>
    decreases e, 0
  {
    match e
    case One(_) => []
    case Or(_, rest) => ["OR"] + Tokens(rest)
  }

  function ConjTokens(c: Conj): seq<string>
    decreases c, 1
  {
    TermTokens(c.term) + AfterTerm(c)
  }

  function AfterTerm(c: Conj): seq<string>
    decreases c, 0
  {
    match c
    case Lone(_) => []
    case And(_, rest) => ["AND"] + ConjTokens(rest)
  }

  function TermTokens(t: Term): seq<string> {
    match t
    case Licence(id) => [id]
    case Group(e) => ["("] + (Tokens(e) + [")"])
  }

  /** Accepting the licences in `ids` meets the expression: one alternative of an OR, every term of
      an AND. */
  predicate Satisfies(ids: set<string>, e: Expr) {
    SatisfiesConj(ids, e.first) || (e.Or? && Satisfies(ids, e.rest))
  }

  predicate SatisfiesConj(ids: set<string>, c: Conj) {
    SatisfiesTerm(ids, c.term) && (c.And? ==> SatisfiesConj(ids, c.rest))
  }

  predicate SatisfiesTerm(ids: set<string>, t: Term) {
    match t
    case Licence(id) => id in ids
    case Group(e) => Satisfies(ids, e)
  }

  /** At every OR level, also inside groups that are not chosen, some alternative has only allowed
      licences outside its own groups. */
  predicate Electable(e: Expr)
    decreases e, 1
  {
    SomeDirect(e) && ElectableGroups(e)
  }

  predicate SomeDirect(e: Expr) {
    DirectAllowed(e.first) || (e.Or? && SomeDirect(e.rest))
  }

  predicate ElectableGroups(e: Expr)
    decreases e, 0
  {
    ElectableConj(e.first) && (e.Or? ==> ElectableGroups(e.rest))
  }

  predicate DirectAllowed(c: Conj) {
    (c.term.Licence? ==> Allowed(c.term.id)) && (c.And? ==> DirectAllowed(c.rest))
  }

  predicate ElectableConj(c: Conj) {
    (c.term.Group? ==> Electable(c.term.expr)) && (c.And? ==> ElectableConj(c.rest))
  }

  // ---- The election on the tree -------------------------------------------

  /** What each alternative of `e` asks for, its groups decided. */
  function Alternatives(e: Expr): (r: seq<seq<string>>)
    requires ElectableGroups(e)
    ensures r != []
    decreases e, 1
  {
    match e
    case One(c) => [Terms(c)]
    case Or(c, rest) => [Terms(c)] + Alternatives(rest)
  }

  predicate TermElectable(t: Term) {
    t.Group? ==> Electable(t.expr)
  }

  function TermIds(t: Term): (r: seq<string>)
    requires TermElectable(t)
    ensures r != []
    ensures AllAllowed(r) <==> (t.Licence? ==> Allowed(t.id))
    decreases t, 0
  {
    match t
    case Licence(id) => assert [id][0] == id; [id]
    case Group(e) => Elected(e)
  }

  function Terms(c: Conj): (r: seq<string>)
    requires ElectableConj(c)
    ensures r != []
    ensures AllAllowed(r) <==> DirectAllowed(c)
    decreases c, 0
  {
    match c
    case Lone(t) => TermIds(t)
    case And(t, rest) => AllAllowedBoth(TermIds(t), Terms(rest)); TermIds(t) + Terms(rest)
  }

  lemma {:induction false} AllAllowedBoth(a: seq<string>, b: seq<string>)
    ensures AllAllowed(a + b) <==> AllAllowed(a) && AllAllowed(b)
  {
    forall k | 0 <= k < |a| ensures (a + b)[k] == a[k] {}
    forall k | 0 <= k < |b| ensures (a + b)[|a| + k] == b[k] {}
  }

  lemma {:induction false} SomeOptionAllowed(e: Expr)
    requires ElectableGroups(e)
    ensures SomeDirect(e) <==> exists o :: o in Alternatives(e) && AllAllowed(o)
    decreases e, 2
  {
    assert Terms(e.first) in Alternatives(e);
    if e.Or? {
      SomeOptionAllowed(e.rest);
      if SomeDirect(e.rest) {
        var o :| o in Alternatives(e.rest) && AllAllowed(o);
        assert o in Alternatives(e);
      }
    }
  }

  function Elected(e: Expr): (r: seq<string>)
    requires Electable(e)
    ensures r != [] && AllAllowed(r)
    decreases e, 3
  {
    SomeOptionAllowed(e);
    BestIsLeast(Alternatives(e));
    AllOptionsNonEmpty(e);
    Best(Alternatives(e)).value
  }

  lemma {:induction false} AllOptionsNonEmpty(e: Expr)
    requires ElectableGroups(e)
    ensures forall o :: o in Alternatives(e) ==> o != []
    decreases e, 2
  {
    if e.Or? {
      AllOptionsNonEmpty(e.rest);
    }
  }

  // ---- The parser decides the tree ----------------------------------------

  ghost predicate At(toks: seq<string>, pos: nat, part: seq<string>) {
    pos + |part| <= |toks| && toks[pos..pos + |part|] == part
  }

  lemma {:induction false} AtBoth(toks: seq<string>, pos: nat, a: seq<string>, b: seq<string>)
    requires At(toks, pos, a + b)
    ensures At(toks, pos, a) && At(toks, pos + |a|, b)
    ensures a != [] ==> toks[pos] == a[0]
  {
    var part := toks[pos..pos + |a + b|];
    assert a == part[..|a|] && b == part[|a|..];
  }

  lemma {:induction false} AtOne(toks: seq<string>, pos: nat, tok: string)
    requires At(toks, pos, [tok])
    ensures pos < |toks| && toks[pos] == tok
  {
  }

  predicate Ends(toks: seq<string>, pos: nat) {
    pos >= |toks| || (toks[pos] != "OR" && toks[pos] != "AND")
  }

  lemma {:induction false} TermDecides(t: Term, toks: seq<string>, pos: nat)
    requires WordedTerm(t) && At(toks, pos, TermTokens(t))
    ensures TermElectable(t) ==> ParseTerm(toks, pos) == (Chosen(TermIds(t)), pos + |TermTokens(t)|)
    ensures !TermElectable(t) ==> ParseTerm(toks, pos).0 == NoAllowed
    decreases t, 0
  {
    hide At, ParseOr, ParseTerms, ParseAnd, ParseAlternatives, Elected, Best;
    match t
    case Licence(id) => AtOne(toks, pos, id);
    case Group(e) =>
      AtBoth(toks, pos, ["("], Tokens(e) + [")"]);
      AtBoth(toks, pos + 1, Tokens(e), [")"]);
      AtOne(toks, pos + 1 + |Tokens(e)|, ")");
      OrDecides(e, toks, pos + 1);
  }

  lemma {:induction false} AndDecides(c: Conj, toks: seq<string>, pos: nat)
    requires WordedConj(c) && At(toks, pos, ConjTokens(c))
    requires pos + |ConjTokens(c)| < |toks| ==> toks[pos + |ConjTokens(c)|] != "AND"
    ensures ElectableConj(c) ==> ParseAnd(toks, pos) == (Chosen(Terms(c)), pos + |ConjTokens(c)|)
    ensures !ElectableConj(c) ==> ParseAnd(toks, pos).0 == NoAllowed
    decreases c, 1
  {
    hide At, ParseOr, ParseTerm, ParseTerms, ParseAlternatives, Elected, Best, WordedTerm, TermTokens, TermIds;
    AtBoth(toks, pos, TermTokens(c.term), AfterTerm(c));
    TermDecides(c.term, toks, pos);
    if TermElectable(c.term) {
      var ids := TermIds(c.term);
      TermsDecide(c, toks, pos + |TermTokens(c.term)|, ids);
    }
  }

  lemma {:induction false} TermsDecide(c: Conj, toks: seq<string>, pos: nat, ids: seq<string>)
    requires WordedConj(c) && At(toks, pos, AfterTerm(c))
    requires pos + |AfterTerm(c)| < |toks| ==> toks[pos + |AfterTerm(c)|] != "AND"
    ensures c.Lone? ==> ParseTerms(toks, pos, ids) == (Chosen(ids), pos)
    ensures c.And? && ElectableConj(c.rest) ==>
              ParseTerms(toks, pos, ids) == (Chosen(ids + Terms(c.rest)), pos + |AfterTerm(c)|)
    ensures c.And? && !ElectableConj(c.rest) ==> ParseTerms(toks, pos, ids).0 == NoAllowed
    decreases c, 0
  {
    hide At, ParseOr, ParseAnd, ParseTerm, ParseAlternatives, Elected, Best, WordedTerm, TermTokens, TermIds;
    if c.And? {
      var c' := c.rest;
      AtBoth(toks, pos, ["AND"], ConjTokens(c'));
      AtBoth(toks, pos + 1, TermTokens(c'.term), AfterTerm(c'));
      TermDecides(c'.term, toks, pos + 1);
      if TermElectable(c'.term) {
        var more := TermIds(c'.term);
        TermsDecide(c', toks, pos + 1 + |TermTokens(c'.term)|, ids + more);
        if c'.And? && ElectableConj(c'.rest) {
          assert ids + more + Terms(c'.rest) == ids + (more + Terms(c'.rest));
        }
      }
    }
  }

  lemma {:induction false} ElectedIsPicked(e: Expr, pos: nat)
    requires ElectableGroups(e)
    ensures Electable(e) ==> Pick(Alternatives(e), pos) == (Chosen(Elected(e)), pos)
    ensures !Electable(e) ==> Pick(Alternatives(e), pos) == (NoAllowed, pos)
  {
    BestIsLeast(Alternatives(e));
    SomeOptionAllowed(e);
  }

  lemma {:induction false} Levels(e: Expr)
    ensures Electable(e) ==> ElectableGroups(e)
    ensures ElectableGroups(e) <==> ElectableConj(e.first) && (e.Or? ==> ElectableGroups(e.rest))
  {
  }

  /** The parser reads exactly the tokens of the expression and elects as the tree does; it raises
      exactly when some OR level has nothing allowed. */
  lemma {:induction false} OrDecides(e: Expr, toks: seq<string>, pos: nat)
    requires Worded(e) && At(toks, pos, Tokens(e)) && Ends(toks, pos + |Tokens(e)|)
    ensures Electable(e) ==> ParseOr(toks, pos) == (Chosen(Elected(e)), pos + |Tokens(e)|)
    ensures !Electable(e) ==> ParseOr(toks, pos).0 == NoAllowed
    decreases e, 3
  {
    hide At, Pick, ParseTerm, ParseTerms, ParseAlternatives, ParseAnd, WordedConj, ConjTokens;
    hide Electable, ElectableGroups, ElectableConj, Elected, Terms;
    Levels(e);
    AtBoth(toks, pos, ConjTokens(e.first), AfterConj(e));
    if e.Or? {
      AtBoth(toks, pos + |ConjTokens(e.first)|, ["OR"], Tokens(e.rest));
    }
    AndDecides(e.first, toks, pos);
    if ElectableConj(e.first) {
      var p := pos + |ConjTokens(e.first)|;
      AlternativesDecide(e, toks, p, [Terms(e.first)]);
      if ElectableGroups(e) {
        assert e.One? ==> Alternatives(e) == [Terms(e.first)];
        ElectedIsPicked(e, pos + |Tokens(e)|);
      }
    }
  }

  lemma {:induction false} AlternativesDecide(e: Expr, toks: seq<string>, pos: nat, options: seq<seq<string>>)
    requires Worded(e) && At(toks, pos, AfterConj(e)) && Ends(toks, pos + |AfterConj(e)|)
    ensures e.One? ==> ParseAlternatives(toks, pos, options) == Pick(options, pos)
    ensures e.Or? && ElectableGroups(e.rest) ==>
              ParseAlternatives(toks, pos, options) == Pick(options + Alternatives(e.rest), pos + |AfterConj(e)|)
    ensures e.Or? && !ElectableGroups(e.rest) ==> ParseAlternatives(toks, pos, options).0 == NoAllowed
    decreases e, 2
  {
    hide At, ParseOr, ParseAnd, ParseTerm, ParseTerms, Elected, Pick, WordedConj, ConjTokens;
    if e.Or? {
      var e' := e.rest;
      AtBoth(toks, pos, ["OR"], Tokens(e'));
      AtBoth(toks, pos + 1, ConjTokens(e'.first), AfterConj(e'));
      if e'.Or? {
        AtBoth(toks, pos + 1 + |ConjTokens(e'.first)|, ["OR"], Tokens(e'.rest));
      }
      AndDecides(e'.first, toks, pos + 1);
      if ElectableConj(e'.first) {
        var ids := Terms(e'.first);
        AlternativesDecide(e', toks, pos + 1 + |ConjTokens(e'.first)|, options + [ids]);
        if e'.Or? && ElectableGroups(e'.rest) {
          assert options + [ids] + Alternatives(e'.rest) == options + ([ids] + Alternatives(e'.rest));
        }
      }
    }
  }

  // ---- The election meets the expression ----------------------------------

  function Ids(ids: seq<string>): set<string> {
    set id | id in ids
  }

  lemma {:induction false} MoreSatisfies(a: set<string>, b: set<string>, e: Expr)
    requires a <= b && Satisfies(a, e)
    ensures Satisfies(b, e)
    decreases e, 1
  {
    if SatisfiesConj(a, e.first) {
      MoreSatisfiesConj(a, b, e.first);
    } else {
      MoreSatisfies(a, b, e.rest);
    }
  }

  lemma {:induction false} MoreSatisfiesConj(a: set<string>, b: set<string>, c: Conj)
    requires a <= b && SatisfiesConj(a, c)
    ensures SatisfiesConj(b, c)
    decreases c, 0
  {
    if c.term.Group? {
      MoreSatisfies(a, b, c.term.expr);
    }
    if c.And? {
      MoreSatisfiesConj(a, b, c.rest);
    }
  }

  lemma {:induction false} TermsSatisfy(c: Conj)
    requires ElectableConj(c)
    ensures SatisfiesConj(Ids(Terms(c)), c)
    decreases c, 0
  {
    var ids := TermIds(c.term);
    if c.term.Group? {
      ElectedSatisfies(c.term.expr);
    }
    if c.And? {
      TermsSatisfy(c.rest);
      assert Terms(c) == ids + Terms(c.rest);
      MoreSatisfiesConj(Ids(Terms(c.rest)), Ids(Terms(c)), c.rest);
      if c.term.Group? {
        MoreSatisfies(Ids(ids), Ids(Terms(c)), c.term.expr);
      }
    }
  }

  lemma {:induction false} AlternativeSatisfies(e: Expr, ids: seq<string>)
    requires ElectableGroups(e) && ids in Alternatives(e)
    ensures Satisfies(Ids(ids), e)
    decreases e, 1
  {
    if ids == Terms(e.first) {
      TermsSatisfy(e.first);
    } else {
      AlternativeSatisfies(e.rest, ids);
    }
  }

  lemma {:induction false} ElectedSatisfies(e: Expr)
    requires Electable(e)
    ensures Satisfies(Ids(Elected(e)), e)
    decreases e, 2
  {
    SomeOptionAllowed(e);
    BestIsLeast(Alternatives(e));
    AlternativeSatisfies(e, Elected(e));
  }

  // ---- The whole election -------------------------------------------------

  /** The licences of `ids` in order of preference, each once. */
  function Sorted(ids: seq<string>): (r: seq<string>)
    ensures forall i :: 0 <= i < |r| ==> Allowed(r[i]) && r[i] in ids
  {
    SortedFrom(ids, 0)
  }

  function SortedFrom(ids: seq<string>, k: nat): (r: seq<string>)
    requires k <= |PREFERENCE|
    ensures forall i :: 0 <= i < |r| ==> r[i] in PREFERENCE[k..] && r[i] in ids
    ensures forall p :: k <= p < |PREFERENCE| && PREFERENCE[p] in ids ==> PREFERENCE[p] in r
    decreases |PREFERENCE| - k
  {
    if k == |PREFERENCE| then []
    else if PREFERENCE[k] in ids then [PREFERENCE[k]] + SortedFrom(ids, k + 1)
    else SortedFrom(ids, k + 1)
  }

  /** Allowed licences in strictly rising rank, the first at least `k`: sorted, each once. */
  predicate Rising(ids: seq<string>, k: nat)
    decreases |ids|
  {
    ids != [] ==> Allowed(ids[0]) && Rank(ids[0]) >= k && Rising(ids[1..], Rank(ids[0]) + 1)
  }

  lemma {:induction false} SortedRises(ids: seq<string>, k: nat, from: nat)
    requires from <= k <= |PREFERENCE|
    ensures Rising(SortedFrom(ids, k), from)
    decreases |PREFERENCE| - k
  {
    if k < |PREFERENCE| {
      RankOf(k);
      if PREFERENCE[k] in ids {
        SortedRises(ids, k + 1, k + 1);
      } else {
        SortedRises(ids, k + 1, from);
      }
    }
  }

  lemma {:induction false} RankOf(k: nat)
    requires k < |PREFERENCE|
    ensures Rank(PREFERENCE[k]) == k
  {
    var r := Rank(PREFERENCE[k]);
    assert forall i, j :: 0 <= i < j < |PREFERENCE| ==> PREFERENCE[i] != PREFERENCE[j];
  }

  /** The licences relied on, or the error raised. */
  function Elect(toks: seq<string>): Outcome {
    match ParseOr(toks, 0).0
    case Chosen(ids) => Chosen(Sorted(ids))
    case error => error
  }

  /** On the tokens of an expression the election never runs out of tokens; it succeeds exactly
      when every OR level offers something allowed, and then it names only allowed licences, in
      order of preference, which together satisfy the expression. */
  lemma {:induction false} ElectionIsSound(e: Expr)
    requires Worded(e)
    ensures Electable(e) <==> Elect(Tokens(e)).Chosen?
    ensures !Electable(e) <==> Elect(Tokens(e)) == NoAllowed
    ensures Electable(e) ==>
              && ParseOr(Tokens(e), 0) == (Chosen(Elected(e)), |Tokens(e)|)
              && AllAllowed(Elect(Tokens(e)).ids)
              && Rising(Elect(Tokens(e)).ids, 0)
              && Ids(Elect(Tokens(e)).ids) == Ids(Elected(e))
              && Satisfies(Ids(Elect(Tokens(e)).ids), e)
  {
    hide ParseOr, Satisfies, Elected, Tokens, Electable;
    OrDecides(e, Tokens(e), 0);
    if Electable(e) {
      ElectedSatisfies(e);
      var ids := Elected(e);
      SortedKeeps(ids);
      SortedRises(ids, 0, 0);
    }
  }

  lemma {:induction false} SortedKeeps(ids: seq<string>)
    requires AllAllowed(ids)
    ensures Ids(Sorted(ids)) == Ids(ids)
  {
    forall i | 0 <= i < |ids| ensures ids[i] in Sorted(ids) {
      assert PREFERENCE[Rank(ids[i])] in ids;
    }
  }

  // ---- The generator's own code -------------------------------------------

  class Parser {
    const toks: seq<string>
    var pos: nat

    constructor (toks: seq<string>)
      ensures this.toks == toks && pos == 0
    {
      this.toks := toks;
      pos := 0;
    }

    method Or() returns (r: Outcome)
      modifies this
      ensures (r, pos) == ParseOr(toks, old(pos))
      decreases Left(toks, pos), 3
    {
      r := this.And();
      if !r.Chosen? {
        return;
      }
      var options := [r.ids];
      ghost var from := pos;
      while pos < |toks| && toks[pos] == "OR"
        invariant pos >= from > old(pos) && old(pos) < |toks|
        invariant ParseAlternatives(toks, pos, options) == ParseOr(toks, old(pos))
        decreases Left(toks, pos)
      {
        pos := pos + 1;
        r := this.And();
        if !r.Chosen? {
          return;
        }
        options := options + [r.ids];
      }
      match Best(options)
      case Some(b) => r := Chosen(b);
      case None => r := NoAllowed;
    }

    method And() returns (r: Outcome)
      modifies this
      ensures (r, pos) == ParseAnd(toks, old(pos))
      decreases Left(toks, pos), 1
    {
      r := Term();
      if !r.Chosen? {
        return;
      }
      var terms := r.ids;
      while pos < |toks| && toks[pos] == "AND"
        invariant pos > old(pos) && old(pos) < |toks|
        invariant ParseTerms(toks, pos, terms) == ParseAnd(toks, old(pos))
        decreases Left(toks, pos)
      {
        pos := pos + 1;
        r := Term();
        if !r.Chosen? {
          return;
        }
        terms := terms + r.ids;
      }
      r := Chosen(terms);
    }

    method Term() returns (r: Outcome)
      modifies this
      ensures (r, pos) == ParseTerm(toks, old(pos))
      decreases Left(toks, pos), 0
    {
      if pos >= |toks| {
        return OutOfTokens;
      }
      var tok := toks[pos];
      if tok == "(" {
        pos := pos + 1;
        r := this.Or();
        if r.Chosen? {
          pos := pos + 1;
        }
      } else {
        pos := pos + 1;
        r := Chosen([tok]);
      }
    }
  }

  method ElectLicences(toks: seq<string>) returns (r: Outcome)
    ensures r == Elect(toks)
  {
    var p := new Parser(toks);
    r := p.Or();
    if r.Chosen? {
      r := Chosen(Sorted(r.ids));
    }
  }
}
