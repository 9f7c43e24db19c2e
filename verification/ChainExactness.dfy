/** Which chains a medium or hard attempt can draw, and which of them it accepts: both exactly. */
module ChainExactness {
  import opened Sequences
  import opened QuestionWorld
  import opened QuestionSpec
  import opened QuestionTheorems
  import Rng
  import Text

  // ----- drawing -----

  const WORDS := 0x1_0000_0000

  /** A word that draws a given position from a list of that size. */
  function WordFor(n: nat, i: nat): (r: Rng.Word)
    requires i < n <= WORDS
    ensures Rng.Below(r, n) == i
  {
    var r := (i * WORDS + n - 1) / n;
    WordFits(n, i, r);
    r
  }

  lemma QuotientBelow(x: nat, n: nat, size: nat)
    requires n > 0 && x < n * size
    ensures x / n < size
  {
  }

  lemma WordFits(n: nat, i: nat, r: nat)
    requires i < n <= WORDS && r == (i * WORDS + n - 1) / n
    ensures r < WORDS && r * n / WORDS == i
  {
    var x := i * WORDS + n - 1;
    QuotientBelow(x, n, WORDS);
    assert r * n <= x < r * n + n;
    assert i * WORDS <= r * n < i * WORDS + WORDS;
  }

  /** A position at which an edge stands, or 0. */
  function PlaceOf(edges: seq<Edge>, e: Edge): (i: nat)
    ensures e in edges ==> i < |edges| && edges[i] == e
  {
    if edges == [] then 0
    else if edges[|edges| - 1] == e then |edges| - 1
    else
      assert edges == edges[..|edges| - 1] + [edges[|edges| - 1]];
      PlaceOf(edges[..|edges| - 1], e)
  }

  function WordAt(edges: seq<Edge>, e: Edge): (r: Rng.Word)
    ensures e in edges && |edges| <= WORDS ==> edges[Rng.Below(r, |edges|)] == e
  {
    if e in edges && |edges| <= WORDS then WordFor(|edges|, PlaceOf(edges, e)) else 0
  }

  lemma {:induction false} FilterShortens<T(!new)>(s: seq<T>, keep: T -> bool)
    ensures |Filter(s, keep)| <= |s|
  {
    if s != [] {
      FilterShortens(s[..|s| - 1], keep);
    }
  }

  lemma ContinuationsAreFew(w: World, c: Corpus, a: Edge, docs: seq<string>)
    requires Summarises(w, c)
    ensures |Continuations(w, a, docs)| <= |PositiveEdges(c)|
  {
    FilterShortens(At(w.startingAt, a.obj), OutsideOf(docs));
    FilterShortens(w.positive, StartsAt(a.obj));
  }

  lemma StartersAreFew(w: World, c: Corpus)
    requires Summarises(w, c)
    ensures |w.withSeconds| <= |PositiveEdges(c)| && |w.withThirds| <= |PositiveEdges(c)|
  {
    FilterShortens(w.positive, CanContinue(w.positive));
    FilterShortens(w.withSeconds, CanContinueTwice(w.positive));
  }

  function WordOf(w: World, tier: Tier, chain: seq<Edge>, k: nat): Rng.Word
    requires |chain| == (if tier.Hard? then 3 else 2)
  {
    if k == 0 then WordAt(if tier.Hard? then w.withThirds else w.withSeconds, chain[0])
    else if k == 1 then WordAt(Continuations(w, chain[0], [chain[0].docId]), chain[1])
    else WordAt(Continuations(w, chain[1], [chain[0].docId, chain[1].docId]), chain[|chain| - 1])
  }

  /** The words that draw a chain of two or three, from the first on. */
  function WordsFor(w: World, tier: Tier, chain: seq<Edge>): Rng.Stream
    requires |chain| == (if tier.Hard? then 3 else 2)
  {
    (k: nat) => WordOf(w, tier, chain, k)
  }

  /** The chains of a tier: connected, positive, in distinct documents, and never back to an entity already visited. */
  ghost predicate IsDrawable(c: Corpus, tier: Tier, chain: seq<Edge>) {
    && IsChain(c, chain) && |chain| == (if tier.Hard? then 3 else 2)
    && (tier.Hard? ==> chain[0].obj != chain[1].obj)
  }

  lemma Starts(w: World, c: Corpus, tier: Tier, chain: seq<Edge>)
    requires Summarises(w, c) && IsDrawable(c, tier, chain)
    ensures chain[0] in (if tier.Hard? then w.withThirds else w.withSeconds)
    ensures chain[1] in Continuations(w, chain[0], [chain[0].docId])
    ensures tier.Hard? ==> chain[2] in Continuations(w, chain[1], [chain[0].docId, chain[1].docId])
  {
    hide Summarises, PositiveEdges, Continuations;
    StartersExactly(w, c, chain[0]);
    ContinuationsAre(w, c, chain[0], [chain[0].docId]);
    assert GoesOnFrom(c, chain[0], chain[1]);
    if tier.Hard? {
      ContinuationsAre(w, c, chain[1], [chain[0].docId, chain[1].docId]);
      assert GoesOnFrom(c, chain[1], chain[2]);
    }
  }

  lemma ChosenPair(s: Setting, a: Edge, b: Edge)
    requires s.world.withSeconds != [] && PickEdge(s, 0, s.world.withSeconds) == a
    requires var seconds := Continuations(s.world, a, [a.docId]); seconds != [] && PickEdge(s, 1, seconds) == b
    requires a.subject != b.obj && b.obj != a.obj
    ensures var choice := ChooseMedium(s, 0); choice.Chosen? && choice.chain == [a, b]
  {
    hide PickEdge, Continuations, MediumWording;
  }

  lemma PairIsDrawn(s: Setting, c: Corpus, chain: seq<Edge>)
    requires Summarises(s.world, c) && IsDrawable(c, Medium, chain) && |PositiveEdges(c)| <= WORDS
    ensures var choice := ChooseMedium(s.(words := WordsFor(s.world, Medium, chain)), 0);
            choice.Chosen? && choice.chain == chain
  {
    hide Summarises, ChooseMedium, Continuations, WordAt, Rng.Below;
    Starts(s.world, c, Medium, chain);
    StartersAreFew(s.world, c);
    ContinuationsAreFew(s.world, c, chain[0], [chain[0].docId]);
    var s' := s.(words := WordsFor(s.world, Medium, chain));
    ChosenPair(s', chain[0], chain[1]);
    assert chain == [chain[0], chain[1]];
  }

  lemma ChosenTriple(s: Setting, a: Edge, b: Edge, e: Edge)
    requires s.world.withThirds != [] && PickEdge(s, 0, s.world.withThirds) == a
    requires var seconds := Continuations(s.world, a, [a.docId]); seconds != [] && PickEdge(s, 1, seconds) == b
    requires var thirds := Continuations(s.world, b, [a.docId, b.docId]); thirds != [] && PickEdge(s, 2, thirds) == e
    requires b.obj != a.obj && a.subject != e.obj && e.obj != b.obj && e.obj != a.obj
    ensures var choice := ChooseHard(s, 0); choice.Chosen? && choice.chain == [a, b, e]
  {
    hide PickEdge, Continuations, HardWording;
  }

  lemma TripleIsDrawn(s: Setting, c: Corpus, chain: seq<Edge>)
    requires Summarises(s.world, c) && IsDrawable(c, Hard, chain) && |PositiveEdges(c)| <= WORDS
    ensures var choice := ChooseHard(s.(words := WordsFor(s.world, Hard, chain)), 0);
            choice.Chosen? && choice.chain == chain
  {
    hide Summarises, ChooseHard, Continuations, WordAt, Rng.Below;
    Starts(s.world, c, Hard, chain);
    StartersAreFew(s.world, c);
    ContinuationsAreFew(s.world, c, chain[0], [chain[0].docId]);
    ContinuationsAreFew(s.world, c, chain[1], [chain[0].docId, chain[1].docId]);
    var s' := s.(words := WordsFor(s.world, Hard, chain));
    ChosenTriple(s', chain[0], chain[1], chain[2]);
    assert chain == [chain[0], chain[1], chain[2]];
  }

  ghost predicate Draws(s: Setting, tier: Tier, words: Rng.Stream, drawn: nat, chain: seq<Edge>) {
    var choice := Choose(s.(words := words), tier, drawn); choice.Chosen? && choice.chain == chain
  }

  lemma DrawnIsDrawable(s: Setting, c: Corpus, tier: Tier, words: Rng.Stream, drawn: nat, chain: seq<Edge>)
    requires Summarises(s.world, c) && MultiHop(tier) && Draws(s, tier, words, drawn, chain)
    ensures IsDrawable(c, tier, chain)
  {
    hide Summarises, IsChain;
    ChoiceIsChain(s.(words := words), c, tier, drawn);
  }

  /**
   * Main result: the chains that some random stream draws are exactly the chains of the tier; none is out of reach, and
   * nothing else is drawn.
   */
  lemma DrawableExactly(s: Setting, c: Corpus, tier: Tier, chain: seq<Edge>)
    requires Summarises(s.world, c) && MultiHop(tier) && |PositiveEdges(c)| <= WORDS
    ensures (exists words, drawn :: Draws(s, tier, words, drawn, chain)) <==> IsDrawable(c, tier, chain)
  {
    hide Summarises, IsDrawable, ChooseHard, ChooseMedium;
    if words, drawn :| Draws(s, tier, words, drawn, chain) {
      DrawnIsDrawable(s, c, tier, words, drawn, chain);
    }
    if IsDrawable(c, tier, chain) {
      if tier.Hard? {
        TripleIsDrawn(s, c, chain);
      } else {
        PairIsDrawn(s, c, chain);
      }
      DrawableHasLength(c, tier, chain);
      assert Draws(s, tier, WordsFor(s.world, tier, chain), 0, chain);
    }
  }

  lemma DrawableHasLength(c: Corpus, tier: Tier, chain: seq<Edge>)
    requires IsDrawable(c, tier, chain)
    ensures |chain| == (if tier.Hard? then 3 else 2)
  {
  }

  /** What the third edge of a hard chain could be, once two were picked. */
  ghost predicate GoesOnTwice(c: Corpus, a: Edge, b: Edge) {
    exists e :: GoesOnFrom(c, b, e) && e.docId != a.docId
  }

  lemma StarterGoesOn(w: World, c: Corpus, a: Edge)
    requires Summarises(w, c) && a in w.withSeconds
    ensures Continuations(w, a, [a.docId]) != []
  {
    hide Summarises, PositiveEdges, Continuations;
    StartersExactly(w, c, a);
    ContinuationsAre(w, c, a, [a.docId]);
    var b :| GoesOnFrom(c, a, b);
    assert b in Continuations(w, a, [a.docId]);
  }

  lemma GoesOnTwiceExactly(w: World, c: Corpus, a: Edge, b: Edge)
    requires Summarises(w, c)
    ensures GoesOnTwice(c, a, b) <==> Continuations(w, b, [a.docId, b.docId]) != []
  {
    var thirds := Continuations(w, b, [a.docId, b.docId]);
    ContinuationsAre(w, c, b, [a.docId, b.docId]);
    if thirds != [] {
      assert thirds[0] in thirds;
      assert GoesOnFrom(c, b, thirds[0]);
    }
    if e :| GoesOnFrom(c, b, e) && e.docId != a.docId {
      assert e in thirds;
    }
  }

  /**
   * A chain that is abandoned took two draws, or three when it was hard and a third edge could be picked: the exit
   * for a first edge that nothing follows never runs.
   */
  lemma DeadEndDraws(s: Setting, c: Corpus, tier: Tier, drawn: nat)
    requires Summarises(s.world, c) && MultiHop(tier) && Choose(s, tier, drawn).DeadEnd?
    ensures var w := s.world;
            var a := PickEdge(s, drawn, if tier.Hard? then w.withThirds else w.withSeconds);
            && Continuations(w, a, [a.docId]) != []
            && var b := PickEdge(s, drawn + 1, Continuations(w, a, [a.docId]));
               Choose(s, tier, drawn).drawn
               == drawn + if tier.Hard? && a.obj != b.obj && GoesOnTwice(c, a, b) then 3 else 2
  {
    hide Summarises, Continuations, GoesOnTwice, HardWording, MediumWording, Rng.Below;
    var w := s.world;
    var a := PickEdge(s, drawn, if tier.Hard? then w.withThirds else w.withSeconds);
    ThirdsAreSeconds(w, c);
    StarterGoesOn(w, c, a);
    GoesOnTwiceExactly(w, c, a, PickEdge(s, drawn + 1, Continuations(w, a, [a.docId])));
  }

  lemma ThirdsAreSeconds(w: World, c: Corpus)
    requires Summarises(w, c)
    ensures forall a :: a in w.withThirds ==> a in w.withSeconds
  {
  }

  // ----- accepting -----

  lemma {:induction false} LocalIsMinimal(w: World, c: Corpus, chain: seq<Edge>)
    requires ListsMentions(w, c) && chain != [] && IsLocal(c, chain)
    requires forall i, j :: 0 <= i < j < |chain| ==> chain[i].docId != chain[j].docId
    ensures IsMinimal(Hops(w, chain), At(w.docsForEntity, chain[|chain| - 1].obj))
  {
    HopsAt(w, chain);
    var last := chain[|chain| - 1].obj;
    forall i | 0 <= i < |chain| - 1 ensures chain[i].docId !in MentionDocs(c.docs, c.names, last) {
      if chain[i].docId in MentionDocs(c.docs, c.names, last) {
        var d := ListedMentions(c.docs, c.names, last, chain[i].docId);
      }
    }
  }

  /** The key a chain is remembered under names its tier and the entities it passes. */
  function KeyOf(tier: Tier, chain: seq<Edge>): string
    requires |chain| == (if tier.Hard? then 3 else 2)
  {
    if tier.Hard? then
      "hard|" + chain[0].subject + "|" + chain[0].obj + "|" + chain[1].obj + "|" + chain[2].obj
    else "medium|" + chain[0].subject + "|" + chain[0].obj + "|" + chain[1].obj
  }

  /**
   * What a drawn chain must meet: its answer has a usable name, is in no earlier document, and was not asked before.
   */
  ghost predicate Deserves(s: Setting, c: Corpus, used: set<string>, tier: Tier, chain: seq<Edge>)
    requires |chain| == (if tier.Hard? then 3 else 2)
  {
    var last := chain[|chain| - 1].obj;
    && IsResolvable(s.world, last)
    && (forall d, i :: 0 <= i < |chain| - 1 && d in c.docs && d.id == chain[i].docId ==> !Mentions(d, c.names, last))
    && KeyOf(tier, chain) !in used
    && |CanonicalAnswer(s.world, last)| >= 5 && !s.common(CanonicalAnswer(s.world, last))
  }

  lemma {:induction false} KeyIsRoute(tier: Tier, chain: seq<Edge>)
    requires MultiHop(tier) && |chain| == (if tier.Hard? then 3 else 2)
    ensures Key(Prefix(tier), Route(chain)) == KeyOf(tier, chain)
  {
    hide Key, Route;
    if tier.Hard? {
      RouteOfPair(chain[..2]);
      RouteSnoc(chain);
      KeyOfThree("hard", chain[0].subject, chain[0].obj, chain[1].obj);
      KeySnoc("hard", [chain[0].subject, chain[0].obj, chain[1].obj], chain[2].obj);
    } else {
      RouteOfPair(chain);
      KeyOfThree("medium", chain[0].subject, chain[0].obj, chain[1].obj);
    }
  }

  lemma {:induction false} RouteSnoc(chain: seq<Edge>)
    requires |chain| == 3
    ensures Route(chain) == Route(chain[..2]) + [chain[2].obj]
  {
  }

  lemma {:induction false} RouteOfPair(chain: seq<Edge>)
    requires |chain| == 2
    ensures Route(chain) == [chain[0].subject, chain[0].obj, chain[1].obj]
  {
    assert chain[..1] == [chain[0]];
  }

  lemma {:induction false} KeySnoc(prefix: string, route: seq<string>, name: string)
    ensures Key(prefix, route + [name]) == Key(prefix, route) + "|" + name
  {
    assert (route + [name])[..|route|] == route;
  }

  lemma {:induction false} KeyOfTwo(prefix: string, a: string, b: string)
    ensures Key(prefix, [a, b]) == prefix + "|" + a + "|" + b
  {
    KeySnoc(prefix, [], a);
    KeySnoc(prefix, [a], b);
    assert [] + [a] == [a] && [a] + [b] == [a, b];
  }

  lemma {:induction false} KeyOfThree(prefix: string, a: string, b: string, c: string)
    ensures Key(prefix, [a, b, c]) == prefix + "|" + a + "|" + b + "|" + c
  {
    hide Key;
    KeyOfTwo(prefix, a, b);
    KeySnoc(prefix, [a, b], c);
    assert [a, b] + [c] == [a, b, c];
  }

  lemma AcceptableExactly(s: Setting, c: Corpus, used: set<string>, tier: Tier, chain: seq<Edge>)
    requires Summarises(s.world, c) && MultiHop(tier) && IsDrawable(c, tier, chain)
    ensures IsAcceptable(s, used, tier, chain) <==> Deserves(s, c, used, tier, chain)
  {
    hide Mentions, IsResolvable, Key, KeyOf, Route, IsMinimal;
    KeyIsRoute(tier, chain);
    if IsAcceptable(s, used, tier, chain) {
      MinimalIsLocal(s.world, c, chain);
    }
    if Deserves(s, c, used, tier, chain) {
      LocalIsMinimal(s.world, c, chain);
    }
  }

  lemma ChosenDraws(s: Setting, tier: Tier, drawn: nat)
    requires MultiHop(tier) && Choose(s, tier, drawn).Chosen?
    ensures var choice := Choose(s, tier, drawn);
            |choice.chain| == (if tier.Hard? then 3 else 2) && choice.drawn == drawn + |choice.chain|
  {
    hide MediumWording, HardWording, Continuations;
  }

  /** A chain that was drawn becomes a question exactly when it deserves to; otherwise nothing is used up. */
  lemma AttemptExactly(s: Setting, c: Corpus, tier: Tier, st: Progress, number: nat)
    requires Summarises(s.world, c) && MultiHop(tier) && Choose(s, tier, st.drawn).Chosen?
    ensures var chain, r := Choose(s, tier, st.drawn).chain, Attempt(s, tier, st, number);
            && |chain| == (if tier.Hard? then 3 else 2) && !r.Crashed? && r.st.drawn == st.drawn + |chain|
            && (r.Made? <==> Deserves(s, c, st.used, tier, chain))
            && r.st.used == st.used + (if r.Made? then {KeyOf(tier, chain)} else {})
            && (r.Made? ==> r.made.question.number == number && r.made.question.submechanism == "")
  {
    hide Summarises, Deserves, IsAcceptable, Key, KeyOf, Route, Choose, IsDrawable;
    var chain := Choose(s, tier, st.drawn).chain;
    ChosenDraws(s, tier, st.drawn);
    assert Draws(s, tier, s.words, st.drawn, chain);
    DrawnIsDrawable(s, c, tier, s.words, st.drawn, chain);
    AcceptableExactly(s, c, st.used, tier, chain);
    KeyIsRoute(tier, chain);
  }

  // ----- names -----

  /** The name of a day: `day-` in any case and then digits. */
  ghost predicate NamesDay(id: string) {
    && |id| >= 5 && id[0] in "dD" && id[1] in "aA" && id[2] in "yY" && id[3] == '-'
    && forall i :: 4 <= i < |id| ==> id[i] in "0123456789"
  }

  /** An entity can be an answer exactly when it has a name of its own, five characters long, and is not a day. */
  lemma ResolvableExactly(w: World, id: string)
    ensures IsResolvable(w, id) <==> id in w.names && |w.names[id]| > 4 && w.names[id] != id && !NamesDay(id)
  {
    if |id| > 4 {
      var head := Text.Lower(id)[..4];
      assert head == [Text.LowerChar(id[0]), Text.LowerChar(id[1]), Text.LowerChar(id[2]), Text.LowerChar(id[3])];
      assert head == "day-" <==> head[0] == 'd' && head[1] == 'a' && head[2] == 'y' && head[3] == '-';
      forall i | 4 <= i < |id| ensures '0' <= id[i] <= '9' <==> id[i] in "0123456789" {
        DigitsAre(id[i]);
      }
    }
  }

  lemma DigitsAre(ch: char)
    ensures '0' <= ch <= '9' <==> ch in "0123456789"
  {
    if '0' <= ch <= '9' {
      assert "0123456789"[ch as int - '0' as int] == ch;
    }
  }
}
