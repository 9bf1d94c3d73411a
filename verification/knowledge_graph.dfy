/**
  The knowledge graph object: the recipe store, read and written as maps, and
  the three category queues (staple, vegetable, protein) kept as `heapq`
  lists of `PriorityRecipe` entries.  Covers queue construction, taking the
  top ten, re-heaping after a score change, the preference update and the
  recommendation entry point.
*/
module Recommender {
  import opened Wrappers
  import opened Heap
  import opened Nutrition
  import Search

  /** The graph's contents: each recipe's `preference_score` and `type`, its
      CONTAINS rows, and each ingredient's `preference_score`. */
  datatype Store = Store(
    recipeScore: map<string, real>,
    recipeKind: map<string, string>,
    contents: map<string, seq<IngredientLine>>,
    ingredientScore: map<string, real>)

  /** Every ingredient a recipe contains has a score, and no recipe lists the
      same ingredient twice. */
  ghost predicate WellFormed(st: Store)
  {
    (forall r, i :: r in st.contents && 0 <= i < |st.contents[r]| ==> st.contents[r][i].name in st.ingredientScore) &&
    (forall r, i, j :: r in st.contents && 0 <= i < j < |st.contents[r]| ==>
       st.contents[r][i].name != st.contents[r][j].name)
  }

  /** A recipe's `type` property; a recipe without one is not a staple. */
  function Kind(st: Store, name: string): string
  {
    if name in st.recipeKind then st.recipeKind[name] else ""
  }

  // ---------------------------------------------------------------------
  // Classification (`_initialize_queues`)
  // ---------------------------------------------------------------------

  datatype Category = Staple | Vegetable | Protein

  /** `any(ing["type"] == kind for ing in ingredients)`. */
  function HasKind(lines: seq<IngredientLine>, kind: string): (b: bool)
    ensures b <==> exists l :: l in lines && l.kind == kind
  {
    if lines == [] then false
    else lines[0].kind == kind || HasKind(lines[1..], kind)
  }

  /** The queue a recipe is pushed onto: staples by their type; any other
      recipe by its ingredients, protein-rich checked before vegetable; a
      recipe with neither goes nowhere. */
  function Classify(kind: string, lines: seq<IngredientLine>): (c: Option<Category>)
    ensures c == Some(Staple) <==> kind == "Staple"
    ensures c == Some(Protein) <==>
      kind != "Staple" && exists l :: l in lines && l.kind == "Protein-rich"
    ensures c == Some(Vegetable) <==>
      kind != "Staple" && (forall l :: l in lines ==> l.kind != "Protein-rich") &&
      exists l :: l in lines && l.kind == "Vegetable"
    ensures c.None? <==>
      kind != "Staple" && forall l :: l in lines ==> l.kind != "Protein-rich" && l.kind != "Vegetable"
  {
    if kind == "Staple" then Some(Staple)
    else if HasKind(lines, "Protein-rich") then Some(Protein)
    else if HasKind(lines, "Vegetable") then Some(Vegetable)
    else None
  }

  function CategoryOf(st: Store, name: string): Option<Category>
  {
    Classify(Kind(st, name), Search.Lines(st.contents, name))
  }

  ghost predicate Known(st: Store, order: seq<string>)
  {
    forall n :: n in order ==> n in st.recipeScore
  }

  /** The entries pushed onto the queue of category `c`, in push order, when
      the recipes are read in `order`. */
  function Selected(st: Store, order: seq<string>, c: Category): seq<Entry>
    requires Known(st, order)
  {
    if order == [] then []
    else
      Selected(st, order[..|order| - 1], c) + Pushed(st, order[|order| - 1], c)
  }

  /** What reading one recipe pushes onto the queue of category `c`: its
      entry, or nothing when the recipe belongs elsewhere. */
  function Pushed(st: Store, name: string, c: Category): seq<Entry>
    requires name in st.recipeScore
  {
    if CategoryOf(st, name) == Some(c) then [Entry(name, st.recipeScore[name])] else []
  }

  /** An entry is in a category's selection exactly when its recipe was read,
      falls into that category, and the entry carries the recipe's stored
      score. */
  lemma {:induction false} SelectedMembers(st: Store, order: seq<string>, c: Category, e: Entry)
    requires Known(st, order)
    ensures e in Selected(st, order, c) <==>
      e.name in order && CategoryOf(st, e.name) == Some(c) && e == Entry(e.name, st.recipeScore[e.name])
    decreases |order|
  {
    if order != [] {
      var front := order[..|order| - 1];
      assert order == front + [order[|order| - 1]];
      assert Known(st, front);
      SelectedMembers(st, front, c, e);
    }
  }

  /** Each recipe read lands in at most one queue: together the three
      selections hold no more entries than recipes were read. */
  lemma {:induction false} AtMostOneQueue(st: Store, order: seq<string>)
    requires Known(st, order)
    ensures |Selected(st, order, Staple)| + |Selected(st, order, Vegetable)| + |Selected(st, order, Protein)| <= |order|
    decreases |order|
  {
    if order != [] {
      AtMostOneQueue(st, order[..|order| - 1]);
    }
  }

  /** No entry is in two selections. */
  lemma SelectionsDisjoint(st: Store, order: seq<string>, c1: Category, c2: Category, e: Entry)
    requires Known(st, order) && c1 != c2
    ensures !(e in Selected(st, order, c1) && e in Selected(st, order, c2))
  {
    SelectedMembers(st, order, c1, e);
    SelectedMembers(st, order, c2, e);
  }

  // ---------------------------------------------------------------------
  // Taking the top ten (`get_top_recipes`)
  // ---------------------------------------------------------------------

  /** `min(10, len(queue))`. */
  function TopCount(n: nat): (k: nat)
    ensures k <= n && k <= 10 && (k == n || k == 10)
  {
    if n < 10 then n else 10
  }

  /** The entries pushed back: each name with the store's current score. */
  function Refreshed(names: seq<string>, score: map<string, real>): seq<Entry>
    requires forall n :: n in names ==> n in score
  {
    seq(|names|, i requires 0 <= i < |names| => Entry(names[i], score[names[i]]))
  }

  ghost predicate NonIncreasing(s: seq<Entry>)
  {
    forall j, k :: 0 <= j < k < |s| ==> s[k].score <= s[j].score
  }

  /** `popped` were taken from `q`, best first, and none left behind scores
      higher than any of them; `names` are their names. */
  ghost predicate TopSplit(q: seq<Entry>, popped: seq<Entry>, names: seq<string>)
  {
    Names(popped) == names && multiset(popped) <= multiset(q) && NonIncreasing(popped) &&
    forall j, e :: 0 <= j < |popped| && e in (multiset(q) - multiset(popped)) ==> !Less(e, popped[j])
  }

  /** `r` is `q` after popping `popped`, named `names`, off the top and
      pushing the names back with their scores read from `score`. */
  ghost predicate Retaken(q: seq<Entry>, popped: seq<Entry>, names: seq<string>, score: map<string, real>, r: seq<Entry>)
  {
    (forall n :: n in names ==> n in score) && TopSplit(q, popped, names) &&
    multiset(r) == multiset(q) - multiset(popped) + multiset(Refreshed(names, score))
  }

  /** The store holds a score for the entry's recipe. */
  ghost predicate HasScore(e: Entry, score: map<string, real>)
  {
    e.name in score
  }

  ghost predicate ScoresKnown(q: seq<Entry>, score: map<string, real>)
  {
    forall e :: e in q ==> HasScore(e, score)
  }

  /** The list comprehension of `get_top_recipes`: pop `count` entries and
      keep their names. */
  method PopTop(q: seq<Entry>, count: nat) returns (names: seq<string>, r: seq<Entry>, ghost popped: seq<Entry>)
    requires IsHeap(q) && count <= |q|
    ensures |names| == count && TopSplit(q, popped, names)
    ensures IsHeap(r) && multiset(q) == multiset(popped) + multiset(r)
  {
    names := [];
    popped := [];
    r := q;
    for i := 0 to count
      invariant |popped| == i && names == Names(popped)
      invariant IsHeap(r) && |r| == |q| - i
      invariant multiset(q) == multiset(popped) + multiset(r)
      invariant Dominates(popped, r)
    {
      var top;
      ghost var before := r;
      top, r := HeapPop(r);
      PopStep(popped, before, top, r);
      NamesAppend(popped, [top]);
      assert Names([top]) == [top.name] by {
        assert [top][1..] == [];
      }
      names := names + [top.name];
      popped := popped + [top];
    }
    assert multiset(q) - multiset(popped) == multiset(r);
    forall j, e | 0 <= j < |popped| && e in (multiset(q) - multiset(popped))
      ensures !Less(e, popped[j])
    {
      assert e in r;
    }
    assert multiset(popped) <= multiset(q);
    assert NonIncreasing(popped);
    NamesIndex(popped);
  }

  /** `popped` is best first and no entry of `rest` beats any of it. */
  ghost predicate Dominates(popped: seq<Entry>, rest: seq<Entry>)
  {
    NonIncreasing(popped) &&
    forall j, e :: 0 <= j < |popped| && e in rest ==> !Less(e, popped[j])
  }

  lemma PopStep(popped: seq<Entry>, before: seq<Entry>, top: Entry, r: seq<Entry>)
    requires Dominates(popped, before)
    requires multiset(before) == multiset(r) + multiset{top}
    requires forall e :: e in r ==> !Less(e, top)
    ensures Dominates(popped + [top], r)
  {
    assert top in multiset(before);
    assert top in before;
    forall e | e in r
      ensures e in before
    {
      assert e in multiset(r);
      assert e in multiset(before);
    }
    var next := popped + [top];
    forall j, e | 0 <= j < |next| && e in r
      ensures !Less(e, next[j])
    {
      if j < |popped| {
        assert e in before && next[j] == popped[j];
      }
    }
  }

  /** The push-back loop of `get_top_recipes`: each name returns with the
      score the store holds now. */
  method PushBack(rest: seq<Entry>, names: seq<string>, score: map<string, real>) returns (r: seq<Entry>)
    requires IsHeap(rest) && forall n :: n in names ==> n in score
    ensures IsHeap(r) && |r| == |rest| + |names|
    ensures multiset(r) == multiset(rest) + multiset(Refreshed(names, score))
  {
    r := rest;
    for i := 0 to |names|
      invariant IsHeap(r) && |r| == |rest| + i
      invariant multiset(r) == multiset(rest) + multiset(Refreshed(names[..i], score))
    {
      var entry := Entry(names[i], score[names[i]]);
      r := HeapPush(r, entry);
      assert Refreshed(names[..i + 1], score) == Refreshed(names[..i], score) + [entry];
    }
    assert names[..|names|] == names;
  }

  /** One queue's part of `get_top_recipes`. */
  method TakeTop(q: seq<Entry>, score: map<string, real>) returns (names: seq<string>, r: seq<Entry>, ghost popped: seq<Entry>)
    requires IsHeap(q) && ScoresKnown(q, score)
    ensures |names| == TopCount(|q|)
    ensures IsHeap(r) && |r| == |q| && ScoresKnown(r, score)
    ensures Retaken(q, popped, names, score, r)
    ensures multiset(Names(r)) == multiset(Names(q))
  {
    var rest;
    names, rest, popped := PopTop(q, TopCount(|q|));
    NamesIndex(popped);
    forall n | n in names
      ensures n in score
    {
      var j :| 0 <= j < |names| && names[j] == n;
      assert popped[j] in multiset(q);
      assert popped[j] in q;
    }
    r := PushBack(rest, names, score);
    ghost var back := Refreshed(names, score);
    RefreshedNames(names, score);
    assert multiset(q) - multiset(popped) == multiset(rest);
    assert TopSplit(q, popped, names);
    forall e | e in r
      ensures HasScore(e, score)
    {
      assert e in multiset(r);
      if e !in back {
        assert e in multiset(rest);
        assert e in multiset(q);
      }
    }
    NamesMatch(q, popped, rest, r, back);
  }

  /** The re-pushed entries carry the popped names, all of them known. */
  lemma RefreshedNames(names: seq<string>, score: map<string, real>)
    requires forall n :: n in names ==> n in score
    ensures Names(Refreshed(names, score)) == names
    ensures forall e :: e in Refreshed(names, score) ==> HasScore(e, score)
  {
    NamesIndex(Refreshed(names, score));
  }

  /** Popping entries and pushing back entries with the same names keeps the
      multiset of names. */
  lemma NamesMatch(q: seq<Entry>, popped: seq<Entry>, rest: seq<Entry>, r: seq<Entry>, back: seq<Entry>)
    requires multiset(q) == multiset(popped) + multiset(rest)
    requires multiset(r) == multiset(rest) + multiset(back)
    requires Names(back) == Names(popped)
    ensures multiset(Names(r)) == multiset(Names(q))
  {
    PermutedNames(q, popped, rest);
    PermutedNames(r, rest, back);
  }

  lemma PermutedNames(q: seq<Entry>, a: seq<Entry>, b: seq<Entry>)
    requires multiset(q) == multiset(a) + multiset(b)
    ensures multiset(Names(q)) == multiset(Names(a)) + multiset(Names(b))
  {
    var ab := a + b;
    assert multiset(q) == multiset(ab);
    NamesOfPermutation(q, ab);
    NamesAppend(a, b);
  }

  // ---------------------------------------------------------------------
  // Re-heaping after a score change (`_update_recipe_in_queues`)
  // ---------------------------------------------------------------------

  /** The index of the first entry named `name`, or `|q|` when there is none. */
  function IndexOf(q: seq<Entry>, name: string): (i: nat)
    ensures i <= |q|
    ensures forall j :: 0 <= j < i ==> q[j].name != name
    ensures i < |q| ==> q[i].name == name
  {
    if q == [] then 0
    else if q[0].name == name then 0
    else 1 + IndexOf(q[1..], name)
  }

  /** `r` is `q` with its first entry named `name` rescored and heap order
      restored. */
  ghost predicate Reheaped(q: seq<Entry>, r: seq<Entry>, name: string, score: real)
  {
    var i := IndexOf(q, name);
    i < |q| && IsHeap(r) && multiset(r) == multiset(q[i := Entry(name, score)])
  }

  /** The inner loop for one queue: find the first entry with that name, set
      its score, `heapify`.  Nothing changes when the name is absent. */
  method UpdateFirst(q: seq<Entry>, name: string, score: real) returns (found: bool, r: seq<Entry>)
    ensures found <==> IndexOf(q, name) < |q|
    ensures found ==> Reheaped(q, r, name, score)
    ensures !found ==> r == q
    ensures |r| == |q| && multiset(Names(r)) == multiset(Names(q))
    ensures forall e :: e in r ==> e in q || e == Entry(name, score)
  {
    var i := 0;
    while i < |q| && q[i].name != name
      invariant 0 <= i <= |q|
      invariant forall j :: 0 <= j < i ==> q[j].name != name
    {
      i := i + 1;
    }
    if i == |q| {
      return false, q;
    }
    assert i == IndexOf(q, name);
    var updated := q[i := Entry(name, score)];
    r := Heapify(updated);
    found := true;

    NamesIndex(q);
    NamesIndex(updated);
    assert Names(updated) == Names(q);
    NamesOfPermutation(r, updated);
    forall e | e in r
      ensures e in q || e == Entry(name, score)
    {
      assert e in multiset(updated);
      var j :| 0 <= j < |updated| && updated[j] == e;
      if j != i {
        assert e == q[j];
      }
    }
  }

  /** The outer loop: the first queue, in the order staple, vegetable,
      protein, that holds the name is the one updated. */
  ghost predicate QueuesUpdated(s0: seq<Entry>, v0: seq<Entry>, p0: seq<Entry>,
                                s1: seq<Entry>, v1: seq<Entry>, p1: seq<Entry>,
                                name: string, score: real)
  {
    if IndexOf(s0, name) < |s0| then Reheaped(s0, s1, name, score) && v1 == v0 && p1 == p0
    else if IndexOf(v0, name) < |v0| then s1 == s0 && Reheaped(v0, v1, name, score) && p1 == p0
    else if IndexOf(p0, name) < |p0| then s1 == s0 && v1 == v0 && Reheaped(p0, p1, name, score)
    else s1 == s0 && v1 == v0 && p1 == p0
  }

  // ---------------------------------------------------------------------
  // The preference update (`update_pref`)
  // ---------------------------------------------------------------------

  /** The names of a recipe's ingredients. */
  function IngredientNames(lines: seq<IngredientLine>): set<string>
  {
    set l | l in lines :: l.name
  }

  /** The first write: every ingredient of the recipe moves halfway to the
      rating. */
  function Rescore(scores: map<string, real>, names: set<string>, rating: real): map<string, real>
  {
    map k | k in scores :: if k in names then (scores[k] + rating) / 2.0 else scores[k]
  }

  /** The sum of the ingredient scores over the recipe's rows. */
  function RowSum(lines: seq<IngredientLine>, scores: map<string, real>): real
    requires forall l :: l in lines ==> l.name in scores
  {
    if lines == [] then 0.0
    else RowSum(lines[..|lines| - 1], scores) + scores[lines[|lines| - 1].name]
  }

  /** `avg(i.preference_score)` over the rows: null when there are none. */
  function Mean(lines: seq<IngredientLine>, scores: map<string, real>): Option<real>
    requires forall l :: l in lines ==> l.name in scores
  {
    if lines == [] then None else Some(RowSum(lines, scores) / |lines| as real)
  }

  /** `avg_ingredient_score or 0.6`: null and 0.0 both fall back. */
  function OrDefault(avg: Option<real>): real
  {
    if avg.None? || avg.value == 0.0 then 0.6 else avg.value
  }

  /** The store after a valid rating of a known recipe: the ingredient scores
      rescored, then the recipe's score replaced by the three-way average of
      its old score, the rating and the (defaulted) ingredient average. */
  function Rated(st: Store, name: string, rating: real): (r: Store)
    requires WellFormed(st) && name in st.recipeScore
    ensures ScoresKnownSame(st, r)
    ensures forall l :: l in Search.Lines(st.contents, name) ==>
      r.ingredientScore[l.name] == (st.ingredientScore[l.name] + rating) / 2.0
    ensures forall k :: k in st.ingredientScore && k !in IngredientNames(Search.Lines(st.contents, name)) ==>
      r.ingredientScore[k] == st.ingredientScore[k]
    ensures forall k :: k in st.recipeScore && k != name ==> r.recipeScore[k] == st.recipeScore[k]
    ensures r.recipeScore[name] ==
      (st.recipeScore[name] + rating + OrDefault(Mean(Search.Lines(st.contents, name), r.ingredientScore))) / 3.0
  {
    var lines := Search.Lines(st.contents, name);
    var ingredients := Rescore(st.ingredientScore, IngredientNames(lines), rating);
    var avg := OrDefault(Mean(lines, ingredients));
    st.(ingredientScore := ingredients,
        recipeScore := st.recipeScore[name := (st.recipeScore[name] + rating + avg) / 3.0])
  }

  /** What `update_pref` reports. */
  datatype Feedback = NotNumeric | OutOfRange | UnknownRecipe | Thanks

  ghost predicate InRange(x: real)
  {
    0.0 <= x <= 10.0
  }

  ghost predicate ScoresInRange(st: Store)
  {
    (forall k :: k in st.recipeScore ==> InRange(st.recipeScore[k])) &&
    (forall k :: k in st.ingredientScore ==> InRange(st.ingredientScore[k]))
  }

  lemma {:induction false} RowSumBounds(lines: seq<IngredientLine>, scores: map<string, real>)
    requires forall l :: l in lines ==> l.name in scores && InRange(scores[l.name])
    ensures 0.0 <= RowSum(lines, scores) <= 10.0 * |lines| as real
    decreases |lines|
  {
    if lines != [] {
      var front := lines[..|lines| - 1];
      assert forall l :: l in front ==> l in lines;
      assert lines[|lines| - 1] in lines;
      RowSumBounds(front, scores);
    }
  }

  /** Rescoring and the defaulted mean keep every score in [0, 10] when the
      rating is in [0, 10]. */
  lemma RatedStaysInRange(st: Store, name: string, rating: real)
    requires WellFormed(st) && name in st.recipeScore
    requires ScoresInRange(st) && InRange(rating)
    ensures ScoresKnownSame(st, Rated(st, name, rating))
    ensures ScoresInRange(Rated(st, name, rating))
  {
    var lines := Search.Lines(st.contents, name);
    var ingredients := Rescore(st.ingredientScore, IngredientNames(lines), rating);
    assert forall k :: k in ingredients ==> InRange(ingredients[k]);
    var mean := Mean(lines, ingredients);
    if lines != [] {
      RowSumBounds(lines, ingredients);
      AverageBounds(RowSum(lines, ingredients), |lines| as real);
    }
    assert InRange(OrDefault(mean));
  }

  lemma AverageBounds(sum: real, n: real)
    requires 0.0 < n && 0.0 <= sum <= 10.0 * n
    ensures InRange(sum / n)
  {
    assert (sum / n) * n == sum;
  }

  /** The rating changes scores, never which recipes and ingredients are
      known. */
  ghost predicate ScoresKnownSame(st: Store, st2: Store)
  {
    st2.recipeScore.Keys == st.recipeScore.Keys && st2.ingredientScore.Keys == st.ingredientScore.Keys &&
    st2.recipeKind == st.recipeKind && st2.contents == st.contents
  }

  /** A rating that agrees with every score it touches changes nothing (for a
      positive rating of a recipe with ingredients). */
  lemma ConsistentRatingIsFixedPoint(st: Store, name: string, rating: real)
    requires WellFormed(st) && name in st.recipeScore
    requires 0.0 < rating && st.recipeScore[name] == rating
    requires Search.Lines(st.contents, name) != []
    requires forall l :: l in Search.Lines(st.contents, name) ==> st.ingredientScore[l.name] == rating
    ensures Rated(st, name, rating) == st
  {
    var lines := Search.Lines(st.contents, name);
    var names := IngredientNames(lines);
    var ingredients := Rescore(st.ingredientScore, names, rating);
    forall k | k in names
      ensures k in st.ingredientScore && st.ingredientScore[k] == rating
    {
      var l :| l in lines && l.name == k;
    }
    assert ingredients == st.ingredientScore;
    RowSumConstant(lines, ingredients, rating);
    var n := |lines| as real;
    assert RowSum(lines, ingredients) / n == rating;
    assert OrDefault(Mean(lines, ingredients)) == rating;
    assert st.recipeScore[name := rating] == st.recipeScore;
  }

  lemma {:induction false} RowSumConstant(lines: seq<IngredientLine>, scores: map<string, real>, v: real)
    requires forall l :: l in lines ==> l.name in scores && scores[l.name] == v
    ensures RowSum(lines, scores) == |lines| as real * v
    decreases |lines|
  {
    if lines != [] {
      var front := lines[..|lines| - 1];
      forall l | l in front
        ensures l in lines
      {
        var k :| 0 <= k < |front| && front[k] == l;
        assert lines[k] == l;
      }
      assert lines[|lines| - 1] in lines;
      RowSumConstant(front, scores, v);
      assert RowSum(lines, scores) == RowSum(front, scores) + v;
      MultipleStep(|front|, v);
    }
  }

  lemma MultipleStep(n: nat, v: real)
    ensures n as real * v + v == (n + 1) as real * v
  {
  }

  /** The `or 0.6` also catches a true average of zero: a zero rating of a
      recipe whose ingredients all score zero lifts the recipe score by 0.2. */
  lemma ZeroAverageFallsBack(st: Store, name: string)
    requires WellFormed(st) && name in st.recipeScore
    requires Search.Lines(st.contents, name) != []
    requires forall l :: l in Search.Lines(st.contents, name) ==> st.ingredientScore[l.name] == 0.0
    ensures Rated(st, name, 0.0).recipeScore[name] == st.recipeScore[name] / 3.0 + 0.2
  {
    var lines := Search.Lines(st.contents, name);
    var ingredients := Rescore(st.ingredientScore, IngredientNames(lines), 0.0);
    RowSumConstant(lines, ingredients, 0.0);
  }

  // ---------------------------------------------------------------------
  // The object
  // ---------------------------------------------------------------------

  /** `_initialize_queues`: read the recipes in `order` (the order the store
      returns them) and push each onto its category's queue. */
  method InitializeQueues(st: Store, order: seq<string>) returns (staples: seq<Entry>, vegetables: seq<Entry>, proteins: seq<Entry>)
    requires Known(st, order)
    ensures IsHeap(staples) && IsHeap(vegetables) && IsHeap(proteins)
    ensures multiset(staples) == multiset(Selected(st, order, Staple))
    ensures multiset(vegetables) == multiset(Selected(st, order, Vegetable))
    ensures multiset(proteins) == multiset(Selected(st, order, Protein))
    ensures ScoresKnown(staples, st.recipeScore) && ScoresKnown(vegetables, st.recipeScore)
    ensures ScoresKnown(proteins, st.recipeScore)
  {
    staples, vegetables, proteins := [], [], [];
    for i := 0 to |order|
      invariant Known(st, order[..i])
      invariant IsHeap(staples) && IsHeap(vegetables) && IsHeap(proteins)
      invariant multiset(staples) == multiset(Selected(st, order[..i], Staple))
      invariant multiset(vegetables) == multiset(Selected(st, order[..i], Vegetable))
      invariant multiset(proteins) == multiset(Selected(st, order[..i], Protein))
    {
      SelectedStep(st, order, i);
      staples, vegetables, proteins := PushRecipe(st, order[i], staples, vegetables, proteins);
    }
    assert order[..|order|] == order;
    SelectedScored(st, order, staples, Staple);
    SelectedScored(st, order, vegetables, Vegetable);
    SelectedScored(st, order, proteins, Protein);
  }

  /** The loop body of `_initialize_queues` for one recipe: a staple by its
      type, otherwise protein-rich before vegetable, otherwise nowhere. */
  method PushRecipe(st: Store, name: string, staples: seq<Entry>, vegetables: seq<Entry>, proteins: seq<Entry>)
    returns (staples': seq<Entry>, vegetables': seq<Entry>, proteins': seq<Entry>)
    requires name in st.recipeScore
    requires IsHeap(staples) && IsHeap(vegetables) && IsHeap(proteins)
    ensures IsHeap(staples') && IsHeap(vegetables') && IsHeap(proteins')
    ensures multiset(staples') == multiset(staples) + multiset(Pushed(st, name, Staple))
    ensures multiset(vegetables') == multiset(vegetables) + multiset(Pushed(st, name, Vegetable))
    ensures multiset(proteins') == multiset(proteins) + multiset(Pushed(st, name, Protein))
  {
    staples', vegetables', proteins' := staples, vegetables, proteins;
    var recipe := Entry(name, st.recipeScore[name]);
    if Kind(st, name) == "Staple" {
      staples' := HeapPush(staples, recipe);
    } else {
      var ingredients := Search.Lines(st.contents, name);
      var hasProtein := HasKind(ingredients, "Protein-rich");
      var hasVegetable := HasKind(ingredients, "Vegetable");
      if hasProtein {
        proteins' := HeapPush(proteins, recipe);
      } else if hasVegetable {
        vegetables' := HeapPush(vegetables, recipe);
      }
    }
  }

  /** Reading one more recipe appends it to its own category's selection
      and leaves the other two as they were. */
  lemma SelectedStep(st: Store, order: seq<string>, i: nat)
    requires Known(st, order) && i < |order|
    ensures Known(st, order[..i + 1])
    ensures forall c :: Selected(st, order[..i + 1], c) == Selected(st, order[..i], c) + Pushed(st, order[i], c)
  {
    assert order[..i + 1][..i] == order[..i];
  }

  /** A queue holding a selection's entries holds only scored recipes. */
  lemma SelectedScored(st: Store, order: seq<string>, q: seq<Entry>, c: Category)
    requires Known(st, order) && multiset(q) == multiset(Selected(st, order, c))
    ensures ScoresKnown(q, st.recipeScore)
  {
    forall e | e in q
      ensures HasScore(e, st.recipeScore)
    {
      assert e in multiset(q);
      SelectedMembers(st, order, c, e);
    }
  }

  class KnowledgeGraph {
    var store: Store
    var stapleQueue: seq<Entry>
    var vegetableQueue: seq<Entry>
    var proteinQueue: seq<Entry>

    /** The queues are heaps whose recipes the store knows. */
    ghost predicate Valid()
      reads this
    {
      WellFormed(store) &&
      IsHeap(stapleQueue) && IsHeap(vegetableQueue) && IsHeap(proteinQueue) &&
      ScoresKnown(stapleQueue, store.recipeScore) &&
      ScoresKnown(vegetableQueue, store.recipeScore) &&
      ScoresKnown(proteinQueue, store.recipeScore)
    }

    /** `__init__`: the given store, and queues filled by `_initialize_queues`. */
    constructor(st: Store, order: seq<string>)
      requires WellFormed(st) && Known(st, order)
      ensures Valid() && store == st
      ensures multiset(stapleQueue) == multiset(Selected(st, order, Staple))
      ensures multiset(vegetableQueue) == multiset(Selected(st, order, Vegetable))
      ensures multiset(proteinQueue) == multiset(Selected(st, order, Protein))
    {
      var staples, vegetables, proteins := InitializeQueues(st, order);
      store := st;
      stapleQueue, vegetableQueue, proteinQueue := staples, vegetables, proteins;
    }

    /** Replace the three queues, leaving the store as it is. */
    method SetQueues(staples: seq<Entry>, vegetables: seq<Entry>, proteins: seq<Entry>)
      requires WellFormed(store)
      requires IsHeap(staples) && IsHeap(vegetables) && IsHeap(proteins)
      requires ScoresKnown(staples, store.recipeScore) && ScoresKnown(vegetables, store.recipeScore)
      requires ScoresKnown(proteins, store.recipeScore)
      modifies this
      ensures Valid() && store == old(store)
      ensures stapleQueue == staples && vegetableQueue == vegetables && proteinQueue == proteins
    {
      stapleQueue, vegetableQueue, proteinQueue := staples, vegetables, proteins;
    }

    /** `get_top_recipes`: the names of the (at most) ten best entries of each
        queue, best first; each queue keeps its size and its names, the
        re-pushed entries carrying the store's current scores. */
    method GetTopRecipes() returns (topStaple: seq<string>, topVegetable: seq<string>, topProtein: seq<string>,
                                    ghost poppedStaple: seq<Entry>, ghost poppedVegetable: seq<Entry>,
                                    ghost poppedProtein: seq<Entry>)
      requires Valid()
      modifies this
      ensures Valid() && store == old(store)
      ensures |topStaple| == TopCount(|old(stapleQueue)|)
      ensures |topVegetable| == TopCount(|old(vegetableQueue)|)
      ensures |topProtein| == TopCount(|old(proteinQueue)|)
      ensures Retaken(old(stapleQueue), poppedStaple, topStaple, store.recipeScore, stapleQueue)
      ensures Retaken(old(vegetableQueue), poppedVegetable, topVegetable, store.recipeScore, vegetableQueue)
      ensures Retaken(old(proteinQueue), poppedProtein, topProtein, store.recipeScore, proteinQueue)
      ensures |stapleQueue| == |old(stapleQueue)| && multiset(Names(stapleQueue)) == multiset(Names(old(stapleQueue)))
      ensures |vegetableQueue| == |old(vegetableQueue)| && multiset(Names(vegetableQueue)) == multiset(Names(old(vegetableQueue)))
      ensures |proteinQueue| == |old(proteinQueue)| && multiset(Names(proteinQueue)) == multiset(Names(old(proteinQueue)))
    {
      var score := store.recipeScore;
      var staples, vegetables, proteins;
      topStaple, staples, poppedStaple := TakeTop(stapleQueue, score);
      topVegetable, vegetables, poppedVegetable := TakeTop(vegetableQueue, score);
      topProtein, proteins, poppedProtein := TakeTop(proteinQueue, score);
      SetQueues(staples, vegetables, proteins);
    }

    /** `_update_recipe_in_queues`: read the recipe's score from the store and
        update its first entry in the first queue that holds it. */
    method UpdateRecipeInQueues(name: string)
      requires Valid() && name in store.recipeScore
      modifies this
      ensures Valid() && store == old(store)
      ensures QueuesUpdated(old(stapleQueue), old(vegetableQueue), old(proteinQueue),
                            stapleQueue, vegetableQueue, proteinQueue, name, store.recipeScore[name])
    {
      var newScore := store.recipeScore[name];
      var staples, vegetables, proteins := stapleQueue, vegetableQueue, proteinQueue;
      var found, r := UpdateFirst(staples, name, newScore);
      if found {
        staples := r;
      } else {
        found, r := UpdateFirst(vegetables, name, newScore);
        if found {
          vegetables := r;
        } else {
          found, r := UpdateFirst(proteins, name, newScore);
          if found {
            proteins := r;
          }
        }
      }
      SetQueues(staples, vegetables, proteins);
    }

    /** `update_pref`.  `rating` is `None` when `float(rating)` fails.  A
        rating outside [0, 10] is refused; so, with nothing written, is an
        unknown recipe (its score lookup fails).  Otherwise the store is
        rated and the recipe's queue entry follows its new score. */
    method UpdatePref(rating: Option<real>, name: string) returns (feedback: Feedback)
      requires Valid()
      modifies this
      ensures Valid()
      ensures rating.None? ==> feedback == NotNumeric
      ensures rating.Some? && !(0.0 <= rating.value <= 10.0) ==> feedback == OutOfRange
      ensures rating.Some? && 0.0 <= rating.value <= 10.0 && name !in old(store.recipeScore) ==> feedback == UnknownRecipe
      ensures rating.Some? && 0.0 <= rating.value <= 10.0 && name in old(store.recipeScore) ==> feedback == Thanks
      ensures feedback != Thanks ==>
        store == old(store) && stapleQueue == old(stapleQueue) &&
        vegetableQueue == old(vegetableQueue) && proteinQueue == old(proteinQueue)
      ensures feedback == Thanks ==>
        rating.Some? && name in old(store.recipeScore) &&
        store == Rated(old(store), name, rating.value) &&
        QueuesUpdated(old(stapleQueue), old(vegetableQueue), old(proteinQueue),
                      stapleQueue, vegetableQueue, proteinQueue, name, store.recipeScore[name])
    {
      if rating.None? {
        return NotNumeric;
      }
      var r := rating.value;
      if !(0.0 <= r <= 10.0) {
        return OutOfRange;
      }
      if name !in store.recipeScore {
        return UnknownRecipe;
      }
      RatedKeepsShape(store, name, r);
      store := Rated(store, name, r);
      UpdateRecipeInQueues(name);
      feedback := Thanks;
    }

    /** `recommend_recipes`: take the top lists, then run the search on them
        with the meal's needs.  The queues end as `get_top_recipes` leaves
        them; the search draws from exactly the names it returned. */
    method RecommendRecipes(needs: Needs, preMealGlucose: real,
                            pick: (nat, nat) -> nat,
                            predict: (real, real, real, real) -> Search.Prediction,
                            scorer: (GroupTotal, Search.Prediction, Needs) -> real)
      returns (best: Option<Search.Recommendation>, attempts: nat,
               ghost topStaple: seq<string>, ghost topVegetable: seq<string>, ghost topProtein: seq<string>,
               ghost poppedStaple: seq<Entry>, ghost poppedVegetable: seq<Entry>, ghost poppedProtein: seq<Entry>)
      requires Valid()
      modifies this
      ensures Valid() && store == old(store)
      ensures |topStaple| == TopCount(|old(stapleQueue)|)
      ensures |topVegetable| == TopCount(|old(vegetableQueue)|)
      ensures |topProtein| == TopCount(|old(proteinQueue)|)
      ensures Retaken(old(stapleQueue), poppedStaple, topStaple, store.recipeScore, stapleQueue)
      ensures Retaken(old(vegetableQueue), poppedVegetable, topVegetable, store.recipeScore, vegetableQueue)
      ensures Retaken(old(proteinQueue), poppedProtein, topProtein, store.recipeScore, proteinQueue)
      ensures |stapleQueue| == |old(stapleQueue)| && multiset(Names(stapleQueue)) == multiset(Names(old(stapleQueue)))
      ensures |vegetableQueue| == |old(vegetableQueue)| && multiset(Names(vegetableQueue)) == multiset(Names(old(vegetableQueue)))
      ensures |proteinQueue| == |old(proteinQueue)| && multiset(Names(proteinQueue)) == multiset(Names(old(proteinQueue)))
      ensures best.None? <==> old(stapleQueue) == []
      ensures var s := Search.Setting(topStaple, topVegetable, topProtein, store.contents, needs,
                                      preMealGlucose, pick, predict, scorer);
        best.Some? ==>
          1 <= attempts <= Search.MaxAttempts && best.value == Search.Evaluate(s, attempts) &&
          (forall k :: 1 <= k < attempts ==> Search.Rejected(s, k)) &&
          (attempts < Search.MaxAttempts ==> Search.AcceptScore <= best.value.scores.healthScore)
    {
      var s, v, p, ps, pv, pp := GetTopRecipes();
      topStaple, topVegetable, topProtein := s, v, p;
      poppedStaple, poppedVegetable, poppedProtein := ps, pv, pp;
      best, attempts := Search.Recommend(Search.Setting(s, v, p, store.contents, needs, preMealGlucose,
                                                        pick, predict, scorer));
    }
  }

  lemma RatedKeepsShape(st: Store, name: string, rating: real)
    requires WellFormed(st) && name in st.recipeScore
    ensures ScoresKnownSame(st, Rated(st, name, rating)) && WellFormed(Rated(st, name, rating))
  {
  }
}
