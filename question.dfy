/** The specification of `generateQuestion` (src/app/page.tsx): the random
    choices it makes, the option list its loop builds and the reordering
    that follows. `Math.random` is replaced by caller-supplied draws. */
module QuestionGenerator {
  import opened PokemonModel

  /** An exchange of two positions of the option array; a comparator sort
      reorders in place by such moves. */
  datatype Swap = Swap(i: nat, j: nat)

  /** The outcomes of every `Math.random` call of one `generateQuestion`:
      the target index, the distractor index drawn on each loop round, and
      the exchanges the sort performs. */
  datatype RandomDraws = RandomDraws(target: nat, distractors: seq<nat>, swaps: seq<Swap>)

  /** The number of options a question shows. */
  const OptionCount := 4

  /** No name occurs twice. */
  predicate Distinct(s: seq<string>)
  {
    forall i, j :: 0 <= i < j < |s| ==> s[i] != s[j]
  }

  /** The names that occur in `s`. */
  function Elems(s: seq<string>): (names: set<string>)
  {
    set x | x in s
  }

  /** Every name the catalog holds. */
  function CatalogNames(list: seq<Pokemon>): (names: set<string>)
  {
    set i | 0 <= i < |list| :: list[i].name
  }

  predicate IndicesIn(list: seq<Pokemon>, ds: seq<nat>)
  {
    forall k :: 0 <= k < |ds| ==> ds[k] < |list|
  }

  /** The names a stream of distractor draws hits. */
  function DrawnNames(list: seq<Pokemon>, ds: seq<nat>): (names: set<string>)
    requires IndicesIn(list, ds)
    ensures names <= CatalogNames(list)
  {
    if ds == [] then {} else {list[ds[0]].name} + DrawnNames(list, ds[1..])
  }

  predicate SwapsWithin(swaps: seq<Swap>, n: nat)
  {
    forall k :: 0 <= k < |swaps| ==> swaps[k].i < n && swaps[k].j < n
  }

  /** What the caller's draws must satisfy: each index is one that
      `Math.floor(Math.random() * list.length)` can produce (so the catalog is
      not empty), each exchange stays inside the four options, and the draws
      hit at least four distinct names, without which the source's loop does
      not end. */
  predicate Adequate(list: seq<Pokemon>, rnd: RandomDraws)
  {
    rnd.target < |list| && IndicesIn(list, rnd.distractors) &&
    SwapsWithin(rnd.swaps, OptionCount) &&
    |{list[rnd.target].name} + DrawnNames(list, rnd.distractors)| >= OptionCount
  }

  /** The loop at page.tsx:61-64: while fewer than four options, draw a name
      and append it unless present. Stops early only if the draws run out. */
  function CollectOptions(list: seq<Pokemon>, opts: seq<string>, ds: seq<nat>): (r: seq<string>)
    requires IndicesIn(list, ds)
    ensures opts <= r
    ensures |opts| <= OptionCount ==> |r| <= OptionCount
    decreases |ds|
  {
    if |opts| >= OptionCount || ds == [] then opts
    else
      var name := list[ds[0]].name;
      CollectOptions(list, if name in opts then opts else opts + [name], ds[1..])
  }

  /** The list the loop builds, seeded with the target's name. */
  function BuiltOptions(list: seq<Pokemon>, rnd: RandomDraws): (r: seq<string>)
    requires rnd.target < |list| && IndicesIn(list, rnd.distractors)
  {
    CollectOptions(list, [list[rnd.target].name], rnd.distractors)
  }

  /** Exchange two positions. */
  function Swapped(s: seq<string>, i: nat, j: nat): (r: seq<string>)
    requires i < |s| && j < |s|
    ensures |r| == |s|
  {
    s[i := s[j]][j := s[i]]
  }

  /** The order the sort leaves behind. */
  function ApplySwaps(s: seq<string>, swaps: seq<Swap>): (r: seq<string>)
    requires SwapsWithin(swaps, |s|)
    ensures |r| == |s|
    decreases |swaps|
  {
    if swaps == [] then s else ApplySwaps(Swapped(s, swaps[0].i, swaps[0].j), swaps[1..])
  }

  /** The options `generateQuestion` stores. */
  function ShownOptions(list: seq<Pokemon>, rnd: RandomDraws): (r: seq<string>)
    requires Adequate(list, rnd)
  {
    var built := BuiltOptions(list, rnd);
    BuiltOptionsWellFormed(list, rnd);
    ApplySwaps(built, rnd.swaps)
  }

  /** A well-formed question about `target` drawn from `list`: four distinct
      catalog names, one of them the target's. */
  predicate QuestionOk(list: seq<Pokemon>, target: Pokemon, options: seq<string>)
  {
    target in list &&
    |options| == OptionCount && Distinct(options) && target.name in options &&
    Elems(options) <= CatalogNames(list)
  }

  // ---- lemmas ----

  /** A list without repeats has as many names as entries. */
  lemma {:induction false} DistinctCard(s: seq<string>)
    requires Distinct(s)
    ensures |Elems(s)| == |s|
  {
    if s != [] {
      var t := s[1..];
      assert Distinct(t);
      DistinctCard(t);
      assert Elems(s) == {s[0]} + Elems(t);
      assert s[0] !in Elems(t);
    }
  }

  /** The loop keeps its seed as a prefix, never repeats a name, never goes
      past four, only adds drawn names, and stops short of four only when
      every drawn name is already present. */
  lemma {:induction false} CollectOptionsFacts(list: seq<Pokemon>, opts: seq<string>, ds: seq<nat>)
    requires IndicesIn(list, ds) && Distinct(opts) && |opts| <= OptionCount
    ensures var r := CollectOptions(list, opts, ds);
      |r| <= OptionCount && Distinct(r) && opts <= r &&
      Elems(r) <= Elems(opts) + DrawnNames(list, ds) &&
      (|r| < OptionCount ==> Elems(r) == Elems(opts) + DrawnNames(list, ds))
    decreases |ds|
  {
    if |opts| >= OptionCount || ds == [] {
    } else {
      var name := list[ds[0]].name;
      var next := if name in opts then opts else opts + [name];
      assert Elems(next) == Elems(opts) + {name};
      assert DrawnNames(list, ds) == {name} + DrawnNames(list, ds[1..]);
      CollectOptionsFacts(list, next, ds[1..]);
    }
  }

  /** With adequate draws the loop ends with four distinct catalog names,
      the target's first. */
  lemma BuiltOptionsWellFormed(list: seq<Pokemon>, rnd: RandomDraws)
    requires Adequate(list, rnd)
    ensures var b := BuiltOptions(list, rnd);
      |b| == OptionCount && Distinct(b) && b[0] == list[rnd.target].name &&
      Elems(b) <= CatalogNames(list)
  {
    var seed := [list[rnd.target].name];
    var b := BuiltOptions(list, rnd);
    CollectOptionsFacts(list, seed, rnd.distractors);
    assert Elems(seed) == {list[rnd.target].name};
    if |b| < OptionCount {
      DistinctCard(b);
      assert false;
    }
  }

  /** One exchange keeps the names and their multiplicities, and keeps a
      list without repeats free of them. */
  lemma SwappedPermutes(s: seq<string>, i: nat, j: nat)
    requires i < |s| && j < |s|
    ensures multiset(Swapped(s, i, j)) == multiset(s)
    ensures Distinct(s) ==> Distinct(Swapped(s, i, j))
  {
  }

  /** The sort changes order only: same names, same multiplicities, still no repeats. */
  lemma {:induction false} ApplySwapsPermutes(s: seq<string>, swaps: seq<Swap>)
    requires SwapsWithin(swaps, |s|)
    ensures multiset(ApplySwaps(s, swaps)) == multiset(s)
    ensures Distinct(s) ==> Distinct(ApplySwaps(s, swaps))
    decreases |swaps|
  {
    if swaps != [] {
      SwappedPermutes(s, swaps[0].i, swaps[0].j);
      ApplySwapsPermutes(Swapped(s, swaps[0].i, swaps[0].j), swaps[1..]);
    }
  }

  /** Every outcome of `generateQuestion` is a well-formed question whose
      options hold exactly the names the loop collected. */
  lemma ShownOptionsWellFormed(list: seq<Pokemon>, rnd: RandomDraws)
    requires Adequate(list, rnd)
    ensures QuestionOk(list, list[rnd.target], ShownOptions(list, rnd))
    ensures multiset(ShownOptions(list, rnd)) == multiset(BuiltOptions(list, rnd))
  {
    var b := BuiltOptions(list, rnd);
    BuiltOptionsWellFormed(list, rnd);
    ApplySwapsPermutes(b, rnd.swaps);
    var r := ShownOptions(list, rnd);
    assert forall x :: x in r <==> x in multiset(r);
    assert forall x :: x in b <==> x in multiset(b);
    assert b[0] in b;
    assert Elems(r) == Elems(b);
  }
}
