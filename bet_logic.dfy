/** The combination generator of src/lib/bet-logic.ts: bet types, marksheet
    selections, combinations, formations and `unrollCombinations`. */
module BetLogic {
  import opened Text
  import opened Sorting

  /** '3TR' (trifecta, exact order of the first three), '3PL' (trio, any
      order), '2TR' (exacta), '2PL' (quinella) and 'WIN'. */
  datatype BetType = Trifecta | Trio | Exacta | Quinella | Win

  datatype BoatSelection = BoatSelection(first: seq<int>, second: seq<int>, third: seq<int>)

  const EmptySelection := BoatSelection([], [], [])

  datatype Combination = Combination(id: string, numbers: seq<int>, amount: int)

  datatype Formation = Formation(
    id: string,
    betType: BetType,
    selections: BoatSelection,
    combinations: seq<Combination>,
    totalExpectedAmount: int,
    isIndividualAmount: bool)

  /** The separator that joins the numbers of an id: '-' for the ordered bet
      types and for WIN, '=' for the unordered ones. */
  const OrderedSeparator := '-'
  const UnorderedSeparator := '='

  /** The combination with the given numbers and stake 0, as every branch of
      the generator pushes it. */
  function MakeCombination(nums: seq<int>, sep: char): Combination {
    Combination(JoinNumbers(nums, sep), nums, 0)
  }

  /** The combination a trio or quinella tuple collapses to: its numbers sorted
      ascending and joined with '='. */
  function Canonical(nums: seq<int>): Combination {
    MakeCombination(SortNumbers(nums), UnorderedSeparator)
  }

  // ---------------------------------------------------------------------
  // The tuples the nested loops visit, in loop order, with repeated boats
  // skipped. Each is defined by recursion on the last element of a slot, so
  // that a loop that has run over a prefix of a slot has built exactly the
  // function of that prefix.
  // ---------------------------------------------------------------------

  /** `[f, s, t]` for `t` in `third`, skipping `t == f` and `t == s`. */
  function Thirds(f: int, s: int, third: seq<int>): seq<seq<int>> {
    if third == [] then []
    else
      var t := third[|third| - 1];
      Thirds(f, s, third[..|third| - 1]) + (if f == t || s == t then [] else [[f, s, t]])
  }

  /** The triples with first boat `f`: `second` in order, skipping `s == f`. */
  function TriplesWith(f: int, second: seq<int>, third: seq<int>): seq<seq<int>> {
    if second == [] then []
    else
      var s := second[|second| - 1];
      TriplesWith(f, second[..|second| - 1], third) + (if f == s then [] else Thirds(f, s, third))
  }

  function Triples(first: seq<int>, second: seq<int>, third: seq<int>): seq<seq<int>> {
    if first == [] then []
    else Triples(first[..|first| - 1], second, third) + TriplesWith(first[|first| - 1], second, third)
  }

  /** `[f, s]` for `s` in `second`, skipping `s == f`. */
  function Seconds(f: int, second: seq<int>): seq<seq<int>> {
    if second == [] then []
    else
      var s := second[|second| - 1];
      Seconds(f, second[..|second| - 1]) + (if f == s then [] else [[f, s]])
  }

  function Pairs(first: seq<int>, second: seq<int>): seq<seq<int>> {
    if first == [] then []
    else Pairs(first[..|first| - 1], second) + Seconds(first[|first| - 1], second)
  }

  /** A triple of pairwise different boats, one from each slot in slot order. */
  predicate IsTriple(sel: BoatSelection, nums: seq<int>) {
    && |nums| == 3
    && nums[0] in sel.first && nums[1] in sel.second && nums[2] in sel.third
    && nums[0] != nums[1] && nums[0] != nums[2] && nums[1] != nums[2]
  }

  /** A pair of different boats, one from each of the first two slots. */
  predicate IsPair(sel: BoatSelection, nums: seq<int>) {
    |nums| == 2 && nums[0] in sel.first && nums[1] in sel.second && nums[0] != nums[1]
  }

  // A loop that has run over a prefix `xs[..i]` and then handles `xs[i]` has
  // run over `xs[..i + 1]`.

  lemma ThirdsStep(f: int, s: int, third: seq<int>, k: nat)
    requires k < |third|
    ensures Thirds(f, s, third[..k + 1]) == Thirds(f, s, third[..k])
              + (if f == third[k] || s == third[k] then [] else [[f, s, third[k]]])
  {
    assert third[..k + 1][..k] == third[..k];
  }

  lemma TriplesWithStep(f: int, second: seq<int>, third: seq<int>, j: nat)
    requires j < |second|
    ensures f == second[j] ==> TriplesWith(f, second[..j + 1], third) == TriplesWith(f, second[..j], third)
    ensures f != second[j] ==>
              TriplesWith(f, second[..j + 1], third) == TriplesWith(f, second[..j], third) + Thirds(f, second[j], third)
  {
    assert second[..j + 1][..j] == second[..j];
    var prefix := TriplesWith(f, second[..j], third);
    assert prefix + [] == prefix;
  }

  lemma TriplesWithAfter(visited: seq<seq<int>>, f: int, second: seq<int>, third: seq<int>, j: nat)
    requires j < |second|
    ensures visited + TriplesWith(f, second[..j + 1], third) == (visited + TriplesWith(f, second[..j], third))
              + (if f == second[j] then [] else Thirds(f, second[j], third))
  {
    TriplesWithStep(f, second, third, j);
  }

  lemma TriplesStep(first: seq<int>, second: seq<int>, third: seq<int>, i: nat)
    requires i < |first|
    ensures Triples(first[..i + 1], second, third) == Triples(first[..i], second, third)
              + TriplesWith(first[i], second, third)
  {
    assert first[..i + 1][..i] == first[..i];
  }

  lemma SecondsStep(f: int, second: seq<int>, j: nat)
    requires j < |second|
    ensures Seconds(f, second[..j + 1]) == Seconds(f, second[..j]) + (if f == second[j] then [] else [[f, second[j]]])
  {
    assert second[..j + 1][..j] == second[..j];
  }

  lemma PairsStep(first: seq<int>, second: seq<int>, i: nat)
    requires i < |first|
    ensures Pairs(first[..i + 1], second) == Pairs(first[..i], second) + Seconds(first[i], second)
  {
    assert first[..i + 1][..i] == first[..i];
  }

  /** `[f]` for every `f` in `first`, duplicates included. */
  function Singles(first: seq<int>): (r: seq<seq<int>>)
    ensures |r| == |first|
    ensures forall i :: 0 <= i < |first| ==> r[i] == [first[i]]
  {
    if first == [] then []
    else Singles(first[..|first| - 1]) + [[first[|first| - 1]]]
  }

  // ---------------------------------------------------------------------
  // From tuples to combinations.
  // ---------------------------------------------------------------------

  /** The ordered branches: one combination per tuple, numbers in the order the
      slots gave them, joined with '-'. */
  function Ordered(tuples: seq<seq<int>>): (r: seq<Combination>)
    ensures |r| == |tuples|
  {
    if tuples == [] then []
    else Ordered(tuples[..|tuples| - 1]) + [MakeCombination(tuples[|tuples| - 1], OrderedSeparator)]
  }

  /** The i-th ordered combination is the i-th tuple joined with '-'. */
  lemma {:induction false} OrderedAt(tuples: seq<seq<int>>)
    ensures forall i :: 0 <= i < |tuples| ==> Ordered(tuples)[i] == MakeCombination(tuples[i], OrderedSeparator)
    decreases |tuples|
  {
    if tuples != [] {
      var prefix := tuples[..|tuples| - 1];
      OrderedAt(prefix);
      assert forall i :: 0 <= i < |prefix| ==> tuples[i] == prefix[i];
    }
  }

  /** No two combinations of the list share an id. */
  predicate DistinctIds(cs: seq<Combination>) {
    forall i, j :: 0 <= i < j < |cs| ==> cs[i].id != cs[j].id
  }

  /** The ids of a list of combinations (the source's `seen` set). */
  function Ids(cs: seq<Combination>): set<string> {
    if cs == [] then {} else Ids(cs[..|cs| - 1]) + {cs[|cs| - 1].id}
  }

  /** The unordered branches: each tuple sorted and joined with '=', kept only
      when no earlier tuple produced the same id (the `seen` set). */
  function Unordered(tuples: seq<seq<int>>): seq<Combination> {
    if tuples == [] then []
    else
      var done := Unordered(tuples[..|tuples| - 1]);
      var c := Canonical(tuples[|tuples| - 1]);
      if c.id in Ids(done) then done else done + [c]
  }

  /** What `unrollCombinations(betType, selections)` returns. */
  function Unrolled(betType: BetType, sel: BoatSelection): seq<Combination> {
    match betType
    case Trifecta => Ordered(Triples(sel.first, sel.second, sel.third))
    case Trio => Unordered(Triples(sel.first, sel.second, sel.third))
    case Exacta => Ordered(Pairs(sel.first, sel.second))
    case Quinella => Unordered(Pairs(sel.first, sel.second))
    case Win => Ordered(Singles(sel.first))
  }

  lemma OrderedSnoc(tuples: seq<seq<int>>, t: seq<int>)
    ensures Ordered(tuples + [t]) == Ordered(tuples) + [MakeCombination(t, OrderedSeparator)]
  {
    assert (tuples + [t])[..|tuples|] == tuples;
  }

  lemma UnorderedSnoc(tuples: seq<seq<int>>, t: seq<int>)
    ensures var done := Unordered(tuples);
            Unordered(tuples + [t]) == if Canonical(t).id in Ids(done) then done else done + [Canonical(t)]
  {
    assert (tuples + [t])[..|tuples|] == tuples;
  }

  lemma IdsSnoc(cs: seq<Combination>, c: Combination)
    ensures Ids(cs + [c]) == Ids(cs) + {c.id}
  {
    assert forall i :: 0 <= i < |cs| ==> (cs + [c])[i] == cs[i];
    assert (cs + [c])[|cs|] == c;
  }

  /** The loop nest of the source: the 3TR and 2TR branches push every tuple,
      the 3PL and 2PL branches keep a `seen` set of ids, WIN pushes one
      combination per boat of the first slot. */
  method UnrollCombinations(betType: BetType, selections: BoatSelection) returns (result: seq<Combination>)
    ensures result == Unrolled(betType, selections)
  {
    var first, second, third := selections.first, selections.second, selections.third;
    match betType
    case Trifecta => result := UnrollTriples(first, second, third, false);
    case Trio => result := UnrollTriples(first, second, third, true);
    case Exacta => result := UnrollPairs(first, second, false);
    case Quinella => result := UnrollPairs(first, second, true);
    case Win =>
      result := [];
      for i := 0 to |first|
        invariant result == Ordered(Singles(first[..i]))
      {
        assert first[..i + 1][..i] == first[..i];
        OrderedSnoc(Singles(first[..i]), [first[i]]);
        result := result + [Combination(NumberString(first[i]), [first[i]], 0)];
      }
      assert first[..|first|] == first;
  }

  /** What the loops have pushed after visiting `tuples`. */
  function Built(tuples: seq<seq<int>>, unordered: bool): seq<Combination> {
    if unordered then Unordered(tuples) else Ordered(tuples)
  }

  /** In the unordered branches `seen` holds exactly the ids pushed so far. */
  predicate SeenTracks(unordered: bool, seen: set<string>, result: seq<Combination>) {
    unordered ==> seen == Ids(result)
  }

  /** The 3TR branch (`unordered` false) and the 3PL branch (`unordered` true). */
  method UnrollTriples(first: seq<int>, second: seq<int>, third: seq<int>, unordered: bool)
    returns (result: seq<Combination>)
    ensures result == Built(Triples(first, second, third), unordered)
  {
    result := [];
    var seen: set<string> := {};
    ghost var visited: seq<seq<int>> := [];
    for i := 0 to |first|
      invariant visited == Triples(first[..i], second, third)
      invariant result == Built(visited, unordered)
      invariant SeenTracks(unordered, seen, result)
    {
      TriplesStep(first, second, third, i);
      result, seen, visited := ScanSeconds(first[i], second, third, unordered, result, seen, visited);
    }
    assert first[..|first|] == first;
  }

  /** The loop over `second` for one `f`. */
  method ScanSeconds(f: int, second: seq<int>, third: seq<int>, unordered: bool,
                     result: seq<Combination>, seen: set<string>, ghost visited: seq<seq<int>>)
    returns (result': seq<Combination>, seen': set<string>, ghost visited': seq<seq<int>>)
    requires result == Built(visited, unordered)
    requires SeenTracks(unordered, seen, result)
    ensures visited' == visited + TriplesWith(f, second, third)
    ensures result' == Built(visited', unordered)
    ensures SeenTracks(unordered, seen', result')
  {
    result', seen', visited' := result, seen, visited;
    for j := 0 to |second|
      invariant visited' == visited + TriplesWith(f, second[..j], third)
      invariant result' == Built(visited', unordered)
      invariant SeenTracks(unordered, seen', result')
    {
      result', seen', visited' := ScanSecond(f, second[j], third, unordered, result', seen', visited');
      TriplesWithAfter(visited, f, second, third, j);
    }
    assert second[..|second|] == second;
  }

  /** One turn of the loop over `second`: the boat `s`, skipped when it is
      `f`. */
  method ScanSecond(f: int, s: int, third: seq<int>, unordered: bool,
                    result: seq<Combination>, seen: set<string>, ghost visited: seq<seq<int>>)
    returns (result': seq<Combination>, seen': set<string>, ghost visited': seq<seq<int>>)
    requires result == Built(visited, unordered)
    requires SeenTracks(unordered, seen, result)
    ensures visited' == visited + (if f == s then [] else Thirds(f, s, third))
    ensures result' == Built(visited', unordered)
    ensures SeenTracks(unordered, seen', result')
  {
    if f == s {
      result', seen', visited' := result, seen, visited;
      assert visited' == visited + [];
    } else {
      result', seen', visited' := ScanThirds(f, s, third, unordered, result, seen, visited);
    }
  }

  /** The loop over `third` for one `f` and one `s`. */
  method ScanThirds(f: int, s: int, third: seq<int>, unordered: bool,
                    result: seq<Combination>, seen: set<string>, ghost visited: seq<seq<int>>)
    returns (result': seq<Combination>, seen': set<string>, ghost visited': seq<seq<int>>)
    requires result == Built(visited, unordered)
    requires SeenTracks(unordered, seen, result)
    ensures visited' == visited + Thirds(f, s, third)
    ensures result' == Built(visited', unordered)
    ensures SeenTracks(unordered, seen', result')
  {
    result', seen', visited' := result, seen, visited;
    for k := 0 to |third|
      invariant visited' == visited + Thirds(f, s, third[..k])
      invariant result' == Built(visited', unordered)
      invariant SeenTracks(unordered, seen', result')
    {
      var t := third[k];
      ThirdsStep(f, s, third, k);
      if f == t || s == t {
        continue;
      }
      var nums := [f, s, t];
      result', seen' := Push(result', seen', visited', nums, unordered);
      visited' := visited' + [nums];
    }
    assert third[..|third|] == third;
  }

  /** The 2TR branch (`unordered` false) and the 2PL branch (`unordered` true). */
  method UnrollPairs(first: seq<int>, second: seq<int>, unordered: bool) returns (result: seq<Combination>)
    ensures result == Built(Pairs(first, second), unordered)
  {
    result := [];
    var seen: set<string> := {};
    ghost var visited: seq<seq<int>> := [];
    for i := 0 to |first|
      invariant visited == Pairs(first[..i], second)
      invariant result == Built(visited, unordered)
      invariant SeenTracks(unordered, seen, result)
    {
      PairsStep(first, second, i);
      result, seen, visited := ScanPairSeconds(first[i], second, unordered, result, seen, visited);
    }
    assert first[..|first|] == first;
  }

  /** The loop over `second` for one `f` in the pair branches. */
  method ScanPairSeconds(f: int, second: seq<int>, unordered: bool,
                         result: seq<Combination>, seen: set<string>, ghost visited: seq<seq<int>>)
    returns (result': seq<Combination>, seen': set<string>, ghost visited': seq<seq<int>>)
    requires result == Built(visited, unordered)
    requires SeenTracks(unordered, seen, result)
    ensures visited' == visited + Seconds(f, second)
    ensures result' == Built(visited', unordered)
    ensures SeenTracks(unordered, seen', result')
  {
    result', seen', visited' := result, seen, visited;
    for j := 0 to |second|
      invariant visited' == visited + Seconds(f, second[..j])
      invariant result' == Built(visited', unordered)
      invariant SeenTracks(unordered, seen', result')
    {
      var s := second[j];
      SecondsStep(f, second, j);
      if f == s {
        continue;
      }
      var nums := [f, s];
      result', seen' := Push(result', seen', visited', nums, unordered);
      visited' := visited' + [nums];
    }
    assert second[..|second|] == second;
  }

  /** The body of the innermost loop: push the tuple's combination, and for
      the unordered bet types only when its id is not yet in `seen`. */
  method Push(result: seq<Combination>, seen: set<string>, ghost visited: seq<seq<int>>, nums: seq<int>,
              unordered: bool)
    returns (result': seq<Combination>, seen': set<string>)
    requires result == Built(visited, unordered)
    requires SeenTracks(unordered, seen, result)
    ensures result' == Built(visited + [nums], unordered)
    ensures SeenTracks(unordered, seen', result')
  {
    if unordered {
      var c := Canonical(nums);
      UnorderedSnoc(visited, nums);
      if c.id !in seen {
        seen', result' := seen + {c.id}, result + [c];
        IdsSnoc(result, c);
      } else {
        seen', result' := seen, result;
      }
    } else {
      OrderedSnoc(visited, nums);
      seen', result' := seen, result + [MakeCombination(nums, OrderedSeparator)];
    }
  }
}
