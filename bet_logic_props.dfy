/** What `unrollCombinations` promises, stated over its specification
    `Unrolled` (src/lib/bet-logic.ts:27-104). */
module BetLogicProperties {
  import opened Text
  import opened Sorting
  import opened BetLogic

  // ---------------------------------------------------------------------
  // Which tuples the loop nests visit.
  // ---------------------------------------------------------------------

  lemma {:induction false} ThirdsMembers(f: int, s: int, third: seq<int>, nums: seq<int>)
    ensures nums in Thirds(f, s, third) <==>
            |nums| == 3 && nums[0] == f && nums[1] == s && nums[2] in third && nums[2] != f && nums[2] != s
    decreases |third|
  {
    if third != [] {
      var t, prefix := third[|third| - 1], third[..|third| - 1];
      assert third == prefix + [t];
      ThirdsMembers(f, s, prefix, nums);
      if |nums| == 3 && nums[0] == f && nums[1] == s && nums[2] == t {
        assert nums == [f, s, t];
      }
    }
  }

  lemma {:induction false} TriplesWithMembers(f: int, second: seq<int>, third: seq<int>, nums: seq<int>)
    ensures nums in TriplesWith(f, second, third) <==>
            |nums| == 3 && nums[0] == f && nums[1] in second && nums[2] in third
            && nums[1] != f && nums[2] != f && nums[2] != nums[1]
    decreases |second|
  {
    if second != [] {
      var s, prefix := second[|second| - 1], second[..|second| - 1];
      assert second == prefix + [s];
      TriplesWithMembers(f, prefix, third, nums);
      ThirdsMembers(f, s, third, nums);
    }
  }

  lemma {:induction false} TriplesMembers(sel: BoatSelection, nums: seq<int>)
    ensures nums in Triples(sel.first, sel.second, sel.third) <==> IsTriple(sel, nums)
    decreases |sel.first|
  {
    var first := sel.first;
    if first != [] {
      var f, prefix := first[|first| - 1], first[..|first| - 1];
      assert first == prefix + [f];
      TriplesMembers(sel.(first := prefix), nums);
      TriplesWithMembers(f, sel.second, sel.third, nums);
    }
  }

  lemma {:induction false} SecondsMembers(f: int, second: seq<int>, nums: seq<int>)
    ensures nums in Seconds(f, second) <==> |nums| == 2 && nums[0] == f && nums[1] in second && nums[1] != f
    decreases |second|
  {
    if second != [] {
      var s, prefix := second[|second| - 1], second[..|second| - 1];
      assert second == prefix + [s];
      SecondsMembers(f, prefix, nums);
      if |nums| == 2 && nums[0] == f && nums[1] == s {
        assert nums == [f, s];
      }
    }
  }

  lemma {:induction false} PairsMembers(sel: BoatSelection, nums: seq<int>)
    ensures nums in Pairs(sel.first, sel.second) <==> IsPair(sel, nums)
    decreases |sel.first|
  {
    var first := sel.first;
    if first != [] {
      var f, prefix := first[|first| - 1], first[..|first| - 1];
      assert first == prefix + [f];
      PairsMembers(sel.(first := prefix), nums);
      SecondsMembers(f, sel.second, nums);
    }
  }

  // ---------------------------------------------------------------------
  // The ordered bet types: 3TR, 2TR and WIN.
  // ---------------------------------------------------------------------

  lemma OrderedMembers(tuples: seq<seq<int>>, c: Combination)
    ensures c in Ordered(tuples) <==> c.numbers in tuples && c == MakeCombination(c.numbers, OrderedSeparator)
  {
    var r := Ordered(tuples);
    OrderedAt(tuples);
    if c.numbers in tuples && c == MakeCombination(c.numbers, OrderedSeparator) {
      var i :| 0 <= i < |tuples| && tuples[i] == c.numbers;
      assert r[i] == c;
    }
  }

  /** 3TR: exactly the triples of pairwise different boats, one from each
      slot in slot order, with the numbers joined by '-' and stake 0. */
  lemma TrifectaCombinations(sel: BoatSelection, c: Combination)
    ensures c in Unrolled(Trifecta, sel) <==>
            IsTriple(sel, c.numbers) && c.id == JoinNumbers(c.numbers, '-') && c.amount == 0
  {
    OrderedMembers(Triples(sel.first, sel.second, sel.third), c);
    TriplesMembers(sel, c.numbers);
  }

  /** 2TR: exactly the pairs of different boats from the first two slots,
      with the numbers joined by '-' and stake 0; the third slot plays no
      part. */
  lemma ExactaCombinations(sel: BoatSelection, c: Combination)
    ensures c in Unrolled(Exacta, sel) <==>
            IsPair(sel, c.numbers) && c.id == JoinNumbers(c.numbers, '-') && c.amount == 0
    ensures Unrolled(Exacta, sel) == Unrolled(Exacta, sel.(third := []))
  {
    OrderedMembers(Pairs(sel.first, sel.second), c);
    PairsMembers(sel, c.numbers);
  }

  /** WIN: one combination per boat of the first slot, in order, numbers [f]
      and id String(f). */
  lemma WinCombinations(sel: BoatSelection)
    ensures |Unrolled(Win, sel)| == |sel.first|
    ensures forall i :: 0 <= i < |sel.first| ==>
              Unrolled(Win, sel)[i] == Combination(NumberString(sel.first[i]), [sel.first[i]], 0)
  {
    OrderedAt(Singles(sel.first));
  }

  // ---------------------------------------------------------------------
  // The unordered bet types: 3PL and 2PL.
  // ---------------------------------------------------------------------

  lemma IdsMembers(cs: seq<Combination>, id: string)
    ensures id in Ids(cs) <==> exists i :: 0 <= i < |cs| && cs[i].id == id
    decreases |cs|
  {
    if cs != [] {
      var prefix := cs[..|cs| - 1];
      IdsMembers(prefix, id);
      assert forall i :: 0 <= i < |prefix| ==> prefix[i] == cs[i];
    }
  }

  lemma IdsContain(cs: seq<Combination>, i: nat)
    requires i < |cs|
    ensures cs[i].id in Ids(cs)
  {
    IdsMembers(cs, cs[i].id);
  }

  /** The `seen` set keeps one combination per id. */
  lemma {:induction false} UnorderedDistinctIds(tuples: seq<seq<int>>)
    ensures DistinctIds(Unordered(tuples))
    decreases |tuples|
  {
    if tuples != [] {
      var prefix := tuples[..|tuples| - 1];
      var done := Unordered(prefix);
      var c := Canonical(tuples[|tuples| - 1]);
      UnorderedDistinctIds(prefix);
      if c.id !in Ids(done) {
        var r := done + [c];
        assert r == Unordered(tuples);
        forall i, j | 0 <= i < j < |r|
          ensures r[i].id != r[j].id
        {
          assert r[i] == done[i];
          IdsContain(done, i);
          if j < |done| {
            assert r[j] == done[j];
          } else {
            assert r[j] == c;
          }
        }
      }
    }
  }

  /** Every kept combination is the canonical form of a visited tuple. */
  lemma {:induction false} UnorderedSound(tuples: seq<seq<int>>, c: Combination)
    requires c in Unordered(tuples)
    ensures exists k :: 0 <= k < |tuples| && c == Canonical(tuples[k])
    decreases |tuples|
  {
    var prefix := tuples[..|tuples| - 1];
    if c in Unordered(prefix) {
      UnorderedSound(prefix, c);
      var k :| 0 <= k < |prefix| && c == Canonical(prefix[k]);
      assert tuples[k] == prefix[k];
    } else {
      assert c == Canonical(tuples[|tuples| - 1]);
    }
  }

  /** The id of an unordered combination determines its numbers. */
  lemma CanonicalIdDetermines(t: seq<int>, u: seq<int>)
    requires Canonical(t).id == Canonical(u).id
    ensures Canonical(t) == Canonical(u)
  {
    JoinNumbersInjective(SortNumbers(t), SortNumbers(u), UnorderedSeparator);
  }

  /** Two tuples holding the same boats collapse to one combination. */
  lemma CanonicalOfPermutation(t: seq<int>, u: seq<int>)
    requires multiset(t) == multiset(u)
    ensures Canonical(t) == Canonical(u)
  {
    SortedUnique(SortNumbers(t), SortNumbers(u));
  }

  /** Every visited tuple is represented by its canonical form. */
  lemma {:induction false} UnorderedComplete(tuples: seq<seq<int>>, k: nat)
    requires k < |tuples|
    ensures Canonical(tuples[k]) in Unordered(tuples)
    decreases |tuples|
  {
    var prefix, last := tuples[..|tuples| - 1], tuples[|tuples| - 1];
    var done := Unordered(prefix);
    assert tuples == prefix + [last];
    UnorderedSnoc(prefix, last);
    var c := Canonical(tuples[k]);
    if k < |prefix| {
      assert tuples[k] == prefix[k];
      UnorderedComplete(prefix, k);
      assert c in done;
    } else if c.id in Ids(done) {
      IdsMembers(done, c.id);
      var i :| 0 <= i < |done| && done[i].id == c.id;
      UnorderedSound(prefix, done[i]);
      var k' :| 0 <= k' < |prefix| && done[i] == Canonical(prefix[k']);
      CanonicalIdDetermines(prefix[k'], last);
      assert c == done[i];
    } else {
      assert c == (done + [c])[|done|];
    }
  }

  lemma UnorderedMembers(tuples: seq<seq<int>>, c: Combination)
    ensures c in Unordered(tuples) <==> exists k :: 0 <= k < |tuples| && c == Canonical(tuples[k])
  {
    if c in Unordered(tuples) {
      UnorderedSound(tuples, c);
    }
    if exists k :: 0 <= k < |tuples| && c == Canonical(tuples[k]) {
      var k :| 0 <= k < |tuples| && c == Canonical(tuples[k]);
      UnorderedComplete(tuples, k);
    }
  }

  /** No two combinations of the list hold the same numbers. */
  predicate DistinctNumbers(cs: seq<Combination>) {
    forall i, j :: 0 <= i < j < |cs| ==> cs[i].numbers != cs[j].numbers
  }

  /** The shape of an unordered combination: ascending numbers, joined with
      '=' into the id, stake 0. */
  predicate UnorderedShape(c: Combination) {
    Sorted(c.numbers) && c == MakeCombination(c.numbers, UnorderedSeparator)
  }

  lemma {:induction false} UnorderedShapes(tuples: seq<seq<int>>)
    ensures forall c :: c in Unordered(tuples) ==> UnorderedShape(c)
    ensures DistinctIds(Unordered(tuples)) && DistinctNumbers(Unordered(tuples))
  {
    var r := Unordered(tuples);
    forall c | c in r
      ensures UnorderedShape(c)
    {
      UnorderedSound(tuples, c);
    }
    UnorderedDistinctIds(tuples);
    forall i, j | 0 <= i < j < |r|
      ensures r[i].numbers != r[j].numbers
    {
      assert r[i] in r && r[j] in r;
    }
  }

  /** 3PL: each result holds the sorted boats of some triple of pairwise
      different boats from the three slots, joined with '='; every such triple
      is represented by its sorted form; no two results share an id or their
      numbers; every stake is 0. */
  lemma TrioCombinations(sel: BoatSelection)
    ensures forall c :: c in Unrolled(Trio, sel) ==> UnorderedShape(c)
    ensures DistinctIds(Unrolled(Trio, sel)) && DistinctNumbers(Unrolled(Trio, sel))
    ensures forall c :: c in Unrolled(Trio, sel) ==>
              exists t :: IsTriple(sel, t) && multiset(t) == multiset(c.numbers)
    ensures forall t :: IsTriple(sel, t) ==> MakeCombination(SortNumbers(t), UnorderedSeparator) in Unrolled(Trio, sel)
  {
    var tuples := Triples(sel.first, sel.second, sel.third);
    var r := Unordered(tuples);
    UnorderedShapes(tuples);
    forall c | c in r
      ensures exists t :: IsTriple(sel, t) && multiset(t) == multiset(c.numbers)
    {
      UnorderedSound(tuples, c);
      var k :| 0 <= k < |tuples| && c == Canonical(tuples[k]);
      TriplesMembers(sel, tuples[k]);
    }
    forall t | IsTriple(sel, t)
      ensures Canonical(t) in r
    {
      TriplesMembers(sel, t);
      var k :| 0 <= k < |tuples| && tuples[k] == t;
      UnorderedComplete(tuples, k);
    }
  }

  /** 2PL: the same for pairs of different boats from the first two slots. */
  lemma QuinellaCombinations(sel: BoatSelection)
    ensures forall c :: c in Unrolled(Quinella, sel) ==> UnorderedShape(c)
    ensures DistinctIds(Unrolled(Quinella, sel)) && DistinctNumbers(Unrolled(Quinella, sel))
    ensures forall c :: c in Unrolled(Quinella, sel) ==>
              exists t :: IsPair(sel, t) && multiset(t) == multiset(c.numbers)
    ensures forall t :: IsPair(sel, t) ==> MakeCombination(SortNumbers(t), UnorderedSeparator) in Unrolled(Quinella, sel)
  {
    var tuples := Pairs(sel.first, sel.second);
    var r := Unordered(tuples);
    UnorderedShapes(tuples);
    forall c | c in r
      ensures exists t :: IsPair(sel, t) && multiset(t) == multiset(c.numbers)
    {
      UnorderedSound(tuples, c);
      var k :| 0 <= k < |tuples| && c == Canonical(tuples[k]);
      PairsMembers(sel, tuples[k]);
    }
    forall t | IsPair(sel, t)
      ensures Canonical(t) in r
    {
      PairsMembers(sel, t);
      var k :| 0 <= k < |tuples| && tuples[k] == t;
      UnorderedComplete(tuples, k);
    }
  }

  // ---------------------------------------------------------------------
  // Properties shared by all bet types.
  // ---------------------------------------------------------------------

  /** Every generated combination starts with stake 0. */
  lemma AllStakesZero(betType: BetType, sel: BoatSelection, c: Combination)
    requires c in Unrolled(betType, sel)
    ensures c.amount == 0
  {
    match betType
    case Trio => UnorderedShapes(Triples(sel.first, sel.second, sel.third));
    case Quinella => UnorderedShapes(Pairs(sel.first, sel.second));
    case Trifecta => OrderedMembers(Triples(sel.first, sel.second, sel.third), c);
    case Exacta => OrderedMembers(Pairs(sel.first, sel.second), c);
    case Win => OrderedMembers(Singles(sel.first), c);
  }

  lemma {:induction false} ThirdsOfEmpty(f: int, s: int, third: seq<int>)
    requires third == []
    ensures Thirds(f, s, third) == []
  {
  }

  lemma {:induction false} TriplesWithOfEmpty(f: int, second: seq<int>, third: seq<int>)
    requires second == [] || third == []
    ensures TriplesWith(f, second, third) == []
    decreases |second|
  {
    if second != [] {
      TriplesWithOfEmpty(f, second[..|second| - 1], third);
    }
  }

  lemma {:induction false} TriplesOfEmpty(first: seq<int>, second: seq<int>, third: seq<int>)
    requires first == [] || second == [] || third == []
    ensures Triples(first, second, third) == []
    decreases |first|
  {
    if first != [] {
      TriplesOfEmpty(first[..|first| - 1], second, third);
      TriplesWithOfEmpty(first[|first| - 1], second, third);
    }
  }

  lemma {:induction false} PairsOfEmpty(first: seq<int>, second: seq<int>)
    requires first == [] || second == []
    ensures Pairs(first, second) == []
    decreases |first|
  {
    if first != [] {
      PairsOfEmpty(first[..|first| - 1], second);
    }
  }

  /** A slot the bet type reads being empty gives no combination at all: the
      first slot for every type, the second for all but WIN, the third for
      3TR and 3PL. */
  lemma EmptySlotGivesNothing(betType: BetType, sel: BoatSelection)
    requires || sel.first == []
             || (betType != Win && sel.second == [])
             || ((betType == Trifecta || betType == Trio) && sel.third == [])
    ensures Unrolled(betType, sel) == []
  {
    match betType
    case Trifecta => TriplesOfEmpty(sel.first, sel.second, sel.third);
    case Trio => TriplesOfEmpty(sel.first, sel.second, sel.third);
    case Exacta => PairsOfEmpty(sel.first, sel.second);
    case Quinella => PairsOfEmpty(sel.first, sel.second);
    case Win =>
  }

  /** No element of `a` is in `b`. */
  predicate Disjoint(a: seq<int>, b: seq<int>) {
    forall x :: x in a ==> x !in b
  }

  lemma {:induction false} ThirdsCount(f: int, s: int, third: seq<int>)
    requires f !in third && s !in third
    ensures |Thirds(f, s, third)| == |third|
    decreases |third|
  {
    if third != [] {
      ThirdsCount(f, s, third[..|third| - 1]);
    }
  }

  lemma {:induction false} TriplesWithCount(f: int, second: seq<int>, third: seq<int>)
    requires f !in second && f !in third && Disjoint(second, third)
    ensures |TriplesWith(f, second, third)| == |second| * |third|
    decreases |second|
  {
    if second != [] {
      var prefix, s := second[..|second| - 1], second[|second| - 1];
      assert second == prefix + [s];
      assert s in second && f != s;
      assert Disjoint(prefix, third) by {
        forall x | x in prefix ensures x !in third {
          assert x in second;
        }
      }
      TriplesWithCount(f, prefix, third);
      ThirdsCount(f, s, third);
      assert |TriplesWith(f, second, third)| == |prefix| * |third| + |third|;
      MulStep(|prefix|, |third|);
    }
  }

  lemma MulStep(a: int, n: int)
    ensures (a + 1) * n == a * n + n
  {
  }

  lemma {:induction false} TriplesCount(first: seq<int>, second: seq<int>, third: seq<int>)
    requires Disjoint(first, second) && Disjoint(first, third) && Disjoint(second, third)
    ensures |Triples(first, second, third)| == |first| * (|second| * |third|)
    decreases |first|
  {
    if first != [] {
      var prefix, f := first[..|first| - 1], first[|first| - 1];
      assert first == prefix + [f];
      TriplesCount(prefix, second, third);
      TriplesWithCount(f, second, third);
      MulStep(|prefix|, |second| * |third|);
    }
  }

  lemma MulAssoc(a: int, b: int, c: int)
    ensures a * b * c == a * (b * c)
  {
  }

  /** 3TR over pairwise-disjoint slots pushes one combination for every choice
      of a boat per slot. */
  lemma TrifectaCount(sel: BoatSelection)
    requires Disjoint(sel.first, sel.second) && Disjoint(sel.first, sel.third) && Disjoint(sel.second, sel.third)
    ensures |Unrolled(Trifecta, sel)| == |sel.first| * |sel.second| * |sel.third|
  {
    TriplesCount(sel.first, sel.second, sel.third);
    MulAssoc(|sel.first|, |sel.second|, |sel.third|);
  }

  // ---------------------------------------------------------------------
  // Worked examples.
  // ---------------------------------------------------------------------

  /** 3TR with boats 1 and 2 in every slot: no three different boats exist. */
  lemma TrifectaOfTwoBoats()
    ensures Unrolled(Trifecta, BoatSelection([1, 2], [1, 2], [1, 2])) == []
  {
    var xs := [1, 2];
    assert xs[..1] == [1] && [1][..0] == [];
    assert Thirds(1, 2, xs) == [] && Thirds(2, 1, xs) == [];
    assert TriplesWith(1, xs, xs) == [] && TriplesWith(2, xs, xs) == [];
  }

  /** Sorting two numbers puts the smaller first. */
  lemma SortTwo(a: int, b: int)
    ensures SortNumbers([a, b]) == if a <= b then [a, b] else [b, a]
  {
    assert [a, b][1..] == [b] && [b][1..] == [];
    assert SortNumbers([b]) == [b];
    if a > b {
      assert Insert(a, [b]) == [b] + Insert(a, [b][1..]);
    }
  }

  /** A one-digit number prints as its digit. */
  lemma OneDigit(n: int)
    requires 0 <= n < 10
    ensures NumberString(n) == [DigitChar(n)]
  {
  }

  /** The id of an unordered pair of one-digit boats. */
  lemma PairId(a: int, b: int)
    requires 0 <= a < b < 10
    ensures Canonical([a, b]) == Combination([DigitChar(a), UnorderedSeparator, DigitChar(b)], [a, b], 0)
  {
    SortTwo(a, b);
    JoinTwo(a, b, UnorderedSeparator);
    OneDigit(a);
    OneDigit(b);
  }

  lemma IdOfOneTwo()
    ensures Canonical([1, 2]) == Combination("1=2", [1, 2], 0)
  {
    PairId(1, 2);
    assert DigitChar(1) == '1' && DigitChar(2) == '2';
  }

  lemma IdOfTwoOne()
    ensures Canonical([2, 1]) == Combination("1=2", [1, 2], 0)
  {
    IdOfOneTwo();
    SortTwo(2, 1);
    SortTwo(1, 2);
  }

  lemma IdOfOneThree()
    ensures Canonical([1, 3]) == Combination("1=3", [1, 3], 0)
  {
    PairId(1, 3);
    assert DigitChar(1) == '1' && DigitChar(3) == '3';
  }

  lemma IdOfTwoThree()
    ensures Canonical([2, 3]) == Combination("2=3", [2, 3], 0)
  {
    PairId(2, 3);
    assert DigitChar(2) == '2' && DigitChar(3) == '3';
  }

  /** The ids of the small examples below. */
  lemma SmallIds()
    ensures Canonical([1, 2]) == Combination("1=2", [1, 2], 0)
    ensures Canonical([2, 1]) == Combination("1=2", [1, 2], 0)
    ensures Canonical([1, 3]) == Combination("1=3", [1, 3], 0)
    ensures Canonical([2, 3]) == Combination("2=3", [2, 3], 0)
  {
    IdOfOneTwo();
    IdOfTwoOne();
    IdOfOneThree();
    IdOfTwoThree();
  }

  lemma SecondsExamples()
    ensures Seconds(1, [2, 3]) == [[1, 2], [1, 3]] && Seconds(2, [2, 3]) == [[2, 3]]
    ensures Seconds(1, [1, 2]) == [[1, 2]] && Seconds(2, [1, 2]) == [[2, 1]]
  {
    assert [2, 3][..1] == [2] && [1, 2][..1] == [1] && [2][..0] == [] && [1][..0] == [];
  }

  lemma PairsExamples()
    ensures Pairs([1, 2], [2, 3]) == [[1, 2], [1, 3], [2, 3]]
    ensures Pairs([1, 2], [1, 2]) == [[1, 2], [2, 1]]
  {
    SecondsExamples();
    assert [1, 2][..1] == [1] && [1][..0] == [];
  }

  lemma UnorderedOfOne(t: seq<int>)
    ensures Unordered([t]) == [Canonical(t)] && Ids([Canonical(t)]) == {Canonical(t).id}
  {
    UnorderedSnoc([], t);
    IdsSnoc([], Canonical(t));
    assert [] + [t] == [t];
  }

  lemma UnorderedOfTwo(t1: seq<int>, t2: seq<int>)
    requires Canonical(t1).id != Canonical(t2).id
    ensures Unordered([t1, t2]) == [Canonical(t1), Canonical(t2)]
    ensures Ids([Canonical(t1), Canonical(t2)]) == {Canonical(t1).id, Canonical(t2).id}
  {
    var c1, c2 := Canonical(t1), Canonical(t2);
    UnorderedOfOne(t1);
    UnorderedSnoc([t1], t2);
    assert [t1] + [t2] == [t1, t2];
    IdsSnoc([c1], c2);
    assert [c1] + [c2] == [c1, c2];
  }

  lemma UnorderedOfRepeat(t1: seq<int>, t2: seq<int>)
    requires Canonical(t1) == Canonical(t2)
    ensures Unordered([t1, t2]) == [Canonical(t1)]
  {
    UnorderedOfOne(t1);
    UnorderedSnoc([t1], t2);
    assert [t1] + [t2] == [t1, t2];
    assert Canonical(t2).id in Ids([Canonical(t1)]);
  }

  lemma UnorderedOfThree(t1: seq<int>, t2: seq<int>, t3: seq<int>)
    requires Canonical(t1).id != Canonical(t2).id
    requires Canonical(t3).id != Canonical(t1).id && Canonical(t3).id != Canonical(t2).id
    ensures Unordered([t1, t2, t3]) == [Canonical(t1), Canonical(t2), Canonical(t3)]
  {
    var c1, c2, c3 := Canonical(t1), Canonical(t2), Canonical(t3);
    UnorderedOfTwo(t1, t2);
    UnorderedSnoc([t1, t2], t3);
    assert [t1, t2] + [t3] == [t1, t2, t3];
    assert c3.id !in {c1.id, c2.id};
    assert [c1, c2] + [c3] == [c1, c2, c3];
  }

  /** 2PL with first [1, 2] and second [2, 3]: "1=2", "1=3" and "2=3". */
  lemma QuinellaExample()
    ensures Unrolled(Quinella, BoatSelection([1, 2], [2, 3], [])) ==
            [Combination("1=2", [1, 2], 0), Combination("1=3", [1, 3], 0), Combination("2=3", [2, 3], 0)]
  {
    PairsExamples();
    SmallIds();
    UnorderedOfThree([1, 2], [1, 3], [2, 3]);
  }

  /** 2PL with [1, 2] in both slots: 1-2 and 2-1 collapse into one "1=2". */
  lemma QuinellaDeduplicates()
    ensures Unrolled(Quinella, BoatSelection([1, 2], [1, 2], [])) == [Combination("1=2", [1, 2], 0)]
  {
    var t12, t21 := [1, 2], [2, 1];
    assert Pairs([1, 2], [1, 2]) == [t12, t21] by {
      PairsExamples();
    }
    IdOfOneTwo();
    IdOfTwoOne();
    UnorderedOfRepeat(t12, t21);
  }
}
