/** The client-side store of src/store/bet-store.ts: the marksheet (active bet
    type and the three selection slots) and the cart of formations. Each
    action replaces fields of the store with values computed by filtering,
    mapping and sorting; the functions below compute those values and the
    class `Store` performs the replacements. */
module BetStore {
  import opened Wrappers
  import opened Sorting
  import opened BetLogic

  // ---------------------------------------------------------------------
  // Lists: filtering.
  // ---------------------------------------------------------------------

  /** `s.filter(keep)`. */
  function Filter<T(!new)>(s: seq<T>, keep: T -> bool): (r: seq<T>)
    ensures |r| <= |s|
    ensures forall x :: x in r <==> x in s && keep(x)
  {
    if s == [] then []
    else
      var x := s[|s| - 1];
      assert s == s[..|s| - 1] + [x];
      if keep(x) then Filter(s[..|s| - 1], keep) + [x] else Filter(s[..|s| - 1], keep)
  }

  /** The kept elements appear in their original relative order: the k-th
      element of the result is the element at a strictly increasing index
      `idx[k]` of the input. */
  lemma {:induction false} FilterKeepsOrder<T(!new)>(s: seq<T>, keep: T -> bool) returns (idx: seq<nat>)
    ensures |idx| == |Filter(s, keep)|
    ensures forall k :: 0 <= k < |idx| ==> idx[k] < |s| && s[idx[k]] == Filter(s, keep)[k]
    ensures forall k, l :: 0 <= k < l < |idx| ==> idx[k] < idx[l]
    decreases |s|
  {
    if s == [] {
      idx := [];
    } else {
      var prefix := s[..|s| - 1];
      var before := FilterKeepsOrder(prefix, keep);
      if keep(s[|s| - 1]) {
        idx := before + [|s| - 1];
      } else {
        idx := before;
      }
    }
  }

  /** Filtering an ascending list keeps it ascending. */
  lemma {:induction false} FilterSorted(s: seq<int>, keep: int -> bool)
    requires Sorted(s)
    ensures Sorted(Filter(s, keep))
    decreases |s|
  {
    if s != [] {
      var prefix := s[..|s| - 1];
      FilterSorted(prefix, keep);
      var r := Filter(prefix, keep);
      forall i | 0 <= i < |r|
        ensures r[i] <= s[|s| - 1]
      {
        assert r[i] in prefix;
      }
    }
  }

  /** `current.filter((n) => n !== boat)`. */
  function Without(s: seq<int>, boat: int): (r: seq<int>)
    ensures forall n :: n in r <==> n in s && n != boat
    ensures Sorted(s) ==> Sorted(r)
  {
    var keep := (n: int) => n != boat;
    assert Sorted(s) ==> Sorted(Filter(s, keep)) by {
      if Sorted(s) {
        FilterSorted(s, keep);
      }
    }
    Filter(s, keep)
  }

  /** Removing a number drops all its occurrences and nothing else. */
  lemma {:induction false} WithoutMultiset(s: seq<int>, boat: int)
    ensures multiset(Without(s, boat)) == multiset(s)[boat := 0]
    decreases |s|
  {
    if s != [] {
      var prefix, x := s[..|s| - 1], s[|s| - 1];
      assert s == prefix + [x];
      WithoutMultiset(prefix, boat);
      assert Without(s, boat) == if x != boat then Without(prefix, boat) + [x] else Without(prefix, boat);
    }
  }

  // ---------------------------------------------------------------------
  // The marksheet.
  // ---------------------------------------------------------------------

  /** The keys of `BoatSelection`. */
  datatype Position = First | Second | Third

  function Slot(sel: BoatSelection, pos: Position): seq<int> {
    match pos
    case First => sel.first
    case Second => sel.second
    case Third => sel.third
  }

  /** `{...selections, [pos]: value}`. */
  function WithSlot(sel: BoatSelection, pos: Position, value: seq<int>): (r: BoatSelection)
    ensures Slot(r, pos) == value
    ensures forall other :: other != pos ==> Slot(r, other) == Slot(sel, other)
  {
    match pos
    case First => sel.(first := value)
    case Second => sel.(second := value)
    case Third => sel.(third := value)
  }

  predicate SlotsSorted(sel: BoatSelection) {
    Sorted(sel.first) && Sorted(sel.second) && Sorted(sel.third)
  }

  /** The new slot of `toggleSelection`: the boat is removed if present,
      otherwise added and the slot sorted ascending. */
  function Toggled(current: seq<int>, boat: int): (r: seq<int>)
    ensures boat in r <==> boat !in current
    ensures forall n :: n != boat ==> (n in r <==> n in current)
    ensures Sorted(current) ==> Sorted(r)
    ensures boat !in current ==> Sorted(r) && multiset(r) == multiset(current) + multiset{boat}
  {
    if boat in current then Without(current, boat)
    else
      var r := SortNumbers(current + [boat]);
      assert multiset(current + [boat]) == multiset(current) + multiset{boat};
      assert forall n :: n in r <==> n in multiset(r);
      r
  }

  /** Toggling the same boat twice restores a sorted slot that holds the boat
      at most once. */
  lemma ToggleTwice(current: seq<int>, boat: int)
    requires Sorted(current) && multiset(current)[boat] <= 1
    ensures Toggled(Toggled(current, boat), boat) == current
  {
    var once := Toggled(current, boat);
    var twice := Toggled(once, boat);
    if boat in current {
      WithoutMultiset(current, boat);
      assert multiset(twice) == multiset(current)[boat := 0] + multiset{boat};
      assert multiset(current)[boat] == 1;
      assert multiset(twice) == multiset(current);
    } else {
      WithoutMultiset(once, boat);
      assert multiset(current)[boat] == 0;
      assert multiset(twice) == (multiset(current) + multiset{boat})[boat := 0];
      assert multiset(twice) == multiset(current);
    }
    SortedUnique(twice, current);
  }

  const AllBoats: seq<int> := [1, 2, 3, 4, 5, 6]

  /** `allBoats.filter((n) => !excludeNumbers.includes(n))`. */
  function TargetBoats(exclude: seq<int>): (r: seq<int>)
    ensures forall n :: n in r <==> 1 <= n <= 6 && n !in exclude
    ensures Sorted(r)
  {
    var keep := (n: int) => n !in exclude;
    assert Sorted(AllBoats);
    FilterSorted(AllBoats, keep);
    Filter(AllBoats, keep)
  }

  /** The new slot of `toggleAll`: empty when every target boat is already
      selected, otherwise exactly the target boats. */
  function ToggleAllSlot(current: seq<int>, exclude: seq<int>): (r: seq<int>)
    ensures r == [] || r == TargetBoats(exclude)
    ensures r == [] <==> forall n :: n in TargetBoats(exclude) ==> n in current
    ensures Sorted(r)
  {
    if forall n :: n in TargetBoats(exclude) ==> n in current then [] else TargetBoats(exclude)
  }

  // ---------------------------------------------------------------------
  // The cart.
  // ---------------------------------------------------------------------

  /** `combinations.map((c) => ({...c, amount}))`. */
  function WithAmount(cs: seq<Combination>, amount: int): (r: seq<Combination>)
    ensures |r| == |cs|
    ensures forall i :: 0 <= i < |r| ==> r[i].id == cs[i].id && r[i].numbers == cs[i].numbers && r[i].amount == amount
  {
    seq(|cs|, i requires 0 <= i < |cs| => cs[i].(amount := amount))
  }

  /** `combinations.map((c) => c.id === combinationId ? {...c, amount} : c)`. */
  function SetCombinationAmount(cs: seq<Combination>, combinationId: string, amount: int): (r: seq<Combination>)
    ensures |r| == |cs|
    ensures forall i :: 0 <= i < |r| ==>
              r[i].id == cs[i].id && r[i].numbers == cs[i].numbers
              && r[i].amount == (if cs[i].id == combinationId then amount else cs[i].amount)
  {
    seq(|cs|, i requires 0 <= i < |cs| => if cs[i].id == combinationId then cs[i].(amount := amount) else cs[i])
  }

  /** The cart after `updateCartItemAmount`. */
  function UpdateItem(cart: seq<Formation>, formationId: string, combinationId: string, amount: int): seq<Formation> {
    seq(|cart|, i requires 0 <= i < |cart| =>
      if cart[i].id != formationId then cart[i]
      else cart[i].(combinations := SetCombinationAmount(cart[i].combinations, combinationId, amount),
                    isIndividualAmount := true))
  }

  /** The cart after `updateCartFormationAmount`. */
  function UpdateFormation(cart: seq<Formation>, formationId: string, amount: int): seq<Formation> {
    seq(|cart|, i requires 0 <= i < |cart| =>
      if cart[i].id != formationId then cart[i]
      else cart[i].(combinations := WithAmount(cart[i].combinations, amount), isIndividualAmount := false,
                    totalExpectedAmount := amount))
  }

  /** `f.combinations.filter((c) => c.id !== combinationId)`. */
  function WithoutCombination(cs: seq<Combination>, combinationId: string): (r: seq<Combination>)
    ensures forall c :: c in r <==> c in cs && c.id != combinationId
  {
    Filter(cs, (c: Combination) => c.id != combinationId)
  }

  /** The cart after `removeCombination`: the combination leaves the named
      formation, then every formation left without combinations is dropped. */
  function RemoveCombination(cart: seq<Formation>, formationId: string, combinationId: string): seq<Formation> {
    var edited := seq(|cart|, i requires 0 <= i < |cart| =>
      if cart[i].id != formationId then cart[i]
      else cart[i].(combinations := WithoutCombination(cart[i].combinations, combinationId)));
    Filter(edited, (f: Formation) => |f.combinations| > 0)
  }

  /** The cart after `removeFormation`. */
  function RemoveFormation(cart: seq<Formation>, formationId: string): seq<Formation> {
    Filter(cart, (f: Formation) => f.id != formationId)
  }

  /** No formation of the cart has an empty combination list. */
  predicate NoEmptyFormation(cart: seq<Formation>) {
    forall f :: f in cart ==> |f.combinations| > 0
  }

  /** The formation `addFormationToCart` appends for a non-empty unrolling. */
  function NewFormation(id: string, betType: BetType, sel: BoatSelection, unrolled: seq<Combination>,
                        amount: int): (f: Formation)
    ensures f.id == id && f.betType == betType && f.selections == sel
    ensures f.totalExpectedAmount == amount && !f.isIndividualAmount
    ensures |f.combinations| == |unrolled|
    ensures forall j :: 0 <= j < |unrolled| ==>
              f.combinations[j].id == unrolled[j].id && f.combinations[j].numbers == unrolled[j].numbers
              && f.combinations[j].amount == amount
  {
    Formation(id, betType, sel, WithAmount(unrolled, amount), amount, false)
  }

  // ---------------------------------------------------------------------
  // Properties of the cart edits.
  // ---------------------------------------------------------------------

  /** `updateCartItemAmount` keeps the cart's length and every other
      formation, marks the named formation as individually priced, and in it
      changes the stake of the named combination only. */
  lemma UpdateItemEffect(cart: seq<Formation>, formationId: string, combinationId: string, amount: int)
    ensures var r := UpdateItem(cart, formationId, combinationId, amount);
            && |r| == |cart|
            && (forall i :: 0 <= i < |cart| && cart[i].id != formationId ==> r[i] == cart[i])
            && (forall i :: 0 <= i < |cart| && cart[i].id == formationId ==>
                  && r[i].id == cart[i].id && r[i].betType == cart[i].betType
                  && r[i].selections == cart[i].selections
                  && r[i].totalExpectedAmount == cart[i].totalExpectedAmount
                  && r[i].isIndividualAmount
                  && |r[i].combinations| == |cart[i].combinations|
                  && (forall j :: 0 <= j < |r[i].combinations| ==>
                        var c, d := cart[i].combinations[j], r[i].combinations[j];
                        d.id == c.id && d.numbers == c.numbers
                        && d.amount == (if c.id == combinationId then amount else c.amount)))
  {
  }

  /** `updateCartFormationAmount` gives every combination of the named
      formation the stake `amount`, records it as the formation's total and
      clears the individual flag; other formations are kept. */
  lemma UpdateFormationEffect(cart: seq<Formation>, formationId: string, amount: int)
    ensures var r := UpdateFormation(cart, formationId, amount);
            && |r| == |cart|
            && (forall i :: 0 <= i < |cart| && cart[i].id != formationId ==> r[i] == cart[i])
            && (forall i :: 0 <= i < |cart| && cart[i].id == formationId ==>
                  && r[i].id == cart[i].id && r[i].betType == cart[i].betType
                  && r[i].selections == cart[i].selections
                  && r[i].totalExpectedAmount == amount && !r[i].isIndividualAmount
                  && |r[i].combinations| == |cart[i].combinations|
                  && (forall j :: 0 <= j < |r[i].combinations| ==>
                        r[i].combinations[j].id == cart[i].combinations[j].id
                        && r[i].combinations[j].numbers == cart[i].combinations[j].numbers
                        && r[i].combinations[j].amount == amount))
  {
  }

  /** Stake edits never empty a formation. */
  lemma UpdatesKeepNoEmptyFormation(cart: seq<Formation>, formationId: string, combinationId: string, amount: int)
    requires NoEmptyFormation(cart)
    ensures NoEmptyFormation(UpdateItem(cart, formationId, combinationId, amount))
    ensures NoEmptyFormation(UpdateFormation(cart, formationId, amount))
  {
    var r1 := UpdateItem(cart, formationId, combinationId, amount);
    var r2 := UpdateFormation(cart, formationId, amount);
    forall f | f in r1 ensures |f.combinations| > 0 {
      var i :| 0 <= i < |r1| && r1[i] == f;
      assert cart[i] in cart;
    }
    forall f | f in r2 ensures |f.combinations| > 0 {
      var i :| 0 <= i < |r2| && r2[i] == f;
      assert cart[i] in cart;
    }
  }

  /** `f` is a formation of the cart with the given id, minus the combination. */
  predicate EditedFrom(f: Formation, cart: seq<Formation>, formationId: string, combinationId: string) {
    exists g :: g in cart && g.id == formationId && f == g.(combinations := WithoutCombination(g.combinations, combinationId))
  }

  /** After `removeCombination` no formation is empty, the named combination
      is gone from the named formation, a formation with another id survives
      unchanged, and nothing new appears. */
  lemma RemoveCombinationEffect(cart: seq<Formation>, formationId: string, combinationId: string)
    ensures var r := RemoveCombination(cart, formationId, combinationId);
            && NoEmptyFormation(r)
            && (forall f :: f in r && f.id == formationId ==> forall c :: c in f.combinations ==> c.id != combinationId)
            && (forall f :: f in cart && f.id != formationId && |f.combinations| > 0 ==> f in r)
            && (forall f :: f in r ==> f in cart || EditedFrom(f, cart, formationId, combinationId))
  {
    var r := RemoveCombination(cart, formationId, combinationId);
    var edited := seq(|cart|, i requires 0 <= i < |cart| =>
      if cart[i].id != formationId then cart[i]
      else cart[i].(combinations := WithoutCombination(cart[i].combinations, combinationId)));
    assert r == Filter(edited, (f: Formation) => |f.combinations| > 0);
    forall f | f in cart && f.id != formationId && |f.combinations| > 0 ensures f in r {
      var i :| 0 <= i < |cart| && cart[i] == f;
      assert edited[i] == f;
    }
    forall f | f in r
      ensures f in cart || EditedFrom(f, cart, formationId, combinationId)
    {
      var i :| 0 <= i < |edited| && edited[i] == f;
      assert cart[i] in cart;
    }
  }

  /** `removeFormation` drops exactly the formations with that id and keeps
      the others, in their original relative order. */
  lemma RemoveFormationEffect(cart: seq<Formation>, formationId: string) returns (idx: seq<nat>)
    ensures var r := RemoveFormation(cart, formationId);
            && (forall f :: f in r <==> f in cart && f.id != formationId)
            && |idx| == |r|
            && (forall k :: 0 <= k < |idx| ==> idx[k] < |cart| && cart[idx[k]] == r[k])
            && (forall k, l :: 0 <= k < l < |idx| ==> idx[k] < idx[l])
  {
    idx := FilterKeepsOrder(cart, (f: Formation) => f.id != formationId);
  }

  /** Removing does not empty a formation that was not empty. */
  lemma RemoveFormationKeepsNoEmptyFormation(cart: seq<Formation>, formationId: string)
    requires NoEmptyFormation(cart)
    ensures NoEmptyFormation(RemoveFormation(cart, formationId))
  {
  }

  // ---------------------------------------------------------------------
  // The store.
  // ---------------------------------------------------------------------

  class Store {
    var activeBetType: BetType
    var selections: BoatSelection
    var cart: seq<Formation>

    /** Every slot is ascending and no formation in the cart is empty. */
    predicate Valid()
      reads this
    {
      SlotsSorted(selections) && NoEmptyFormation(cart)
    }

    /** The initial state: 3TR, empty slots, empty cart. */
    constructor()
      ensures Valid()
      ensures activeBetType == Trifecta && selections == EmptySelection && cart == []
    {
      activeBetType, selections, cart := Trifecta, EmptySelection, [];
    }

    /** Switching the bet type clears the marksheet. */
    method SetBetType(betType: BetType)
      requires Valid()
      modifies this
      ensures Valid()
      ensures activeBetType == betType && selections == EmptySelection && cart == old(cart)
    {
      activeBetType := betType;
      selections := EmptySelection;
    }

    method ToggleSelection(pos: Position, boat: int)
      requires Valid()
      modifies this
      ensures Valid()
      ensures selections == WithSlot(old(selections), pos, Toggled(Slot(old(selections), pos), boat))
      ensures activeBetType == old(activeBetType) && cart == old(cart)
    {
      var current := Slot(selections, pos);
      var newSelection;
      if boat in current {
        newSelection := Without(current, boat);
      } else {
        newSelection := SortNumbers(current + [boat]);
      }
      assert current == Slot(selections, pos) && newSelection == Toggled(current, boat);
      selections := WithSlot(selections, pos, newSelection);
    }

    method ToggleAll(pos: Position, exclude: seq<int>)
      requires Valid()
      modifies this
      ensures Valid()
      ensures selections == WithSlot(old(selections), pos, ToggleAllSlot(Slot(old(selections), pos), exclude))
      ensures activeBetType == old(activeBetType) && cart == old(cart)
    {
      var targetBoats := TargetBoats(exclude);
      var current := Slot(selections, pos);
      var isAllSelected := forall n :: n in targetBoats ==> n in current;
      selections := WithSlot(selections, pos, if isAllSelected then [] else targetBoats);
    }

    method ClearSelections()
      requires Valid()
      modifies this
      ensures Valid()
      ensures selections == EmptySelection && activeBetType == old(activeBetType) && cart == old(cart)
    {
      selections := EmptySelection;
    }

    /** The marksheet becomes a formation at the end of the cart, unless it
        unrolls to no combination at all; `freshId` is the random id and an
        omitted `defaultAmount` is 0. */
    method AddFormationToCart(defaultAmount: Option<int>, freshId: string)
      requires Valid()
      modifies this
      ensures Valid()
      ensures var unrolled := Unrolled(old(activeBetType), old(selections));
              var amount := if defaultAmount.Some? then defaultAmount.value else 0;
              if unrolled == [] then
                activeBetType == old(activeBetType) && selections == old(selections) && cart == old(cart)
              else
                && cart == old(cart) + [NewFormation(freshId, old(activeBetType), old(selections), unrolled, amount)]
                && selections == EmptySelection && activeBetType == old(activeBetType)
    {
      var amount := if defaultAmount.Some? then defaultAmount.value else 0;
      var unrolled := UnrollCombinations(activeBetType, selections);
      if |unrolled| == 0 {
        return;
      }
      var newFormation := Formation(freshId, activeBetType, selections, WithAmount(unrolled, amount), amount, false);
      cart := cart + [newFormation];
      selections := EmptySelection;
    }

    method UpdateCartItemAmount(formationId: string, combinationId: string, amount: int)
      requires Valid()
      modifies this
      ensures Valid()
      ensures cart == UpdateItem(old(cart), formationId, combinationId, amount)
      ensures activeBetType == old(activeBetType) && selections == old(selections)
    {
      UpdatesKeepNoEmptyFormation(cart, formationId, combinationId, amount);
      cart := UpdateItem(cart, formationId, combinationId, amount);
    }

    method UpdateCartFormationAmount(formationId: string, amount: int)
      requires Valid()
      modifies this
      ensures Valid()
      ensures cart == UpdateFormation(old(cart), formationId, amount)
      ensures activeBetType == old(activeBetType) && selections == old(selections)
    {
      UpdatesKeepNoEmptyFormation(cart, formationId, "", amount);
      cart := UpdateFormation(cart, formationId, amount);
    }

    method RemoveCombinationFromCart(formationId: string, combinationId: string)
      requires Valid()
      modifies this
      ensures Valid()
      ensures cart == RemoveCombination(old(cart), formationId, combinationId)
      ensures activeBetType == old(activeBetType) && selections == old(selections)
    {
      RemoveCombinationEffect(cart, formationId, combinationId);
      cart := RemoveCombination(cart, formationId, combinationId);
    }

    method RemoveFormationFromCart(formationId: string)
      requires Valid()
      modifies this
      ensures Valid()
      ensures cart == RemoveFormation(old(cart), formationId)
      ensures activeBetType == old(activeBetType) && selections == old(selections)
    {
      cart := RemoveFormation(cart, formationId);
    }

    method ClearCart()
      requires Valid()
      modifies this
      ensures Valid()
      ensures cart == [] && activeBetType == old(activeBetType) && selections == old(selections)
    {
      cart := [];
    }
  }
}
