/** Walking the order book: normalising the levels, estimating the average price, and the liquidity gate. */
module OrderBook {
  import opened Basics
  import opened StableSort

  const MAX_LEVELS := 200

  datatype Level = Level(price: real, qty: real)

  // ------------------------------------------------------------------ normalising

  function PositiveLevels(levels: seq<Level>): seq<Level> {
    if levels == [] then []
    else
      var last := levels[|levels| - 1];
      PositiveLevels(levels[..|levels| - 1]) + (if last.price > 0.0 && last.qty > 0.0 then [last] else [])
  }

  function Ascending(l: Level): real { l.price }

  function Descending(l: Level): real { -l.price }

  function Normalized(levels: seq<Level>, reverse: bool): seq<Level> {
    var first := if |levels| <= MAX_LEVELS then levels else levels[..MAX_LEVELS];
    if reverse then Sort(PositiveLevels(first), Descending) else Sort(PositiveLevels(first), Ascending)
  }

  ghost predicate Positive(levels: seq<Level>) {
    forall i :: 0 <= i < |levels| ==> levels[i].price > 0.0 && levels[i].qty > 0.0
  }

  lemma {:induction false} PositiveLevelsArePositive(levels: seq<Level>)
    ensures Positive(PositiveLevels(levels))
  {
    if levels != [] { PositiveLevelsArePositive(levels[..|levels| - 1]); }
  }

  /** The walk sees positive levels only, best price first. */
  lemma NormalizedIsSortedBook(levels: seq<Level>, reverse: bool)
    ensures Positive(Normalized(levels, reverse))
    ensures Sorted(Normalized(levels, reverse), if reverse then Descending else Ascending)
  {
    var first := if |levels| <= MAX_LEVELS then levels else levels[..MAX_LEVELS];
    var kept := PositiveLevels(first);
    PositiveLevelsArePositive(first);
    SortSpec(kept, if reverse then Descending else Ascending);
    var sorted := Normalized(levels, reverse);
    forall i | 0 <= i < |sorted|
      ensures sorted[i].price > 0.0 && sorted[i].qty > 0.0
    {
      SortMember(kept, if reverse then Descending else Ascending, sorted[i]);
      assert sorted[i] in kept;
    }
  }

  lemma {:induction false} PositiveLevelsCount(levels: seq<Level>, l: Level)
    ensures multiset(PositiveLevels(levels))[l] == if l.price > 0.0 && l.qty > 0.0 then multiset(levels)[l] else 0
  {
    if levels != [] {
      PositiveLevelsCount(levels[..|levels| - 1], l);
      assert levels == levels[..|levels| - 1] + [levels[|levels| - 1]];
    }
  }

  /** Of the first two hundred levels the normalised book holds the positive ones, as often as they occur. */
  lemma NormalizedKeepsPositive(levels: seq<Level>, reverse: bool, l: Level)
    ensures var first := if |levels| <= 200 then levels else levels[..200];
      multiset(Normalized(levels, reverse))[l] == if l.price > 0.0 && l.qty > 0.0 then multiset(first)[l] else 0
  {
    var first := if |levels| <= MAX_LEVELS then levels else levels[..MAX_LEVELS];
    PositiveLevelsCount(first, l);
    SortSpec(PositiveLevels(first), if reverse then Descending else Ascending);
  }

  method NormalizeLevels(levels: seq<Level>, reverse: bool) returns (r: seq<Level>)
    ensures r == Normalized(levels, reverse)
  {
    var first := if |levels| <= MAX_LEVELS then levels else levels[..MAX_LEVELS];
    var kept: seq<Level> := [];
    for i := 0 to |first|
      invariant kept == PositiveLevels(first[..i])
    {
      assert first[..i + 1][..i] == first[..i];
      if first[i].price > 0.0 && first[i].qty > 0.0 { kept := kept + [first[i]]; }
    }
    assert first[..|first|] == first;
    r := if reverse then Sort(kept, Descending) else Sort(kept, Ascending);
  }

  // ------------------------------------------------------------------ the greedy walk

  function Depth(book: seq<Level>): real {
    if book == [] then 0.0 else book[0].qty + Depth(book[1..])
  }

  /** What filling `q` from the front of the book costs (as much of it as the book holds). */
  function Greedy(book: seq<Level>, q: real): real {
    if book == [] || q <= 0.0 then 0.0
    else Min(q, book[0].qty) * book[0].price + Greedy(book[1..], q - Min(q, book[0].qty))
  }

  /** The loop of the original: accumulators updated level by level, with an early exit. */
  method EstimateVwap(buy: bool, quantity: real, bids: seq<Level>, asks: seq<Level>)
    returns (vwap: Option<real>, filled: real)
    requires quantity > 0.0 && Positive(bids) && Positive(asks)
    ensures var book := if buy then asks else bids;
      && (vwap.None? <==> Depth(book) < quantity)
      && filled == Min(quantity, Depth(book))
      && (vwap.Some? ==> vwap.value == Quotient(Greedy(book, quantity), quantity))
  {
    hide Greedy, Depth;
    var book := if buy then asks else bids;
    var remaining, notional := quantity, 0.0;
    filled := 0.0;
    var i := 0;
    assert book[0..] == book;
    while i < |book|
      invariant 0 <= i <= |book|
      invariant filled + remaining == quantity && 0.0 < remaining && 0.0 <= filled
      invariant notional + Greedy(book[i..], remaining) == Greedy(book, quantity)
      invariant filled + Depth(book[i..]) == Depth(book)
    {
      assert book[i..][0] == book[i] && book[i..][1..] == book[i + 1..];
      OneLevel(book[i..], remaining);
      var take := Min(remaining, book[i].qty);
      notional := notional + take * book[i].price;
      filled := filled + take;
      remaining := remaining - take;
      i := i + 1;
      if remaining <= 0.0 {
        DepthNonNegative(book[i..]);
        GreedyEmpty(book[i..], remaining);
        assert remaining == 0.0 && filled == quantity && notional == Greedy(book, quantity);
        return Some(Quotient(notional, filled)), filled;
      }
    }
    DepthEmpty(book[i..]);
    return None, filled;
  }

  function Quotient(a: real, b: real): (q: real)
    requires b != 0.0
    ensures q * b == a
  {
    a / b
  }

  lemma OneLevel(book: seq<Level>, q: real)
    requires book != [] && q > 0.0
    ensures var take := Min(q, book[0].qty);
      Greedy(book, q) == take * book[0].price + Greedy(book[1..], q - take) &&
        Depth(book) == book[0].qty + Depth(book[1..])
  {
  }

  lemma DepthEmpty(book: seq<Level>)
    requires book == []
    ensures Depth(book) == 0.0
  {
  }

  lemma {:induction false} DepthNonNegative(book: seq<Level>)
    requires QtysPositive(book)
    ensures Depth(book) >= 0.0
  {
    if book != [] { DepthNonNegative(book[1..]); }
  }

  // ------------------------------------------------------------------ optimality

  /** A way of taking `q` from the book: at most the quantity of each level. */
  ghost predicate Allocation(book: seq<Level>, x: seq<real>, q: real) {
    && |x| == |book| && (forall i :: 0 <= i < |x| ==> 0.0 <= x[i] <= book[i].qty)
    && Total(x) == q
  }

  ghost function Total(x: seq<real>): real {
    if x == [] then 0.0 else x[0] + Total(x[1..])
  }

  /** What a quantity costs at a price; the lemmas below are all the arithmetic that the arguments need. */
  function Pay(q: real, p: real): real {
    q * p
  }

  ghost function Cost(book: seq<Level>, x: seq<real>): real
    requires |x| == |book|
  {
    if book == [] then 0.0 else Pay(x[0], book[0].price) + Cost(book[1..], x[1..])
  }

  lemma PayIs(q: real, p: real)
    ensures Pay(q, p) == q * p
  {
  }

  lemma PayNothing(p: real)
    ensures Pay(0.0, p) == 0.0
  {
  }

  lemma PayInParts(whole: real, a: real, b: real, p: real)
    requires whole == a + b
    ensures Pay(whole, p) == Pay(a, p) + Pay(b, p)
  {
  }

  lemma PayMore(q: real, p: real, dearer: real)
    requires 0.0 <= q && p <= dearer
    ensures Pay(q, p) <= Pay(q, dearer)
  {
    Times(p, dearer, q);
  }

  lemma Times(a: real, b: real, c: real)
    requires a <= b && 0.0 <= c
    ensures c * a <= c * b && a * c <= b * c
  {
    assert (b - a) * c >= 0.0;
  }

  lemma TimesStrict(a: real, b: real, c: real)
    requires a < b && 0.0 < c
    ensures a * c < b * c
  {
    assert (b - a) * c > 0.0;
  }

  ghost predicate QtysPositive(book: seq<Level>) {
    forall i :: 0 <= i < |book| ==> book[i].qty > 0.0
  }

  ghost predicate Floor(book: seq<Level>, p: real) {
    forall i :: 0 <= i < |book| ==> p <= book[i].price
  }

  lemma GreedyEmpty(book: seq<Level>, q: real)
    requires book == [] || q <= 0.0
    ensures Greedy(book, q) == 0.0
  {
  }

  lemma GreedyFirst(book: seq<Level>, q: real)
    requires book != [] && 0.0 <= q <= book[0].qty
    ensures Greedy(book, q) == Pay(q, book[0].price)
  {
  }

  lemma GreedyPast(book: seq<Level>, q: real)
    requires book != [] && q >= book[0].qty > 0.0
    ensures Greedy(book, q) == Pay(book[0].qty, book[0].price) + Greedy(book[1..], q - book[0].qty)
  {
  }

  /** Filling `d` more costs at least `d` times any lower bound on the prices. */
  lemma {:induction false} GreedyGrows(book: seq<Level>, q: real, d: real, p: real)
    requires QtysPositive(book) && Floor(book, p) && 0.0 <= q && 0.0 <= d && q + d <= Depth(book)
    ensures Greedy(book, q + d) >= Greedy(book, q) + Pay(d, p)
  {
    hide Greedy, Pay;
    if book == [] {
      assert d == 0.0;
      GreedyEmpty(book, q);
      PayNothing(p);
    } else {
      var l, rest := book[0], book[1..];
      if q + d <= l.qty {
        GreedyFirst(book, q);
        GreedyFirst(book, q + d);
        PayInParts(q + d, q, d, l.price);
        PayMore(d, p, l.price);
      } else if q <= l.qty {
        var under, over := l.qty - q, q + d - l.qty;
        GreedyGrows(rest, 0.0, over, p);
        GreedyEmpty(rest, 0.0);
        GreedyFirst(book, q);
        GreedyPast(book, q + d);
        PayInParts(l.qty, q, under, l.price);
        PayInParts(d, under, over, p);
        PayMore(under, p, l.price);
      } else {
        GreedyGrows(rest, q - l.qty, d, p);
        GreedyPast(book, q);
        GreedyPast(book, q + d);
        assert q + d - l.qty == q - l.qty + d;
      }
    }
  }

  lemma SortedTail(book: seq<Level>)
    requires book != [] && QtysPositive(book) && Sorted(book, Ascending)
    ensures Floor(book, book[0].price) && Floor(book[1..], book[0].price)
    ensures Sorted(book[1..], Ascending) && QtysPositive(book[1..])
  {
    forall i | 0 <= i < |book|
      ensures book[0].price <= book[i].price
    {
      assert i == 0 || Ascending(book[0]) <= Ascending(book[i]);
    }
    forall i, j | 0 <= i < j < |book[1..]|
      ensures Ascending(book[1..][i]) <= Ascending(book[1..][j])
    {
      assert Ascending(book[i + 1]) <= Ascending(book[j + 1]);
    }
  }

  lemma TotalTail(x: seq<real>)
    requires x != []
    ensures Total(x) == x[0] + Total(x[1..])
  {
  }

  lemma CostTail(book: seq<Level>, x: seq<real>)
    requires |x| == |book| && book != []
    ensures Cost(book, x) == Pay(x[0], book[0].price) + Cost(book[1..], x[1..])
  {
  }

  lemma AllocationTail(book: seq<Level>, x: seq<real>, q: real)
    requires book != [] && Allocation(book, x, q)
    ensures Allocation(book[1..], x[1..], q - x[0]) && 0.0 <= x[0] <= book[0].qty
    ensures Cost(book, x) == Pay(x[0], book[0].price) + Cost(book[1..], x[1..])
  {
    hide Total, Cost, Pay;
    TotalTail(x);
    CostTail(book, x);
  }

  lemma {:induction false} AllocationWithinDepth(book: seq<Level>, x: seq<real>, q: real)
    requires Allocation(book, x, q)
    ensures 0.0 <= q <= Depth(book)
  {
    if book != [] {
      AllocationTail(book, x, q);
      AllocationWithinDepth(book[1..], x[1..], q - x[0]);
    }
  }

  /** On a book sorted by ascending price no allocation of the quantity is cheaper than the walk. */
  lemma {:induction false} GreedyIsCheapest(book: seq<Level>, x: seq<real>, q: real)
    requires QtysPositive(book) && Sorted(book, Ascending) && Allocation(book, x, q)
    ensures Greedy(book, q) <= Cost(book, x)
  {
    if book != [] {
      hide Greedy, Sorted, QtysPositive, Allocation, Cost, Pay, Floor, Depth;
      var l, rest, y := book[0], book[1..], x[1..];
      var left := q - x[0];
      SortedTail(book);
      AllocationTail(book, x, q);
      GreedyIsCheapest(rest, y, left);
      AllocationWithinDepth(book, x, q);
      AllocationWithinDepth(rest, y, left);
      FirstLevelExchange(book, q, x[0]);
    }
  }

  /** Taking less than the walk does from the first level only moves quantity to dearer ones. */
  lemma FirstLevelExchange(book: seq<Level>, q: real, t: real)
    requires book != [] && QtysPositive(book) && QtysPositive(book[1..]) && Floor(book[1..], book[0].price)
    requires 0.0 <= t <= book[0].qty && 0.0 <= q - t <= Depth(book[1..])
    ensures Greedy(book, q) <= Pay(t, book[0].price) + Greedy(book[1..], q - t)
  {
    hide Greedy, Depth, Pay;
    var l, rest, left := book[0], book[1..], q - t;
    if q <= l.qty {
      GreedyFirst(book, q);
      GreedyEmpty(rest, 0.0);
      GreedyGrows(rest, 0.0, left, l.price);
      PayInParts(q, t, left, l.price);
    } else {
      GreedyPast(book, q);
      GreedyGrows(rest, q - l.qty, l.qty - t, l.price);
      assert q - l.qty + (l.qty - t) == left;
      PayInParts(l.qty, t, l.qty - t, l.price);
    }
  }

  function Negated(book: seq<Level>): seq<Level> {
    if book == [] then [] else [Level(-book[0].price, book[0].qty)] + Negated(book[1..])
  }

  lemma {:induction false} NegatedAt(book: seq<Level>)
    ensures |Negated(book)| == |book|
    ensures forall i :: 0 <= i < |book| ==> Negated(book)[i] == Level(-book[i].price, book[i].qty)
  {
    if book != [] { NegatedAt(book[1..]); }
  }

  lemma {:induction false} NegatedGreedy(book: seq<Level>, q: real)
    ensures Greedy(Negated(book), q) == -Greedy(book, q)
  {
    if book != [] && q > 0.0 {
      assert Negated(book)[1..] == Negated(book[1..]);
      NegatedGreedy(book[1..], q - Min(q, book[0].qty));
    }
  }

  lemma {:induction false} NegatedCost(book: seq<Level>, x: seq<real>)
    requires |x| == |book|
    ensures |Negated(book)| == |book| && Cost(Negated(book), x) == -Cost(book, x)
  {
    NegatedAt(book);
    if book != [] {
      assert Negated(book)[1..] == Negated(book[1..]);
      NegatedCost(book[1..], x[1..]);
    }
  }

  /** On a book sorted by descending price no allocation of the quantity earns more than the walk. */
  lemma GreedyEarnsMost(book: seq<Level>, x: seq<real>, q: real)
    requires QtysPositive(book) && Sorted(book, Descending) && Allocation(book, x, q)
    ensures Greedy(book, q) >= Cost(book, x)
  {
    NegatedAt(book);
    var n := Negated(book);
    forall i, j | 0 <= i < j < |n|
      ensures Ascending(n[i]) <= Ascending(n[j])
    {
      assert Descending(book[i]) <= Descending(book[j]);
    }
    GreedyIsCheapest(n, x, q);
    NegatedGreedy(book, q);
    NegatedCost(book, x);
  }

  /** What the walk takes from each level. */
  function Walked(book: seq<Level>, q: real): (x: seq<real>)
    ensures |x| == |book|
  {
    if book == [] then [] else [Min(q, book[0].qty)] + Walked(book[1..], q - Min(q, book[0].qty))
  }

  /** The walk is itself an allocation of the quantity, and its cost is the walk's total. */
  lemma WalkIsAnAllocation(book: seq<Level>, q: real)
    requires QtysPositive(book) && 0.0 <= q <= Depth(book)
    ensures Allocation(book, Walked(book, q), q) && Cost(book, Walked(book, q)) == Greedy(book, q)
  {
    hide *;
    WalkAllocates(book, q);
    WalkCosts(book, q);
  }

  lemma {:induction false} WalkAllocates(book: seq<Level>, q: real)
    requires QtysPositive(book) && 0.0 <= q <= Depth(book)
    ensures Allocation(book, Walked(book, q), q)
  {
    if book != [] {
      var take, rest := Min(q, book[0].qty), book[1..];
      WalkedTail(book, q);
      DepthNonNegative(rest);
      hide Walked, Depth, Allocation;
      WalkAllocates(rest, q - take);
      AllocationCons(book, take, Walked(rest, q - take), q);
    }
  }

  lemma {:induction false} WalkCosts(book: seq<Level>, q: real)
    requires QtysPositive(book) && 0.0 <= q
    ensures Cost(book, Walked(book, q)) == Greedy(book, q)
  {
    if book != [] {
      var take, rest := Min(q, book[0].qty), book[1..];
      WalkedTail(book, q);
      hide Walked, Greedy, Cost, Pay, Depth;
      WalkCosts(rest, q - take);
      CostTail(book, Walked(book, q));
      if q <= 0.0 {
        GreedyEmpty(book, q);
        GreedyEmpty(rest, 0.0);
        PayNothing(book[0].price);
      } else {
        OneLevel(book, q);
        PayIs(take, book[0].price);
      }
    }
  }

  lemma AllocationCons(book: seq<Level>, take: real, x: seq<real>, q: real)
    requires book != [] && 0.0 <= take <= book[0].qty && Allocation(book[1..], x, q - take)
    ensures Allocation(book, [take] + x, q)
  {
    hide Total;
    TotalTail([take] + x);
    assert ([take] + x)[1..] == x;
  }

  lemma WalkedTail(book: seq<Level>, q: real)
    requires book != []
    ensures var take := Min(q, book[0].qty);
      && Walked(book, q) == [take] + Walked(book[1..], q - take)
      && Depth(book) == book[0].qty + Depth(book[1..])
  {
  }

  /** On an ascending book the walk's total is the minimum over all allocations of the quantity. */
  lemma GreedyIsTheMinimum(book: seq<Level>, q: real)
    requires QtysPositive(book) && Sorted(book, Ascending) && 0.0 <= q <= Depth(book)
    ensures exists x :: Allocation(book, x, q) && Cost(book, x) == Greedy(book, q)
    ensures forall x :: Allocation(book, x, q) ==> Greedy(book, q) <= Cost(book, x)
  {
    hide Greedy, Cost, Sorted, Total;
    WalkIsAnAllocation(book, q);
    forall x | Allocation(book, x, q)
      ensures Greedy(book, q) <= Cost(book, x)
    {
      GreedyIsCheapest(book, x, q);
    }
  }

  /** On a descending book it is the maximum. */
  lemma GreedyIsTheMaximum(book: seq<Level>, q: real)
    requires QtysPositive(book) && Sorted(book, Descending) && 0.0 <= q <= Depth(book)
    ensures exists x :: Allocation(book, x, q) && Cost(book, x) == Greedy(book, q)
    ensures forall x :: Allocation(book, x, q) ==> Greedy(book, q) >= Cost(book, x)
  {
    hide Greedy, Cost, Sorted, Total;
    WalkIsAnAllocation(book, q);
    forall x | Allocation(book, x, q)
      ensures Greedy(book, q) >= Cost(book, x)
    {
      GreedyEarnsMost(book, x, q);
    }
  }

  /** The average price at `q1` is at most that at `q2`, without dividing. */
  ghost predicate AverageLeq(book: seq<Level>, q1: real, q2: real) {
    q2 * Greedy(book, q1) <= q1 * Greedy(book, q2)
  }

  /** The average price of a buy does not fall as the quantity grows. */
  lemma {:induction false} AveragePriceRises(book: seq<Level>, q1: real, q2: real)
    requires QtysPositive(book) && Sorted(book, Ascending) && 0.0 <= q1 <= q2 <= Depth(book)
    ensures AverageLeq(book, q1, q2)
  {
    if book == [] {
      assert q1 == 0.0;
      hide Depth, Sorted;
      GreedyEmpty(book, q1);
    } else {
      SortedTail(book);
      hide AverageLeq, Sorted;
      if q1 <= book[0].qty {
        AverageWithinFirst(book, q1, q2);
      } else {
        AveragePriceRises(book[1..], q1 - book[0].qty, q2 - book[0].qty);
        AveragePastFirst(book, q1, q2);
      }
    }
  }

  lemma AverageWithinFirst(book: seq<Level>, q1: real, q2: real)
    requires book != [] && QtysPositive(book) && Floor(book, book[0].price)
    requires 0.0 <= q1 <= q2 <= Depth(book) && q1 <= book[0].qty
    ensures AverageLeq(book, q1, q2)
  {
    hide Greedy, Depth, QtysPositive, Floor;
    GreedyFirst(book, q1);
    GreedyEmpty(book, 0.0);
    GreedyGrows(book, 0.0, q2, book[0].price);
    PayIs(q1, book[0].price);
    PayIs(q2, book[0].price);
    hide Pay;
    FirstStep(q1, q2, book[0].price, Greedy(book, q1), Greedy(book, q2));
  }

  lemma AveragePastFirst(book: seq<Level>, q1: real, q2: real)
    requires book != [] && QtysPositive(book) && QtysPositive(book[1..]) && Floor(book[1..], book[0].price)
    requires book[0].qty < q1 <= q2 <= Depth(book)
    requires AverageLeq(book[1..], q1 - book[0].qty, q2 - book[0].qty)
    ensures AverageLeq(book, q1, q2)
  {
    hide Greedy, Floor;
    var l, rest := book[0], book[1..];
    var a, b := q1 - l.qty, q2 - l.qty;
    assert Depth(book) == l.qty + Depth(rest);
    hide Depth;
    GreedyPast(book, q1);
    GreedyPast(book, q2);
    GreedyGrows(rest, a, b - a, l.price);
    assert a + (b - a) == b;
    PayIs(l.qty, l.price);
    PayIs(b - a, l.price);
    hide Pay;
    ConvexStep(l.qty, l.price, a, b, Greedy(rest, a), Greedy(rest, b), q1, q2, Greedy(book, q1), Greedy(book, q2));
  }

  lemma FirstStep(q1: real, q2: real, p: real, g1: real, g2: real)
    requires 0.0 <= q1 && q2 * p <= g2 && g1 == q1 * p
    ensures q2 * g1 <= q1 * g2
  {
    Times(q2 * p, g2, q1);
    assert q2 * (q1 * p) == q1 * (q2 * p);
  }

  lemma ConvexStep(c: real, p: real, a: real, b: real, ga: real, gb: real, q1: real, q2: real, g1: real, g2: real)
    requires 0.0 < c && a <= b && b * ga <= a * gb && gb >= ga + (b - a) * p
    requires q1 == a + c && q2 == b + c && g1 == c * p + ga && g2 == c * p + gb
    ensures q2 * g1 <= q1 * g2
  {
    Times((b - a) * p, gb - ga, c);
    var cp := c * p;
    assert c * ((b - a) * p) == (b - a) * cp;
    assert q2 * g1 == b * cp + b * ga + c * cp + c * ga;
    assert q1 * g2 == a * cp + a * gb + c * cp + c * gb;
    assert (b - a) * cp == b * cp - a * cp;
    assert c * (gb - ga) == c * gb - c * ga;
  }

  /** The average price of a buy is at least the best ask. */
  lemma AverageAtLeastBestAsk(book: seq<Level>, q: real)
    requires QtysPositive(book) && Sorted(book, Ascending) && book != [] && 0.0 < q <= Depth(book)
    ensures Greedy(book, q) >= q * book[0].price
  {
    SortedTail(book);
    hide Greedy, Depth;
    GreedyEmpty(book, 0.0);
    GreedyGrows(book, 0.0, q, book[0].price);
    PayIs(q, book[0].price);
    hide Pay;
  }

  // ------------------------------------------------------------------ the gate

  datatype Limits = Limits(maxSpreadBps: real, maxSlippageBps: real, minDepthRatio: real)
  datatype LiquidityReason =
    | QuantityNotPositive | EmptyBook | CrossedBook | SpreadTooWide | NotEnoughDepth | SlippageTooHigh | DepthTooThin

  function DepthNotional(book: seq<Level>): real {
    if book == [] then 0.0 else DepthNotional(book[..|book| - 1]) + book[|book| - 1].price * book[|book| - 1].qty
  }

  ghost function Quantities(book: seq<Level>): seq<real> {
    seq(|book|, i requires 0 <= i < |book| => book[i].qty)
  }

  lemma QuantitiesTail(book: seq<Level>)
    requires book != []
    ensures Quantities(book) == [book[0].qty] + Quantities(book[1..])
    ensures Quantities(book) == Quantities(book[..|book| - 1]) + [book[|book| - 1].qty]
  {
  }

  /** The depth is the quantity of all levels. */
  lemma {:induction false} DepthIsTotal(book: seq<Level>)
    ensures Depth(book) == Total(Quantities(book))
  {
    if book != [] {
      DepthIsTotal(book[1..]);
      QuantitiesTail(book);
    }
  }

  lemma {:induction false} CostAppend(book: seq<Level>, x: seq<real>, l: Level, y: real)
    requires |x| == |book|
    ensures Cost(book + [l], x + [y]) == Cost(book, x) + Pay(y, l.price)
  {
    if book == [] {
      assert book + [l] == [l] && x + [y] == [y] && [l][1..] == [] && [y][1..] == [];
      CostTail([l], [y]);
      NoCost();
    } else {
      assert (book + [l])[1..] == book[1..] + [l] && (x + [y])[1..] == x[1..] + [y];
      CostAppend(book[1..], x[1..], l, y);
      CostTail(book, x);
      CostTail(book + [l], x + [y]);
      hide Cost, Pay;
    }
  }

  lemma NoCost()
    ensures Cost([], []) == 0.0
  {
  }

  /** The notional depth is what taking every level whole would cost. */
  lemma {:induction false} DepthNotionalIsCost(book: seq<Level>)
    ensures DepthNotional(book) == Cost(book, Quantities(book))
  {
    if book != [] {
      var init, last := book[..|book| - 1], book[|book| - 1];
      DepthNotionalIsCost(init);
      QuantitiesTail(book);
      CostAppend(init, Quantities(init), last, last.qty);
      assert book == init + [last];
      hide Cost, Quantities;
    }
  }

  /** The levels hold the quantity, and as a whole at least the required multiple of the order's notional. */
  ghost predicate DeepEnough(book: seq<Level>, quantity: real, limits: Limits) {
    && book != [] && quantity <= Total(Quantities(book))
    && Cost(book, Quantities(book)) >= quantity * book[0].price * limits.minDepthRatio
  }

  lemma DeepIff(book: seq<Level>, quantity: real, limits: Limits)
    ensures DeepEnough(book, quantity, limits) <==>
            && book != [] && quantity <= Depth(book)
            && DepthNotional(book) >= quantity * book[0].price * limits.minDepthRatio
  {
    DepthIsTotal(book);
    DepthNotionalIsCost(book);
    hide Depth, DepthNotional, Total, Cost, Quantities;
  }

  /**
   The whole quantity can be filled, at a total within the slippage limit of the best price, from a deep enough book.
   */
  ghost predicate FillsWithin(buy: bool, quantity: real, book: seq<Level>, limits: Limits) {
    && quantity > 0.0 && DeepEnough(book, quantity, limits)
    && (buy ==> Greedy(book, quantity) <= quantity * book[0].price * (1.0 + limits.maxSlippageBps / 10000.0))
    && (!buy ==> Greedy(book, quantity) >= quantity * book[0].price * (1.0 - limits.maxSlippageBps / 10000.0))
  }

  function SlippageBps(v: real, reference: real): real
    requires reference != 0.0
  {
    Abs((v - reference) / reference) * 10000.0
  }

  function SpreadBps(bid: real, ask: real): real
    requires bid > 0.0 && ask > 0.0
  {
    (ask - bid) / ((bid + ask) / 2.0) * 10000.0
  }

  /** The spread in basis points of the middle price stays within the limit: no division, twice the middle price. */
  ghost predicate NarrowSpread(bid: real, ask: real, maxBps: real) {
    20000.0 * (ask - bid) <= maxBps * (bid + ask)
  }

  /** The total differs from that at the best price by at most the limit, in basis points of the latter. */
  ghost predicate LittleSlippage(total: real, quantity: real, best: real, maxBps: real) {
    -(maxBps * (quantity * best)) <= 10000.0 * (total - quantity * best) <= maxBps * (quantity * best)
  }

  /** The gate's decision, without the list of reasons. */
  ghost predicate Liquid(buy: bool, quantity: real, bids: seq<Level>, asks: seq<Level>, limits: Limits) {
    var book := if buy then asks else bids;
    && quantity > 0.0 && bids != [] && asks != [] && bids[0].price < asks[0].price
    && NarrowSpread(bids[0].price, asks[0].price, limits.maxSpreadBps)
    && DeepEnough(book, quantity, limits)
    && LittleSlippage(Greedy(book, quantity), quantity, book[0].price, limits.maxSlippageBps)
  }

  /** Multiplying out a quotient. */
  lemma Ratio(d: real, r: real, x: real, limit: real)
    requires r > 0.0 && d * r == x
    ensures d <= limit <==> x <= limit * r
    ensures -limit <= d <==> -(limit * r) <= x
  {
    if d <= limit { Times(d, limit, r); } else { TimesStrict(limit, d, r); }
    if -limit <= d { Times(-limit, d, r); } else { TimesStrict(d, -limit, r); }
  }

  lemma SpreadIff(bid: real, ask: real, maxBps: real)
    requires bid > 0.0 && ask > 0.0
    ensures SpreadBps(bid, ask) <= maxBps <==> NarrowSpread(bid, ask, maxBps)
  {
    var middle := (bid + ask) / 2.0;
    var d := (ask - bid) / middle;
    assert d * middle == ask - bid;
    Ratio(d, middle, ask - bid, maxBps / 10000.0);
    assert SpreadBps(bid, ask) == d * 10000.0;
    assert maxBps / 10000.0 * middle * 20000.0 == maxBps * (bid + ask);
  }

  lemma SlippageIff(total: real, quantity: real, best: real, maxBps: real)
    requires quantity > 0.0 && best > 0.0
    ensures SlippageBps(Quotient(total, quantity), best) <= maxBps <==> LittleSlippage(total, quantity, best, maxBps)
  {
    var v, limit := Quotient(total, quantity), maxBps / 10000.0;
    var d := (v - best) / best;
    assert d * best == v - best;
    hide Quotient;
    Factors(d, best, v, quantity, total);
    PositiveProduct(quantity, best);
    Ratio(d, quantity * best, total - quantity * best, limit);
    assert SlippageBps(v, best) <= maxBps <==> -limit <= d <= limit;
    Scaled(limit, quantity * best, maxBps, total - quantity * best);
  }

  lemma Factors(d: real, best: real, v: real, quantity: real, total: real)
    requires d * best == v - best && v * quantity == total
    ensures d * (quantity * best) == total - quantity * best
  {
    assert d * (quantity * best) == quantity * (d * best);
    assert quantity * (v - best) == v * quantity - quantity * best;
  }

  lemma PositiveProduct(a: real, b: real)
    requires a > 0.0 && b > 0.0
    ensures a * b > 0.0
  {
  }

  lemma Scaled(limit: real, base: real, maxBps: real, x: real)
    requires limit == maxBps / 10000.0
    ensures x <= limit * base <==> 10000.0 * x <= maxBps * base
    ensures -(limit * base) <= x <==> -(maxBps * base) <= 10000.0 * x
  {
    assert limit * base * 10000.0 == maxBps * base;
  }

  /** A liquid order fills completely, at a total within its slippage limit. */
  lemma LiquidOrderFills(buy: bool, quantity: real, bids: seq<Level>, asks: seq<Level>, limits: Limits)
    requires Positive(bids) && Positive(asks) && Liquid(buy, quantity, bids, asks, limits)
    ensures FillsWithin(buy, quantity, if buy then asks else bids, limits)
  {
    hide Greedy, DeepEnough, SlippageBps, NarrowSpread, LittleSlippage, Quotient;
    var book := if buy then asks else bids;
    assert book[0].price > 0.0;
    SlippageIff(Greedy(book, quantity), quantity, book[0].price, limits.maxSlippageBps);
    var v := Quotient(Greedy(book, quantity), quantity);
    assert v * quantity == Greedy(book, quantity);
    SlippageBound(v, book[0].price, limits.maxSlippageBps, quantity);
  }

  /** The gate accepts exactly the liquid orders. */
  method LiquidityCheck(buy: bool, quantity: real, rawBids: seq<Level>, rawAsks: seq<Level>, limits: Limits)
    returns (reasons: seq<LiquidityReason>)
    ensures var bids, asks := Normalized(rawBids, true), Normalized(rawAsks, false);
      && Positive(bids) && Positive(asks)
      && (reasons == [] <==> Liquid(buy, quantity, bids, asks, limits))
      && (reasons == [] ==> FillsWithin(buy, quantity, if buy then asks else bids, limits))
  {
    hide Greedy, Depth, DepthNotional, Normalized, Sorted, FillsWithin, SlippageBps, SpreadBps, DeepEnough,
      NarrowSpread, LittleSlippage;
    NormalizedIsSortedBook(rawBids, true);
    NormalizedIsSortedBook(rawAsks, false);
    if quantity <= 0.0 { return [QuantityNotPositive]; }
    var bids := NormalizeLevels(rawBids, true);
    var asks := NormalizeLevels(rawAsks, false);
    if |bids| == 0 || |asks| == 0 { return [EmptyBook]; }
    reasons := [];
    var bestBid, bestAsk := bids[0].price, asks[0].price;
    if bestBid >= bestAsk { reasons := reasons + [CrossedBook]; }
    if SpreadBps(bestBid, bestAsk) > limits.maxSpreadBps { reasons := reasons + [SpreadTooWide]; }
    var vwap, _ := EstimateVwap(buy, quantity, bids, asks);
    var reference := if buy then bestAsk else bestBid;
    if vwap.None? {
      reasons := reasons + [NotEnoughDepth];
    } else if SlippageBps(vwap.value, reference) > limits.maxSlippageBps {
      reasons := reasons + [SlippageTooHigh];
    }
    var orderNotional := quantity * reference;
    var depth := SumNotional(if buy then asks else bids);
    if depth < orderNotional * limits.minDepthRatio { reasons := reasons + [DepthTooThin]; }
    ghost var book := if buy then asks else bids;
    DeepIff(book, quantity, limits);
    SpreadIff(bestBid, bestAsk, limits.maxSpreadBps);
    SlippageIff(Greedy(book, quantity), quantity, reference, limits.maxSlippageBps);
    if reasons == [] { LiquidOrderFills(buy, quantity, bids, asks, limits); }
  }

  method SumNotional(book: seq<Level>) returns (sum: real)
    ensures sum == DepthNotional(book)
  {
    sum := 0.0;
    for i := 0 to |book|
      invariant sum == DepthNotional(book[..i])
    {
      assert book[..i + 1][..i] == book[..i];
      sum := sum + book[i].price * book[i].qty;
    }
    assert book[..|book|] == book;
  }

  lemma SlippageBound(v: real, ref: real, bps: real, q: real)
    requires ref > 0.0 && q > 0.0 && SlippageBps(v, ref) <= bps
    ensures v * q <= q * ref * (1.0 + bps / 10000.0)
    ensures v * q >= q * ref * (1.0 - bps / 10000.0)
  {
    var d, m := (v - ref) / ref, bps / 10000.0;
    assert -m <= d <= m;
    assert d * ref == v - ref;
    Times(d, m, ref);
    Times(-m, d, ref);
    assert v <= ref + m * ref && v >= ref - m * ref;
    Times(v, ref + m * ref, q);
    Times(ref - m * ref, v, q);
    assert q * (ref + m * ref) == q * ref * (1.0 + m);
    assert q * (ref - m * ref) == q * ref * (1.0 - m);
  }
}
