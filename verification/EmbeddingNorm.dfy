/**
 Normalizing an embedding with a running scale, and putting a batch of embeddings in the order of its indices.
 Arithmetic is over exact reals; the square root the program takes is an input that squares to its argument.
 */
module EmbeddingNorm {
  import opened Common

  // ---- Arithmetic, with products and quotients by name ----

  function Mul(a: real, b: real): real {
    a * b
  }

  function Div(a: real, b: real): real
    requires b != 0.0
  {
    a / b
  }

  function Square(x: real): real {
    Mul(x, x)
  }

  function Abs(x: real): real {
    if x < 0.0 then -x else x
  }

  lemma MulOne(a: real)
    ensures Mul(a, 1.0) == a && Mul(1.0, a) == a && Mul(a, 0.0) == 0.0 && Mul(0.0, a) == 0.0
  {
  }

  lemma Commute(a: real, b: real)
    ensures Mul(a, b) == Mul(b, a)
  {
  }

  lemma Associate(a: real, b: real, c: real)
    ensures Mul(a, Mul(b, c)) == Mul(Mul(a, b), c)
  {
  }

  lemma Distribute(a: real, b: real, c: real)
    ensures Mul(a, b + c) == Mul(a, b) + Mul(a, c)
  {
  }

  lemma Ordered(a: real, b: real, c: real)
    requires a <= b && 0.0 <= c
    ensures Mul(a, c) <= Mul(b, c)
  {
  }

  lemma Positive(a: real, b: real)
    requires a > 0.0 && b > 0.0
    ensures Mul(a, b) > 0.0
  {
  }

  lemma SameFactor(a: real, b: real, c: real)
    requires a != 0.0 && Mul(a, b) == Mul(a, c)
    ensures b == c
  {
    assert a * (b - c) == 0.0;
  }

  lemma Quotient(x: real, a: real)
    requires a != 0.0
    ensures Mul(Div(x, a), a) == x
  {
  }

  lemma QuotientRange(x: real, a: real)
    requires 0.0 <= x <= a && 0.0 < a
    ensures 0.0 <= Div(x, a) <= 1.0
  {
  }

  lemma SquareOfProduct(a: real, b: real)
    ensures Square(Mul(a, b)) == Mul(Square(a), Square(b))
  {
    assert (a * b) * (a * b) == (a * a) * (b * b);
  }

  lemma SquareOfAbs(x: real)
    ensures Square(Abs(x)) == Square(x) && Square(x) >= 0.0
  {
  }

  /** The square of a quotient of at most one. */
  lemma RatioSquare(x: real, a: real)
    requires 0.0 <= x <= a && 0.0 < a
    ensures 0.0 <= Square(Div(x, a)) <= 1.0
    ensures Mul(Square(a), Square(Div(x, a))) == Square(x)
    ensures x == 0.0 ==> Square(Div(x, a)) == 0.0
  {
    hide Mul, Div;
    var q := Div(x, a);
    QuotientRange(x, a);
    Quotient(x, a);
    SquareOfProduct(q, a);
    Commute(Square(q), Square(a));
    Ordered(q, 1.0, q);
    Ordered(0.0, q, q);
    MulOne(q);
    if x == 0.0 {
      MulOne(a);
      Commute(q, a);
      SameFactor(a, q, 0.0);
    }
  }

  /** Moving the scale up to a: the old sum shrinks by the squared ratio. */
  lemma Rescale(scale: real, a: real, sum: real)
    requires 0.0 <= scale < a && 1.0 <= sum
    ensures Mul(Square(a), 1.0 + Mul(sum, Square(Div(scale, a)))) == Square(a) + Mul(Square(scale), sum)
    ensures 0.0 <= Mul(sum, Square(Div(scale, a))) <= sum
    ensures scale == 0.0 ==> Mul(sum, Square(Div(scale, a))) == 0.0
  {
    hide Square, Mul, Div;
    var t := Square(Div(scale, a));
    RatioSquare(scale, a);
    Distribute(Square(a), 1.0, Mul(sum, t));
    Commute(sum, t);
    Associate(Square(a), t, sum);
    Ordered(t, 1.0, sum);
    Ordered(0.0, t, sum);
    MulOne(sum);
    MulOne(Square(a));
  }

  lemma AddScaled(scale: real, a: real, sum: real)
    requires 0.0 < a <= scale
    ensures Mul(Square(scale), sum + Square(Div(a, scale))) == Mul(Square(scale), sum) + Square(a)
    ensures 0.0 <= Square(Div(a, scale)) <= 1.0
  {
    hide Square, Mul, Div;
    RatioSquare(a, scale);
    Distribute(Square(scale), sum, Square(Div(a, scale)));
  }

  // ---- The running scale ----

  function SumSquares(v: seq<real>): real {
    if v == [] then 0.0 else SumSquares(v[..|v| - 1]) + Square(v[|v| - 1])
  }

  function MaxAbs(v: seq<real>): (r: real)
    ensures r >= 0.0 && forall i | 0 <= i < |v| :: Abs(v[i]) <= r
    ensures r > 0.0 ==> exists i :: 0 <= i < |v| && Abs(v[i]) == r
  {
    if v == [] then 0.0
    else
      var m := MaxAbs(v[..|v| - 1]);
      if m < Abs(v[|v| - 1]) then Abs(v[|v| - 1]) else m
  }

  function Nonzeros(v: seq<real>): nat {
    if v == [] then 0 else Nonzeros(v[..|v| - 1]) + (if v[|v| - 1] == 0.0 then 0 else 1)
  }

  /**
   What the running scale and sum stand for: scale squared times sum is the sum of squares so far, and the sum
   stays between one and the number of nonzero values, so that it cannot overflow.
   */
  predicate Scaled(v: seq<real>, scale: real, sum: real) {
    && scale == MaxAbs(v)
    && Mul(Square(scale), sum) == SumSquares(v)
    && 1.0 <= sum
    && (scale > 0.0 ==> sum <= Nonzeros(v) as real)
    && (scale == 0.0 ==> sum == 1.0)
  }

  lemma Extended(v: seq<real>, x: real)
    ensures SumSquares(v + [x]) == SumSquares(v) + Square(x)
    ensures MaxAbs(v + [x]) == if MaxAbs(v) < Abs(x) then Abs(x) else MaxAbs(v)
    ensures Nonzeros(v + [x]) as real == Nonzeros(v) as real + (if x == 0.0 then 0.0 else 1.0)
  {
    hide Square;
    assert (v + [x])[..|v|] == v;
  }

  lemma ZeroKeeps(v: seq<real>, scale: real, sum: real, x: real)
    requires Scaled(v, scale, sum) && Abs(x) == 0.0
    ensures Scaled(v + [x], scale, sum)
  {
    hide SumSquares, MaxAbs, Nonzeros, Mul;
    Extended(v, x);
    MulOne(0.0);
  }

  lemma LargerRescales(v: seq<real>, scale: real, sum: real, x: real)
    requires Scaled(v, scale, sum) && scale < Abs(x)
    ensures Scaled(v + [x], Abs(x), 1.0 + Mul(sum, Square(Div(scale, Abs(x)))))
  {
    hide SumSquares, MaxAbs, Nonzeros, Square, Mul, Div;
    Extended(v, x);
    SquareOfAbs(x);
    Rescale(scale, Abs(x), sum);
  }

  lemma SmallerAdds(v: seq<real>, scale: real, sum: real, x: real)
    requires Scaled(v, scale, sum) && 0.0 < Abs(x) <= scale
    ensures Scaled(v + [x], scale, sum + Square(Div(Abs(x), scale)))
  {
    hide SumSquares, MaxAbs, Nonzeros, Square, Mul, Div;
    Extended(v, x);
    SquareOfAbs(x);
    AddScaled(scale, Abs(x), sum);
  }

  lemma EmptyScaled()
    ensures Scaled([], 0.0, 1.0)
  {
  }

  lemma ScaleIsNonNegative(v: seq<real>, scale: real, sum: real)
    requires Scaled(v, scale, sum)
    ensures scale >= 0.0 && (scale == 0.0 <==> forall i | 0 <= i < |v| :: v[i] == 0.0)
  {
    hide SumSquares, Nonzeros, Square, Mul;
    if scale == 0.0 {
      forall i | 0 <= i < |v| ensures v[i] == 0.0 {
        assert Abs(v[i]) <= 0.0;
      }
    }
  }

  method ScaleAndSum(v: seq<real>) returns (scale: real, sum: real)
    ensures Scaled(v, scale, sum)
  {
    hide Scaled, Square, Mul, Div;
    scale, sum := 0.0, 1.0;
    EmptyScaled();
    assert v[..0] == [];
    var i := 0;
    while i < |v|
      invariant 0 <= i <= |v|
      invariant Scaled(v[..i], scale, sum)
    {
      var a := Abs(v[i]);
      assert v[..i + 1] == v[..i] + [v[i]];
      ScaleIsNonNegative(v[..i], scale, sum);
      if a == 0.0 {
        ZeroKeeps(v[..i], scale, sum, v[i]);
      } else if scale < a {
        LargerRescales(v[..i], scale, sum, v[i]);
        sum := 1.0 + Mul(sum, Square(Div(scale, a)));
        scale := a;
      } else {
        SmallerAdds(v[..i], scale, sum, v[i]);
        sum := sum + Square(Div(a, scale));
      }
      i := i + 1;
    }
    assert v[..i] == v;
  }

  // ---- The normalized vector ----

  function Times(v: seq<real>, c: real): (r: seq<real>)
    ensures |r| == |v| && forall i | 0 <= i < |v| :: r[i] == Mul(c, v[i])
  {
    seq(|v|, i requires 0 <= i < |v| => Mul(c, v[i]))
  }

  lemma TimesExtended(v: seq<real>, x: real, c: real)
    ensures Times(v + [x], c) == Times(v, c) + [Mul(c, x)]
  {
    hide Mul, Times;
    forall i | 0 <= i < |v| + 1 ensures Times(v + [x], c)[i] == (Times(v, c) + [Mul(c, x)])[i] {
      if i < |v| {
        assert (v + [x])[i] == v[i];
      }
    }
  }

  lemma {:induction false} TimesSquares(v: seq<real>, c: real)
    ensures SumSquares(Times(v, c)) == Mul(Square(c), SumSquares(v))
    decreases |v|
  {
    hide Square, Mul, Times;
    if v == [] {
      assert Times(v, c) == [];
      MulOne(Square(c));
    } else {
      var init, x := v[..|v| - 1], v[|v| - 1];
      assert v == init + [x];
      TimesExtended(init, x, c);
      Extended(Times(init, c), Mul(c, x));
      TimesSquares(init, c);
      SquareOfProduct(c, x);
      Distribute(Square(c), SumSquares(init), Square(x));
    }
  }

  /** The length of a vector is one exactly when its squares add up to one. */
  predicate Unit(v: seq<real>) {
    SumSquares(v) == 1.0
  }

  /** The reciprocal of a positive number. */
  lemma Reciprocal(p: real) returns (c: real)
    requires p > 0.0
    ensures c > 0.0 && Mul(c, p) == 1.0
  {
    c := Div(1.0, p);
  }

  lemma TwoDivisions(x: real, a: real, b: real, c: real)
    requires a > 0.0 && b > 0.0 && Mul(c, Mul(a, b)) == 1.0
    ensures Div(Div(x, a), b) == Mul(c, x)
  {
    hide Mul, Div;
    var q := Div(x, a);
    var p := Div(q, b);
    Quotient(x, a);
    Quotient(q, b);
    Commute(a, b);
    Associate(p, b, a);
    Associate(c, Mul(a, b), p);
    Commute(Mul(a, b), p);
    MulOne(p);
  }

  lemma Direction(v: seq<real>, scale: real, sum: real, root: real, out: seq<real>) returns (c: real)
    requires Scaled(v, scale, sum) && scale > 0.0 && root > 0.0 && Square(root) == sum
    requires |out| == |v| && forall i | 0 <= i < |v| :: out[i] == Div(Div(v[i], scale), root)
    ensures c > 0.0 && out == Times(v, c) && Unit(out)
  {
    hide SumSquares, MaxAbs, Nonzeros, Mul, Div, Times;
    var p := Mul(scale, root);
    Positive(scale, root);
    c := Reciprocal(p);
    forall i | 0 <= i < |v| ensures out[i] == Times(v, c)[i] {
      TwoDivisions(v[i], scale, root, c);
    }
    TimesSquares(v, c);
    SquareOfProduct(scale, root);
    SquareOfProduct(c, p);
    MulOne(1.0);
  }

  /** The sum the program takes the root of: the sum of squares over the largest square, one for the zero vector. */
  function ScaledSum(v: seq<real>): real {
    if Square(MaxAbs(v)) == 0.0 then 1.0 else Div(SumSquares(v), Square(MaxAbs(v)))
  }

  lemma SumIsScaled(v: seq<real>, scale: real, sum: real)
    requires Scaled(v, scale, sum)
    ensures sum == ScaledSum(v) && sum >= 1.0
  {
    hide SumSquares, MaxAbs, Nonzeros, Mul, Div;
    if scale > 0.0 {
      Positive(scale, scale);
      Quotient(SumSquares(v), Square(scale));
      Commute(Square(scale), sum);
      Commute(Square(scale), Div(SumSquares(v), Square(scale)));
      SameFactor(Square(scale), sum, Div(SumSquares(v), Square(scale)));
    } else {
      MulOne(scale);
    }
  }

  lemma RootIsPositive(root: real)
    requires root >= 0.0 && Square(root) >= 1.0
    ensures root > 0.0
  {
  }

  /**
   Normalizing fails only for the zero vector; otherwise it gives the unit vector in the same direction. The
   root is the nonnegative square root of the vector's scaled sum.
   */
  method Normalize(v: seq<real>, root: real) returns (r: Option<seq<real>>)
    requires root >= 0.0 && Square(root) == ScaledSum(v)
    ensures r.None? <==> forall i | 0 <= i < |v| :: v[i] == 0.0
    ensures r.Some? ==> Unit(r.value) && exists c: real :: c > 0.0 && r.value == Times(v, c)
  {
    hide SumSquares, Unit, Times, Nonzeros, Square, Mul, Div, MaxAbs, ScaledSum;
    var scale, sum := ScaleAndSum(v);
    ScaleIsNonNegative(v, scale, sum);
    if scale == 0.0 {
      return None;
    }
    SumIsScaled(v, scale, sum);
    RootIsPositive(root);
    var out := seq(|v|, i requires 0 <= i < |v| => Div(Div(v[i], scale), root));
    ghost var c := Direction(v, scale, sum, root, out);
    r := Some(out);
  }

  // ---- A batch in the order of its indices ----

  /** One upstream item; a malformed index or vector is None. */
  datatype Item = Item(index: Option<int>, vector: Option<seq<real>>)

  predicate GoodItem(item: Item, n: nat) {
    item.index.Some? && 0 <= item.index.value < n && item.vector.Some? && item.vector.value != []
  }

  /** Exactly count items, each well formed, with distinct indices below n and one dimension. */
  predicate Acceptable(items: seq<Item>, count: nat, n: nat) {
    && |items| == count
    && (forall i | 0 <= i < |items| :: GoodItem(items[i], n))
    && (forall i, j | 0 <= i < j < |items| :: items[i].index != items[j].index
                                             && |items[i].vector.value| == |items[j].vector.value|)
  }

  /** As many distinct indices below n as n leave none out. */
  lemma {:induction false} Pigeonhole(found: map<int, seq<real>>, n: nat)
    requires |found| == n && forall k | k in found :: 0 <= k < n
    ensures forall k | 0 <= k < n :: k in found
  {
    var below := Below(n);
    assert found.Keys <= below;
    if exists k :: k in below && k !in found {
      var k :| k in below && k !in found;
      SmallerSubset(found.Keys, below - {k});
    }
  }

  function Below(n: nat): (r: set<int>)
    ensures |r| == n && forall k :: k in r <==> 0 <= k < n
  {
    if n == 0 then {} else Below(n - 1) + {n - 1}
  }

  lemma SmallerSubset(a: set<int>, b: set<int>)
    requires a <= b
    ensures |a| <= |b|
  {
    assert b == a + (b - a);
  }

  function Indices(items: seq<Item>): set<int> {
    set j | 0 <= j < |items| && items[j].index.Some? :: items[j].index.value
  }

  /** What the items so far put into the dictionary. */
  ghost predicate Filled(items: seq<Item>, found: map<int, seq<real>>, n: nat) {
    && Acceptable(items, |items|, n) && |found| == |items| && found.Keys == Indices(items)
    && forall j | 0 <= j < |items| ::
         items[j].index.value in found && found[items[j].index.value] == items[j].vector.value
  }

  lemma {:induction false} FillOne(before: seq<Item>, item: Item, found: map<int, seq<real>>, n: nat)
    requires Filled(before, found, n) && GoodItem(item, n) && item.index.value !in found
    requires before != [] ==> before[0].vector.Some? && |item.vector.value| == |before[0].vector.value|
    ensures Filled(before + [item], found[item.index.value := item.vector.value], n)
  {
    hide Indices;
    var more := found[item.index.value := item.vector.value];
    assert more.Keys == found.Keys + {item.index.value};
    OneMoreIndex(before, item);
    FillAccepts(before, item, |before|, n, found);
  }

  lemma OneMoreIndex(before: seq<Item>, item: Item)
    requires item.index.Some?
    ensures Indices(before + [item]) == Indices(before) + {item.index.value}
  {
    var all := before + [item];
    assert all[|before|] == item;
    forall k | k in Indices(before) ensures k in Indices(all) {
      var j :| 0 <= j < |before| && before[j].index == Some(k);
      assert all[j] == before[j];
    }
  }

  lemma FillAccepts(before: seq<Item>, item: Item, i: nat, n: nat, found: map<int, seq<real>>)
    requires Acceptable(before, i, n) && GoodItem(item, n)
    requires forall j | 0 <= j < i :: before[j].index.value in found
    requires item.index.value !in found
    requires i > 0 ==> |item.vector.value| == |before[0].vector.value|
    ensures Acceptable(before + [item], i + 1, n)
  {
    var all := before + [item];
    forall j, l | 0 <= j < l < i + 1
      ensures all[j].index != all[l].index && |all[j].vector.value| == |all[l].vector.value|
    {
      if l == i {
        assert before[j].index.value in found;
        assert j > 0 ==> |before[0].vector.value| == |before[j].vector.value|;
      } else {
        assert before[j].index != before[l].index;
      }
    }
  }

  /** A refused item makes the whole batch unacceptable. */
  lemma Refuses(items: seq<Item>, found: map<int, seq<real>>, i: nat, n: nat)
    requires i < |items| == n && Filled(items[..i], found, n)
    requires !GoodItem(items[i], n) || items[i].index.value in found
             || (i > 0 && items[0].vector.Some? && |items[i].vector.value| != |items[0].vector.value|)
    ensures !Acceptable(items, n, n)
  {
    var before := items[..i];
    if !GoodItem(items[i], n) {
    } else if items[i].index.value in found {
      var j :| 0 <= j < |before| && before[j].index == items[i].index;
      assert items[j].index == items[i].index;
    } else if i > 0 {
      assert |items[0].vector.value| != |items[i].vector.value|;
    }
  }

  /** The vectors by index; the final lookup cannot miss, because n distinct indices below n cover them all. */
  method ArrangeByIndex(items: seq<Item>, n: nat) returns (r: Option<seq<seq<real>>>)
    ensures r.Some? <==> Acceptable(items, n, n)
    ensures r.Some? ==> |r.value| == n && forall i | 0 <= i < n :: r.value[items[i].index.value] == items[i].vector.value
  {
    hide Filled, Acceptable, GoodItem;
    if |items| != n {
      WrongCount(items, n);
      return None;
    }
    var found: map<int, seq<real>> := map[];
    var dimension: Option<nat> := None;
    NothingFilled(n);
    assert items[..0] == [];
    var i := 0;
    while i < n
      invariant 0 <= i <= n && Filled(items[..i], found, n)
      invariant i > 0 ==> items[0].vector.Some? && dimension == Some(|items[0].vector.value|)
      invariant i == 0 ==> dimension.None?
    {
      var item := items[i];
      assert items[..i + 1] == items[..i] + [item];
      ItemIsGood(item, n);
      if item.index.None? || item.index.value < 0 || item.index.value >= n || item.index.value in found {
        Refuses(items, found, i, n);
        return None;
      }
      if item.vector.None? || item.vector.value == [] {
        Refuses(items, found, i, n);
        return None;
      }
      if dimension.None? {
        dimension := Some(|item.vector.value|);
      } else if |item.vector.value| != dimension.value {
        Refuses(items, found, i, n);
        return None;
      }
      FillOne(items[..i], item, found, n);
      found := found[item.index.value := item.vector.value];
      i := i + 1;
    }
    assert items[..n] == items;
    FilledIs(items, found, n);
    r := Some(seq(n, k requires 0 <= k < n && k in found => found[k]));
  }

  lemma ItemIsGood(item: Item, n: nat)
    ensures GoodItem(item, n) <==>
            item.index.Some? && 0 <= item.index.value < n && item.vector.Some? && item.vector.value != []
  {
  }

  lemma WrongCount(items: seq<Item>, n: nat)
    requires |items| != n
    ensures !Acceptable(items, n, n)
  {
  }

  lemma NothingFilled(n: nat)
    ensures Filled([], map[], n)
  {
  }

  lemma {:induction false} FilledIs(items: seq<Item>, found: map<int, seq<real>>, n: nat)
    requires |items| == n && Filled(items, found, n)
    ensures Acceptable(items, n, n) && forall k | 0 <= k < n :: k in found
    ensures forall i | 0 <= i < n :: items[i].index.Some? && 0 <= items[i].index.value < n && items[i].vector.Some?
                                     && found[items[i].index.value] == items[i].vector.value
  {
    forall i | 0 <= i < n
      ensures items[i].index.Some? && 0 <= items[i].index.value < n && items[i].vector.Some?
    {
      assert GoodItem(items[i], n);
    }
    forall k | k in found ensures 0 <= k < n {
      var j :| 0 <= j < |items| && items[j].index == Some(k);
    }
    Pigeonhole(found, n);
  }
}
