/** Sums and compounding of returns, and the inequality between the two. */
module Returns {

  function Sum(rs: seq<real>): real {
    if rs == [] then 0.0 else Sum(rs[..|rs| - 1]) + rs[|rs| - 1]
  }

  function Mean(rs: seq<real>): real {
    if |rs| == 0 then 0.0 else Sum(rs) / |rs| as real
  }

  /** The net asset value after compounding every return, starting from one. */
  function Growth(rs: seq<real>): real {
    if rs == [] then 1.0 else Growth(rs[..|rs| - 1]) * (1.0 + rs[|rs| - 1])
  }

  lemma {:induction false} SumConcat(a: seq<real>, b: seq<real>)
    ensures Sum(a + b) == Sum(a) + Sum(b)
  {
    if b == [] {
      assert a + b == a;
    } else {
      assert (a + b)[..|a + b| - 1] == a + b[..|b| - 1];
      SumConcat(a, b[..|b| - 1]);
    }
  }

  lemma {:induction false} GrowthConcat(a: seq<real>, b: seq<real>)
    ensures Growth(a + b) == Growth(a) * Growth(b)
  {
    if b == [] {
      assert a + b == a;
    } else {
      var init, x := b[..|b| - 1], 1.0 + b[|b| - 1];
      assert (a + b)[..|a + b| - 1] == a + init;
      GrowthConcat(a, init);
      assert Growth(a) * Growth(init) * x == Growth(a) * (Growth(init) * x);
    }
  }

  ghost predicate NoWorseThanTotalLoss(rs: seq<real>) {
    forall i :: 0 <= i < |rs| ==> rs[i] >= -1.0
  }

  ghost predicate AllZero(rs: seq<real>) {
    forall i :: 0 <= i < |rs| ==> rs[i] == 0.0
  }

  lemma {:induction false} GrowthNonNegative(rs: seq<real>)
    requires NoWorseThanTotalLoss(rs)
    ensures Growth(rs) >= 0.0
  {
    if rs != [] {
      GrowthNonNegative(rs[..|rs| - 1]);
    }
  }

  lemma Shrink(g: real, f: real)
    requires 0.0 <= g <= 1.0 && f <= 1.0
    ensures g * f <= 1.0
    ensures f < 1.0 ==> g * f < 1.0
  {
    if f >= 0.0 {
      assert g * f <= f;
    } else {
      assert g * f <= 0.0;
    }
  }

  lemma {:induction false} AllLosses(rs: seq<real>)
    requires NoWorseThanTotalLoss(rs) && forall i :: 0 <= i < |rs| ==> rs[i] <= 0.0
    ensures Growth(rs) <= 1.0
  {
    if rs != [] {
      AllLosses(rs[..|rs| - 1]);
      GrowthNonNegative(rs[..|rs| - 1]);
      Shrink(Growth(rs[..|rs| - 1]), 1.0 + rs[|rs| - 1]);
    }
  }

  lemma {:induction false} SumNonNegative(rs: seq<real>)
    requires forall i :: 0 <= i < |rs| ==> rs[i] >= 0.0
    ensures Sum(rs) >= 0.0
  {
    if rs != [] {
      SumNonNegative(rs[..|rs| - 1]);
    }
  }

  lemma SplitSum(rs: seq<real>, j: nat)
    requires j < |rs|
    ensures Sum(rs) == Sum(rs[..j]) + (rs[j] + Sum(rs[j + 1..]))
  {
    var L, x, R := rs[..j], [rs[j]], rs[j + 1..];
    assert rs == L + (x + R);
    SumConcat(L, x + R);
    SumConcat(x, R);
    assert x[..0] == [];
  }

  lemma SplitGrowth(rs: seq<real>, j: nat)
    requires j < |rs|
    ensures Growth(rs) == Growth(rs[..j]) * (Growth([rs[j]]) * Growth(rs[j + 1..]))
  {
    hide Growth;
    var L, x, R := rs[..j], [rs[j]], rs[j + 1..];
    assert rs == L + (x + R);
    GrowthConcat(L, x + R);
    GrowthConcat(x, R);
  }

  lemma LastStep(rs: seq<real>)
    requires rs != []
    ensures Growth(rs) == Growth(rs[..|rs| - 1]) * (1.0 + rs[|rs| - 1])
  {
  }

  lemma GrowthOne(x: real)
    ensures Growth([x]) == 1.0 + x
  {
    assert [x][..0] == [];
  }

  lemma MergedSum(init: seq<real>, j: nat, x: real)
    requires j < |init|
    ensures Sum(init[j := init[j] + x]) == Sum(init) + x
  {
    var merged := init[j := init[j] + x];
    assert merged[..j] == init[..j] && merged[j + 1..] == init[j + 1..];
    SplitSum(init, j);
    SplitSum(merged, j);
  }

  lemma MergedGrowth(init: seq<real>, j: nat, x: real)
    requires j < |init| && NoWorseThanTotalLoss(init) && init[j] * x < 0.0
    ensures var g, m := Growth(init) * (1.0 + x), Growth(init[j := init[j] + x]);
            g <= m && (g == m ==> g == 0.0)
  {
    hide Growth;
    var a := init[j];
    var merged := init[j := a + x];
    assert merged[..j] == init[..j] && merged[j + 1..] == init[j + 1..];
    SplitGrowth(init, j);
    SplitGrowth(merged, j);
    GrowthOne(a);
    GrowthOne(a + x);
    GrowthNonNegative(init[..j]);
    GrowthNonNegative(init[j + 1..]);
    MergedFactor(Growth(init[..j]), Growth(init[j + 1..]), a, x, Growth([a]), Growth([a + x]),
                 Growth(init), Growth(merged));
  }

  /** Compounding a gain with a loss never beats booking their sum at once. */
  lemma MergeOpposites(rs: seq<real>, j: nat)
    requires j < |rs| - 1 && NoWorseThanTotalLoss(rs) && rs[j] * rs[|rs| - 1] < 0.0
    ensures var merged := rs[..|rs| - 1][j := rs[j] + rs[|rs| - 1]];
            && NoWorseThanTotalLoss(merged)
            && Sum(merged) == Sum(rs)
            && Growth(rs) <= Growth(merged)
            && (Growth(rs) == Growth(merged) ==> Growth(rs) == 0.0)
  {
    hide Growth;
    var init, x := rs[..|rs| - 1], rs[|rs| - 1];
    OppositeSigns(rs[j], x);
    MergedSum(init, j, x);
    MergedGrowth(init, j, x);
    LastStep(rs);
    assert Growth(rs) == Growth(init) * (1.0 + x);
  }

  lemma OppositeSigns(a: real, x: real)
    requires a * x < 0.0
    ensures (a < 0.0 && x > 0.0) || (a > 0.0 && x < 0.0)
  {
  }

  lemma MergedFactor(l: real, r: real, a: real, x: real, fa: real, fm: real, g: real, m: real)
    requires l >= 0.0 && r >= 0.0 && a * x < 0.0
    requires fa == 1.0 + a && fm == 1.0 + (a + x)
    requires g == l * (fa * r) && m == l * (fm * r)
    ensures g * (1.0 + x) <= m
    ensures g * (1.0 + x) == m ==> g * (1.0 + x) == 0.0
  {
    var w := l * r;
    assert g == w * (1.0 + a) && m == w * (1.0 + a + x);
    assert g * (1.0 + x) == w * ((1.0 + a) * (1.0 + x));
    assert (1.0 + a) * (1.0 + x) == 1.0 + a + x + a * x;
    assert m - g * (1.0 + x) == w * (-(a * x));
    PositiveProduct(w, -(a * x));
    if w == 0.0 {
      assert g == 0.0;
    }
  }

  lemma PositiveProduct(w: real, d: real)
    requires w >= 0.0 && d > 0.0
    ensures w * d >= 0.0
    ensures w > 0.0 ==> w * d > 0.0
  {
  }

  lemma SameSign(a: real, x: real)
    requires a * x >= 0.0
    ensures x > 0.0 ==> a >= 0.0
    ensures x < 0.0 ==> a <= 0.0
  {
  }

  /** When nothing has the opposite sign of a final loss, all are losses. */
  lemma OnlyLosses(rs: seq<real>)
    requires rs != [] && NoWorseThanTotalLoss(rs) && rs[|rs| - 1] < 0.0
    requires forall i :: 0 <= i < |rs| - 1 ==> rs[i] * rs[|rs| - 1] >= 0.0
    ensures Growth(rs) < 1.0
  {
    var init, x := rs[..|rs| - 1], rs[|rs| - 1];
    hide Growth;
    LastStep(rs);
    forall i | 0 <= i < |init| ensures init[i] <= 0.0 {
      SameSign(rs[i], x);
    }
    AllLosses(init);
    GrowthNonNegative(init);
    var g, f := Growth(init), 1.0 + x;
    Shrink(g, f);
    assert Growth(rs) == g * f;
  }

  /** When nothing has the opposite sign of a final gain, the sum is a gain. */
  lemma OnlyGains(rs: seq<real>)
    requires rs != [] && rs[|rs| - 1] > 0.0
    requires forall i :: 0 <= i < |rs| - 1 ==> rs[i] * rs[|rs| - 1] >= 0.0
    ensures Sum(rs) > 0.0
  {
    var init, x := rs[..|rs| - 1], rs[|rs| - 1];
    forall i | 0 <= i < |init| ensures init[i] >= 0.0 {
      SameSign(rs[i], x);
    }
    SumNonNegative(init);
  }

  lemma DropZero(rs: seq<real>)
    requires rs != [] && rs[|rs| - 1] == 0.0
    ensures Growth(rs) == Growth(rs[..|rs| - 1])
    ensures Sum(rs) == Sum(rs[..|rs| - 1])
  {
  }

  /** An index whose return has the opposite sign of the last one. */
  ghost predicate OppositeOfLast(rs: seq<real>, j: int) {
    0 <= j < |rs| - 1 && rs[j] * rs[|rs| - 1] < 0.0
  }

  /**
   The gate's inequality: returns of at least a total loss that do not gain on average do not gain by compounding
   either, and lose outright as soon as one of them is not zero.
   */
  lemma {:induction false} NoGainOnAverageNoGainCompounded(rs: seq<real>)
    requires NoWorseThanTotalLoss(rs) && Sum(rs) <= 0.0
    ensures Growth(rs) <= 1.0
    ensures !AllZero(rs) ==> Growth(rs) < 1.0
    decreases |rs|
  {
    if rs != [] {
      var n := |rs| - 1;
      if rs[n] == 0.0 {
        DropZero(rs);
        NoGainOnAverageNoGainCompounded(rs[..n]);
        assert AllZero(rs[..n]) ==> AllZero(rs);
      } else if j :| OppositeOfLast(rs, j) {
        MergeOpposites(rs, j);
        NoGainOnAverageNoGainCompounded(rs[..n][j := rs[j] + rs[n]]);
      } else {
        forall i | 0 <= i < n ensures rs[i] * rs[n] >= 0.0 {
          assert !OppositeOfLast(rs, i);
        }
        if rs[n] > 0.0 {
          OnlyGains(rs);
        } else {
          OnlyLosses(rs);
        }
      }
    }
  }

  // ----- returns worse than a total loss -----

  /** How many of the returns lose more than was put in. */
  function Ruins(rs: seq<real>): nat {
    if rs == [] then 0 else Ruins(rs[..|rs| - 1]) + (if rs[|rs| - 1] < -1.0 then 1 else 0)
  }

  /** No such return, or an odd number of them. */
  predicate NoneOrOddRuins(rs: seq<real>) {
    Ruins(rs) == 0 || Ruins(rs) % 2 == 1
  }

  lemma {:induction false} NoRuins(rs: seq<real>)
    ensures Ruins(rs) == 0 <==> NoWorseThanTotalLoss(rs)
  {
    if rs != [] {
      NoRuins(rs[..|rs| - 1]);
      assert NoWorseThanTotalLoss(rs) <==> NoWorseThanTotalLoss(rs[..|rs| - 1]) && rs[|rs| - 1] >= -1.0;
    }
  }

  lemma SignOfProduct(g: real, f: real)
    ensures (g >= 0.0 <==> f >= 0.0) || g == 0.0 || f == 0.0 ==> g * f >= 0.0
    ensures g >= 0.0 && f <= 0.0 ==> g * f <= 0.0
    ensures g <= 0.0 && f >= 0.0 ==> g * f <= 0.0
    ensures g <= 0.0 && f <= 0.0 ==> g * f >= 0.0
  {
  }

  /** Every return worse than a total loss turns the sign of the compounded value. */
  lemma {:induction false} RuinsGiveSign(rs: seq<real>)
    ensures if Ruins(rs) % 2 == 0 then Growth(rs) >= 0.0 else Growth(rs) <= 0.0
  {
    if rs != [] {
      RuinsGiveSign(rs[..|rs| - 1]);
      SignOfProduct(Growth(rs[..|rs| - 1]), 1.0 + rs[|rs| - 1]);
    }
  }

  /** Without ruined returns, or with an odd number of them, no gain on average is no gain by compounding. */
  lemma NoneOrOddRuinsDoNotGain(rs: seq<real>)
    requires NoneOrOddRuins(rs) && Sum(rs) <= 0.0
    ensures Growth(rs) <= 1.0
  {
    if Ruins(rs) == 0 {
      NoRuins(rs);
      NoGainOnAverageNoGainCompounded(rs);
    } else {
      RuinsGiveSign(rs);
    }
  }

  /** Some returns of minus three times the stake. */
  function Ruinous(k: nat): seq<real> {
    if k == 0 then [] else Ruinous(k - 1) + [-3.0]
  }

  lemma {:induction false} RuinousTotals(k: nat)
    ensures |Ruinous(k)| == k == Ruins(Ruinous(k)) && Sum(Ruinous(k)) == -3.0 * k as real
    ensures k % 2 == 0 ==> Growth(Ruinous(k)) >= (if k > 0 then 4.0 else 1.0)
    ensures k % 2 == 1 ==> Growth(Ruinous(k)) <= -2.0
  {
    if k > 0 {
      RuinousTotals(k - 1);
      assert Ruinous(k)[..k - 1] == Ruinous(k - 1);
    }
  }

  /** How many ruined returns there are decides whether the inequality holds for all lists that have so many. */
  ghost predicate NoGainWithRuins(k: nat) {
    forall rs :: Ruins(rs) == k && Sum(rs) <= 0.0 ==> Growth(rs) <= 1.0
  }

  lemma NoGainIffNoneOrOddRuins(k: nat)
    ensures NoGainWithRuins(k) <==> k == 0 || k % 2 == 1
  {
    if k == 0 || k % 2 == 1 {
      forall rs | Ruins(rs) == k && Sum(rs) <= 0.0 ensures Growth(rs) <= 1.0 {
        NoneOrOddRuinsDoNotGain(rs);
      }
    } else {
      RuinousTotals(k);
      assert Growth(Ruinous(k)) > 1.0;
    }
  }
}
