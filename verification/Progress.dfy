/**
 Journey progress: an integer percentage per stage, and the average of those percentages
 weighted by stage weight, each truncated. Quotients are exact.
 */
module Progress {

  datatype Milestone = Milestone(key: string, weight: nat, completed: bool)

  datatype StageData = StageData(milestones: seq<Milestone>, progress: nat)

  function TotalWeight(ms: seq<Milestone>): nat {
    if ms == [] then 0 else ms[0].weight + TotalWeight(ms[1..])
  }

  function CompletedWeight(ms: seq<Milestone>): nat {
    if ms == [] then 0 else (if ms[0].completed then ms[0].weight else 0) + CompletedWeight(ms[1..])
  }

  function StageProgress(ms: seq<Milestone>): nat {
    if TotalWeight(ms) == 0 then 0 else CompletedWeight(ms) * 100 / TotalWeight(ms)
  }

  function TotalOf(stages: seq<StageData>): nat {
    if stages == [] then 0 else TotalWeight(stages[0].milestones) + TotalOf(stages[1..])
  }

  function WeightedOf(stages: seq<StageData>): nat {
    if stages == [] then 0
    else stages[0].progress * TotalWeight(stages[0].milestones) + WeightedOf(stages[1..])
  }

  function GlobalProgress(stages: seq<StageData>): nat {
    if TotalOf(stages) == 0 then 0 else WeightedOf(stages) / TotalOf(stages)
  }

  lemma SumsAppend(a: seq<StageData>, b: seq<StageData>)
    ensures TotalOf(a + b) == TotalOf(a) + TotalOf(b)
    ensures WeightedOf(a + b) == WeightedOf(a) + WeightedOf(b)
  {
    if a == [] {
      assert a + b == b;
    } else {
      assert (a + b)[1..] == a[1..] + b;
      SumsAppend(a[1..], b);
    }
  }

  lemma OneMoreStage(stages: seq<StageData>, i: nat)
    requires i < |stages|
    ensures var w := TotalWeight(stages[i].milestones);
            && TotalOf(stages[..i + 1]) == TotalOf(stages[..i]) + w
            && WeightedOf(stages[..i + 1]) == WeightedOf(stages[..i]) + stages[i].progress * w
  {
    assert stages[..i + 1] == stages[..i] + [stages[i]];
    SumsAppend(stages[..i], [stages[i]]);
    assert [stages[i]][1..] == [];
  }

  method ComputeGlobalProgress(stages: seq<StageData>) returns (percent: nat)
    ensures percent == GlobalProgress(stages)
  {
    if stages == [] {
      return 0;
    }
    var total, weighted := 0, 0;
    for i := 0 to |stages|
      invariant total == TotalOf(stages[..i]) && weighted == WeightedOf(stages[..i])
    {
      var stageTotal := TotalWeight(stages[i].milestones);
      OneMoreStage(stages, i);
      total := total + stageTotal;
      weighted := weighted + stages[i].progress * stageTotal;
    }
    assert stages[..|stages|] == stages;
    if total == 0 {
      return 0;
    }
    return weighted / total;
  }

  /** The stages as the journey passes them: each with its own percentage filled in. */
  function Filled(stages: seq<seq<Milestone>>): seq<StageData> {
    if stages == [] then [] else [StageData(stages[0], StageProgress(stages[0]))] + Filled(stages[1..])
  }

  function Overall(stages: seq<seq<Milestone>>): nat {
    GlobalProgress(Filled(stages))
  }

  function CompletedOf(stages: seq<seq<Milestone>>): nat {
    if stages == [] then 0 else CompletedWeight(stages[0]) + CompletedOf(stages[1..])
  }

  function AllWeight(stages: seq<seq<Milestone>>): nat {
    if stages == [] then 0 else TotalWeight(stages[0]) + AllWeight(stages[1..])
  }

  // ---------- Truncation error ----------

  lemma Quotient(a: nat, b: nat)
    requires b > 0
    ensures (a / b) * b <= a < (a / b) * b + b
  {
  }

  lemma Product(a: nat, b: nat, c: nat)
    ensures a <= b ==> a * c <= b * c
    ensures (a + 1) * c == a * c + c
    ensures (a + 2) * c == a * c + 2 * c
  {
  }

  lemma FloorsInOrder(p: nat, q: nat, d: nat, a: nat, b: nat)
    requires p * d <= a <= b < q * d + d
    ensures p <= q
  {
    Product(q + 1, p, d);
    Product(q, q, d);
  }

  lemma QuotientMonotone(a: nat, b: nat, d: nat)
    requires a <= b && d > 0
    ensures a / d <= b / d
  {
    Quotient(a, d);
    Quotient(b, d);
    FloorsInOrder(a / d, b / d, d, a, b);
  }

  /** A truncated quotient is at most its bound, and meets it only when the dividend does. */
  lemma QuotientBound(a: nat, d: nat, bound: nat)
    requires d > 0 && a <= bound * d
    ensures a / d <= bound
    ensures a / d == bound <==> a == bound * d
  {
    Quotient(a, d);
    FloorsInOrder(a / d, bound, d, a, bound * d);
    if a == bound * d { FloorsInOrder(bound, a / d, d, a, a); }
  }

  lemma {:induction false} CompletedAtMostTotal(ms: seq<Milestone>)
    ensures CompletedWeight(ms) <= TotalWeight(ms)
  {
    if ms != [] { CompletedAtMostTotal(ms[1..]); }
  }

  lemma StageTruncation(ms: seq<Milestone>)
    ensures var p, t, c := StageProgress(ms), TotalWeight(ms), CompletedWeight(ms);
            && p * t <= 100 * c <= p * t + t && p <= 100
            && (t > 0 ==> 100 * c < p * t + t && (p == 100 <==> c == t))
            && (c == t ==> p * t == 100 * t)
  {
    CompletedAtMostTotal(ms);
    var t, c := TotalWeight(ms), CompletedWeight(ms);
    if t > 0 {
      Quotient(c * 100, t);
      QuotientBound(c * 100, t, 100);
    }
  }

  lemma {:induction false} SumTruncation(stages: seq<seq<Milestone>>)
    ensures TotalOf(Filled(stages)) == AllWeight(stages) && CompletedOf(stages) <= AllWeight(stages)
    ensures var w, t, c := WeightedOf(Filled(stages)), AllWeight(stages), CompletedOf(stages);
            && w <= 100 * c <= w + t
            && (t > 0 ==> 100 * c < w + t)
            && (c == t ==> w == 100 * t)
  {
    if stages != [] {
      StageTruncation(stages[0]);
      CompletedAtMostTotal(stages[0]);
      SumTruncation(stages[1..]);
      assert Filled(stages)[1..] == Filled(stages[1..]);
    }
  }

  /**
   For any stages, weightless ones included: the percentage shown is at most the exact one
   and less than two points below it, and it is 100 exactly when all weight is completed.
   */
  lemma TruncationIsUnderTwoPoints(stages: seq<seq<Milestone>>)
    requires AllWeight(stages) > 0
    ensures var g, t, c := Overall(stages), AllWeight(stages), CompletedOf(stages);
            g * t <= 100 * c < (g + 2) * t && g <= 100 && (g == 100 <==> c == t)
  {
    SumTruncation(stages);
    var t, w, g := AllWeight(stages), WeightedOf(Filled(stages)), Overall(stages);
    Quotient(w, t);
    Product(g, g, t);
    QuotientBound(w, t, 100);
  }

  /** Two points cannot be improved to one: exactly half the weight done is shown as 49. */
  lemma OnePointIsNotEnough()
    ensures var stages := [[Milestone("a", 2, true), Milestone("b", 1, false)], [Milestone("c", 1, false)]];
            100 * CompletedOf(stages) == 50 * AllWeight(stages) && Overall(stages) == 49
  {
    var s1, s2 := [Milestone("a", 2, true), Milestone("b", 1, false)], [Milestone("c", 1, false)];
    assert s1[1..] == [Milestone("b", 1, false)];
    assert TotalWeight(s1[1..]) == 1 && CompletedWeight(s1[1..]) == 0;
    assert TotalWeight(s1) == 3 && CompletedWeight(s1) == 2 && TotalWeight(s2) == 1 && CompletedWeight(s2) == 0;
    assert StageProgress(s1) == 66 && StageProgress(s2) == 0;
    assert [s1, s2][1..] == [s2];
    assert CompletedOf([s2]) == 0 && AllWeight([s2]) == 1;
    assert Filled([s2]) == [StageData(s2, 0)];
    var f := Filled([s1, s2]);
    assert f == [StageData(s1, 66), StageData(s2, 0)];
    assert f[1..] == [StageData(s2, 0)];
    assert WeightedOf(f[1..]) == 0 && TotalOf(f[1..]) == 1;
  }

  // ---------- Monotonicity ----------

  /** The same milestones, with at most fewer of them completed. */
  ghost predicate Under(a: seq<Milestone>, b: seq<Milestone>) {
    && |a| == |b|
    && forall i :: 0 <= i < |a| ==> a[i].weight == b[i].weight && (a[i].completed ==> b[i].completed)
  }

  lemma {:induction false} WeightsUnder(a: seq<Milestone>, b: seq<Milestone>)
    requires Under(a, b)
    ensures TotalWeight(a) == TotalWeight(b) && CompletedWeight(a) <= CompletedWeight(b)
  {
    if a != [] {
      assert a[0].weight == b[0].weight;
      WeightsUnder(a[1..], b[1..]);
    }
  }

  lemma StageProgressMonotone(a: seq<Milestone>, b: seq<Milestone>)
    requires Under(a, b)
    ensures StageProgress(a) <= StageProgress(b)
  {
    WeightsUnder(a, b);
    if TotalWeight(a) > 0 {
      QuotientMonotone(CompletedWeight(a) * 100, CompletedWeight(b) * 100, TotalWeight(a));
    }
  }

  ghost predicate AllUnder(a: seq<seq<Milestone>>, b: seq<seq<Milestone>>) {
    |a| == |b| && forall i :: 0 <= i < |a| ==> Under(a[i], b[i])
  }

  lemma {:induction false} SumsMonotone(a: seq<seq<Milestone>>, b: seq<seq<Milestone>>)
    requires AllUnder(a, b)
    ensures TotalOf(Filled(a)) == TotalOf(Filled(b)) && WeightedOf(Filled(a)) <= WeightedOf(Filled(b))
  {
    if a != [] {
      assert Under(a[0], b[0]);
      WeightsUnder(a[0], b[0]);
      StageProgressMonotone(a[0], b[0]);
      SumsMonotone(a[1..], b[1..]);
      assert Filled(a)[1..] == Filled(a[1..]) && Filled(b)[1..] == Filled(b[1..]);
      Product(StageProgress(a[0]), StageProgress(b[0]), TotalWeight(a[0]));
    }
  }

  /** Resetting milestones never raises the percentage, and completing them never lowers it. */
  lemma OverallMonotone(a: seq<seq<Milestone>>, b: seq<seq<Milestone>>)
    requires AllUnder(a, b)
    ensures Overall(a) <= Overall(b)
  {
    SumsMonotone(a, b);
    if TotalOf(Filled(a)) > 0 {
      QuotientMonotone(WeightedOf(Filled(a)), WeightedOf(Filled(b)), TotalOf(Filled(a)));
    }
  }

  // ---------- The order of the rows does not matter ----------

  lemma SumsWithout(b: seq<StageData>, i: nat)
    requires i < |b|
    ensures var rest := b[..i] + b[i + 1..]; var t := TotalWeight(b[i].milestones);
            && TotalOf(b) == TotalOf(rest) + t && WeightedOf(b) == WeightedOf(rest) + b[i].progress * t
            && multiset(rest) == multiset(b) - multiset{b[i]}
  {
    assert b == b[..i] + [b[i]] + b[i + 1..];
    SumsAppend(b[..i], [b[i]]);
    SumsAppend(b[..i] + [b[i]], b[i + 1..]);
    SumsAppend(b[..i], b[i + 1..]);
    assert TotalOf([b[i]][1..]) == 0 && WeightedOf([b[i]][1..]) == 0;
  }

  /** Where the first stage of one order stands in the other, and what is left there without it. */
  lemma TakeFirst(a: seq<StageData>, b: seq<StageData>) returns (rest: seq<StageData>)
    requires multiset(a) == multiset(b) && a != []
    ensures multiset(a[1..]) == multiset(rest)
    ensures var t := TotalWeight(a[0].milestones);
            TotalOf(b) == TotalOf(rest) + t && WeightedOf(b) == WeightedOf(rest) + a[0].progress * t
  {
    assert a[0] in multiset(b);
    var i :| 0 <= i < |b| && b[i] == a[0];
    rest := b[..i] + b[i + 1..];
    SumsWithout(b, i);
    assert a == [a[0]] + a[1..];
    assert multiset(a[1..]) == multiset(a) - multiset{a[0]};
  }

  lemma {:induction false} SumsOfPermutation(a: seq<StageData>, b: seq<StageData>)
    requires multiset(a) == multiset(b)
    ensures TotalOf(a) == TotalOf(b) && WeightedOf(a) == WeightedOf(b)
    decreases |a|
  {
    if a == [] {
      assert |multiset(b)| == 0;
    } else {
      var rest := TakeFirst(a, b);
      SumsOfPermutation(a[1..], rest);
    }
  }

  /** The query that loads the stages has no ORDER BY, and needs none. */
  lemma RowOrderIsIrrelevant(a: seq<StageData>, b: seq<StageData>)
    requires multiset(a) == multiset(b)
    ensures GlobalProgress(a) == GlobalProgress(b)
  {
    SumsOfPermutation(a, b);
  }
}
