/** The generation cascade: five artifacts in a fixed order, each with the finished ones as context. */
module ArtifactCascade {
  import opened Common

  /** The types of the cascade, and any other type a caller may already hold. */
  datatype ArtifactType = Brief | MvpScope | Milestones | RiskLog | HowItWorks | Other(name: string)

  const GENERATION_ORDER: seq<ArtifactType> := [Brief, MvpScope, Milestones, RiskLog, HowItWorks]

  type Content = string

  type Artifacts = map<ArtifactType, Content>

  /** The generator's answer to a type and its context; None when it raises. */
  type Generator = (ArtifactType, Artifacts) -> Option<Content>

  datatype Request = Request(wanted: ArtifactType, prior: Artifacts)

  /** The finished artifacts among the first `n` types of the order. */
  function PriorTo(done: Artifacts, n: nat): Artifacts
    requires n <= 5
  {
    map t | t in done && t in GENERATION_ORDER[..n] :: done[t]
  }

  /** The types missing among the first `n`, in order. */
  function Missing(done: Artifacts, n: nat): seq<ArtifactType>
    requires n <= 5
  {
    if n == 0 then []
    else Missing(done, n - 1) + (if GENERATION_ORDER[n - 1] in done then [] else [GENERATION_ORDER[n - 1]])
  }

  /** Nothing new is generated behind a missing brief or a missing scope. */
  predicate Blocked(done: Artifacts, i: nat) {
    (i > 0 && Brief !in done) || (i > 1 && MvpScope !in done)
  }

  /** The requests for the first `n` types: one for each type not held and not blocked. */
  function Requests(held: Artifacts, done: Artifacts, n: nat): seq<Request>
    requires n <= 5
  {
    if n == 0 then []
    else
      var t := GENERATION_ORDER[n - 1];
      Requests(held, done, n - 1)
      + (if t in held || Blocked(done, n - 1) then [] else [Request(t, PriorTo(done, n - 1))])
  }

  /** Type number `i` was held, or blocked, or is what the generator said to its finished predecessors. */
  ghost predicate Justified(gen: Generator, held: Artifacts, done: Artifacts, i: nat)
    requires i < 5
  {
    var t := GENERATION_ORDER[i];
    t !in held ==>
      if Blocked(done, i) then t !in done
      else gen(t, PriorTo(done, i)) == if t in done then Some(done[t]) else None
  }

  /** What a run may end with, said without the loop. */
  ghost predicate Outcome(gen: Generator, held: Artifacts, done: Artifacts, failed: seq<ArtifactType>) {
    && (forall t :: t in held ==> t in done && done[t] == held[t])
    && (forall t :: t in done && t !in held ==> t in GENERATION_ORDER)
    && failed == Missing(done, 5)
    && (forall i :: 0 <= i < 5 ==> Justified(gen, held, done, i))
  }

  // ---------- Consequences ----------

  lemma {:induction false} MissingElements(done: Artifacts, n: nat)
    requires n <= 5
    ensures forall t :: t in Missing(done, n) <==> t in GENERATION_ORDER[..n] && t !in done
    ensures forall i, j :: 0 <= i < j < |Missing(done, n)| ==> Missing(done, n)[i] != Missing(done, n)[j]
  {
    if n > 0 {
      MissingElements(done, n - 1);
      assert GENERATION_ORDER[..n] == GENERATION_ORDER[..n - 1] + [GENERATION_ORDER[n - 1]];
      assert GENERATION_ORDER[n - 1] !in GENERATION_ORDER[..n - 1];
    }
  }

  /** Each of the five types is completed or failed, never both, and failed repeats none. */
  lemma CompletedAndFailedPartition(gen: Generator, held: Artifacts, done: Artifacts, failed: seq<ArtifactType>,
                                    t: ArtifactType)
    requires Outcome(gen, held, done, failed) && t in GENERATION_ORDER
    ensures t in done <==> t !in failed
    ensures forall i, j :: 0 <= i < j < |failed| ==> failed[i] != failed[j]
  {
    MissingElements(done, 5);
    assert GENERATION_ORDER[..5] == GENERATION_ORDER;
  }

  /** The place of a type in the chain; types outside it come last. */
  function PlaceOf(t: ArtifactType): nat {
    match t
    case Brief => 0
    case MvpScope => 1
    case Milestones => 2
    case RiskLog => 3
    case HowItWorks => 4
    case Other(_) => 5
  }

  /** A context holds exactly the finished ones among the earlier types, with their contents. */
  lemma ContextSays(done: Artifacts, n: nat, t: ArtifactType)
    requires n <= 5
    ensures t in PriorTo(done, n)
            <==> t in done && PlaceOf(t) < n
    ensures t in PriorTo(done, n) ==> PriorTo(done, n)[t] == done[t]
  {
    forall k | 0 <= k < n ensures GENERATION_ORDER[..n][k] == GENERATION_ORDER[k] {
    }
    if t in GENERATION_ORDER[..n] {
      var k :| 0 <= k < n && GENERATION_ORDER[k] == t;
      assert PlaceOf(t) == k;
    }
    if PlaceOf(t) < n { assert GENERATION_ORDER[PlaceOf(t)] == t; }
  }

  /** What the generator said to a context, for a type that was not held. */
  predicate Obtained(gen: Generator, held: Artifacts, done: Artifacts, t: ArtifactType, context: Artifacts) {
    t !in held ==> gen(t, context) == if t in done then Some(done[t]) else None
  }

  /**
   A missing brief stops everything behind it, a missing scope the three behind it, and
   nothing else stops anything: every other type not held is asked for.
   */
  lemma CascadeSays(gen: Generator, held: Artifacts, done: Artifacts, failed: seq<ArtifactType>)
    requires Outcome(gen, held, done, failed)
    ensures Obtained(gen, held, done, Brief, map[])
    ensures Brief !in done ==> forall t :: t in [MvpScope, Milestones, RiskLog, HowItWorks] && t in done ==> t in held
    ensures MvpScope !in done ==> forall t :: t in [Milestones, RiskLog, HowItWorks] && t in done ==> t in held
    ensures Brief in done ==> Obtained(gen, held, done, MvpScope, map[Brief := done[Brief]])
    ensures Brief in done && MvpScope in done ==>
              && Obtained(gen, held, done, Milestones, PriorTo(done, 2))
              && Obtained(gen, held, done, RiskLog, PriorTo(done, 3))
              && Obtained(gen, held, done, HowItWorks, PriorTo(done, 4))
  {
    assert Justified(gen, held, done, 0) && Justified(gen, held, done, 1) && Justified(gen, held, done, 2);
    assert Justified(gen, held, done, 3) && Justified(gen, held, done, 4);
    FirstContexts(done);
  }

  lemma FirstContexts(done: Artifacts)
    ensures PriorTo(done, 0) == map[]
    ensures Brief in done ==> PriorTo(done, 1) == map[Brief := done[Brief]]
  {
    assert GENERATION_ORDER[..0] == [] && GENERATION_ORDER[..1] == [Brief];
  }

  /** Failed types are listed in the order of generation. */
  lemma {:induction false} MissingInOrder(done: Artifacts, n: nat)
    requires n <= 5
    ensures forall i :: 0 <= i < |Missing(done, n)| ==> PlaceOf(Missing(done, n)[i]) < n
    ensures forall i, j :: 0 <= i < j < |Missing(done, n)| ==>
              PlaceOf(Missing(done, n)[i]) < PlaceOf(Missing(done, n)[j])
  {
    if n > 0 { MissingInOrder(done, n - 1); }
  }

  lemma FailedInOrder(gen: Generator, held: Artifacts, done: Artifacts, failed: seq<ArtifactType>, i: nat, j: nat)
    requires Outcome(gen, held, done, failed) && i < j < |failed|
    ensures PlaceOf(failed[i]) < PlaceOf(failed[j])
  {
    MissingInOrder(done, 5);
  }

  predicate InOrder(rs: seq<Request>) {
    forall j, k :: 0 <= j < k < |rs| ==> PlaceOf(rs[j].wanted) < PlaceOf(rs[k].wanted)
  }

  lemma {:induction false} RequestsInOrder(held: Artifacts, done: Artifacts, n: nat)
    requires n <= 5
    ensures forall r :: r in Requests(held, done, n) ==>
              PlaceOf(r.wanted) < n && r.prior == PriorTo(done, PlaceOf(r.wanted))
    ensures InOrder(Requests(held, done, n))
  {
    if n > 0 {
      RequestsInOrder(held, done, n - 1);
      assert PlaceOf(GENERATION_ORDER[n - 1]) == n - 1;
      OneMoreInOrder(Requests(held, done, n - 1), Request(GENERATION_ORDER[n - 1], PriorTo(done, n - 1)));
    }
  }

  lemma OneMoreInOrder(rs: seq<Request>, r: Request)
    requires InOrder(rs) && forall x :: x in rs ==> PlaceOf(x.wanted) < PlaceOf(r.wanted)
    ensures InOrder(rs + [r]) && InOrder(rs + [])
  {
    assert rs + [] == rs;
    forall j, k | 0 <= j < k < |rs + [r]|
      ensures PlaceOf((rs + [r])[j].wanted) < PlaceOf((rs + [r])[k].wanted)
    {
      assert rs[j] in rs;
    }
  }

  predicate Asked(rs: seq<Request>, t: ArtifactType) {
    exists r :: r in rs && r.wanted == t
  }

  lemma {:induction false} RequestsExactly(held: Artifacts, done: Artifacts, n: nat, i: nat)
    requires i < n <= 5
    ensures Asked(Requests(held, done, n), GENERATION_ORDER[i])
            <==> GENERATION_ORDER[i] !in held && (i > 0 ==> Brief in done) && (i > 1 ==> MvpScope in done)
  {
    var before, rs, t := Requests(held, done, n - 1), Requests(held, done, n), GENERATION_ORDER[i];
    RequestsInOrder(held, done, n - 1);
    assert PlaceOf(t) == i;
    if i < n - 1 {
      RequestsExactly(held, done, n - 1, i);
      assert Asked(rs, t) <==> Asked(before, t);
    } else {
      assert !Asked(before, t);
      if |rs| > |before| { assert rs[|before|].wanted == t && rs[|before|] in rs; }
    }
  }

  /** Each type is asked for at most once, in order with its context, and iff it is neither held nor stopped. */
  lemma RequestsSay(held: Artifacts, done: Artifacts, i: nat)
    requires i < 5
    ensures var rs := Requests(held, done, 5);
            && (forall r :: r in rs ==> r.prior == PriorTo(done, PlaceOf(r.wanted)))
            && InOrder(rs)
            && (Asked(rs, GENERATION_ORDER[i])
                <==> GENERATION_ORDER[i] !in held && (i > 0 ==> Brief in done) && (i > 1 ==> MvpScope in done))
  {
    RequestsInOrder(held, done, 5);
    RequestsExactly(held, done, 5, i);
  }

  /** Retrying from a partial result keeps everything completed, and fails nothing that had succeeded. */
  lemma RetryOnlyGrows(gen: Generator, again: Generator, held: Artifacts,
                       done: Artifacts, failed: seq<ArtifactType>, done': Artifacts, failed': seq<ArtifactType>)
    requires Outcome(gen, held, done, failed) && Outcome(again, done, done', failed')
    ensures forall t :: t in done ==> t in done' && done'[t] == done[t]
    ensures forall t :: t in failed' ==> t in failed
  {
    MissingElements(done, 5);
    MissingElements(done', 5);
  }

  datatype Attempt = Attempt(gen: Generator, done: Artifacts, failed: seq<ArtifactType>)

  /** What attempt number `i` starts from: the first from what was held, each later one from the one before. */
  function HeldBefore(held: Artifacts, attempts: seq<Attempt>, i: nat): Artifacts
    requires i < |attempts|
  {
    if i == 0 then held else attempts[i - 1].done
  }

  ghost predicate Retried(held: Artifacts, attempts: seq<Attempt>) {
    forall i :: 0 <= i < |attempts| ==>
      Outcome(attempts[i].gen, HeldBefore(held, attempts, i), attempts[i].done, attempts[i].failed)
  }

  /** Contents are kept, and nothing fails that had not failed before. */
  ghost predicate Grown(a: Attempt, b: Attempt) {
    && (forall t :: t in a.done ==> t in b.done && b.done[t] == a.done[t])
    && (forall t :: t in b.failed ==> t in a.failed)
  }

  lemma NextGrows(held: Artifacts, attempts: seq<Attempt>, i: nat)
    requires Retried(held, attempts) && i + 1 < |attempts|
    ensures Grown(attempts[i], attempts[i + 1])
  {
    var (a, b) := (attempts[i], attempts[i + 1]);
    assert HeldBefore(held, attempts, i + 1) == a.done;
    RetryOnlyGrows(a.gen, b.gen, HeldBefore(held, attempts, i), a.done, a.failed, b.done, b.failed);
  }

  lemma GrownTransitive(a: Attempt, b: Attempt, c: Attempt)
    requires Grown(a, b) && Grown(b, c)
    ensures Grown(a, c)
  {
  }

  ghost predicate GrowsAt(attempts: seq<Attempt>, k: nat)
    requires k + 1 < |attempts|
  {
    Grown(attempts[k], attempts[k + 1])
  }

  lemma {:induction false} ChainGrows(attempts: seq<Attempt>, i: nat, j: nat)
    requires i <= j < |attempts| && forall k :: 0 <= k < |attempts| - 1 ==> GrowsAt(attempts, k)
    ensures Grown(attempts[i], attempts[j])
    decreases j
  {
    if i < j {
      ChainGrows(attempts, i, j - 1);
      assert GrowsAt(attempts, j - 1);
      GrownTransitive(attempts[i], attempts[j - 1], attempts[j]);
    }
  }

  /** Over a chain of retries of any length, with any generators, nothing completed is ever lost or replaced. */
  lemma RetriesOnlyGrow(held: Artifacts, attempts: seq<Attempt>, i: nat, j: nat)
    requires Retried(held, attempts) && i <= j < |attempts|
    ensures Grown(attempts[i], attempts[j])
  {
    forall k | 0 <= k < |attempts| - 1 ensures GrowsAt(attempts, k) {
      NextGrows(held, attempts, k);
    }
    ChainGrows(attempts, i, j);
  }

  lemma {:induction false} NoneMissing(gen: Generator, held: Artifacts, done: Artifacts, n: nat)
    requires n <= 5 && forall t, p :: gen(t, p).Some?
    requires forall t :: t in held ==> t in done
    requires forall i :: 0 <= i < 5 ==> Justified(gen, held, done, i)
    ensures Missing(done, n) == []
    ensures n > 0 ==> Brief in done
    ensures n > 1 ==> MvpScope in done
  {
    if n > 0 {
      NoneMissing(gen, held, done, n - 1);
      assert Justified(gen, held, done, n - 1);
      assert !Blocked(done, n - 1);
      assert GENERATION_ORDER[n - 1] in done;
    }
  }

  /** Once the generator answers, one retry completes the cascade. */
  lemma RetryCompletes(gen: Generator, held: Artifacts, done: Artifacts, failed: seq<ArtifactType>)
    requires Outcome(gen, held, done, failed) && forall t, p :: gen(t, p).Some?
    ensures failed == []
  {
    NoneMissing(gen, held, done, 5);
  }

  ghost predicate AgreeUpTo(a: Artifacts, b: Artifacts, n: nat)
    requires n <= 5
  {
    forall i :: 0 <= i < n ==> var t := GENERATION_ORDER[i]; (t in a <==> t in b) && (t in a ==> a[t] == b[t])
  }

  lemma SameContext(a: Artifacts, b: Artifacts, n: nat)
    requires n < 5 && AgreeUpTo(a, b, n)
    ensures PriorTo(a, n) == PriorTo(b, n) && (Blocked(a, n) <==> Blocked(b, n))
  {
    assert GENERATION_ORDER[0] == Brief && GENERATION_ORDER[1] == MvpScope;
    forall t | t in GENERATION_ORDER[..n] ensures (t in a <==> t in b) && (t in a ==> a[t] == b[t]) {
      var i :| 0 <= i < n && GENERATION_ORDER[i] == t;
    }
  }

  lemma AgreeOnOneMore(gen: Generator, held: Artifacts, a: Artifacts, b: Artifacts, n: nat)
    requires n < 5 && AgreeUpTo(a, b, n)
    requires forall t :: t in held ==> t in a && t in b && a[t] == b[t] == held[t]
    requires Justified(gen, held, a, n) && Justified(gen, held, b, n)
    ensures AgreeUpTo(a, b, n + 1)
  {
    SameContext(a, b, n);
  }

  lemma {:induction false} OutcomesAgreeUpTo(gen: Generator, held: Artifacts, a: Artifacts, fa: seq<ArtifactType>,
                                             b: Artifacts, fb: seq<ArtifactType>, n: nat)
    requires n <= 5 && Outcome(gen, held, a, fa) && Outcome(gen, held, b, fb)
    ensures AgreeUpTo(a, b, n)
  {
    if n > 0 {
      OutcomesAgreeUpTo(gen, held, a, fa, b, fb, n - 1);
      AgreeOnOneMore(gen, held, a, b, n - 1);
    }
  }

  /** The generator and the held artifacts leave only one possible outcome. */
  lemma OutcomeIsUnique(gen: Generator, held: Artifacts, a: Artifacts, fa: seq<ArtifactType>,
                        b: Artifacts, fb: seq<ArtifactType>)
    requires Outcome(gen, held, a, fa) && Outcome(gen, held, b, fb)
    ensures a == b && fa == fb
  {
    OutcomesAgreeUpTo(gen, held, a, fa, b, fb, 5);
    forall t ensures t in a <==> t in b {
      if t in GENERATION_ORDER { var i :| 0 <= i < 5 && GENERATION_ORDER[i] == t; }
    }
    forall t | t in a ensures a[t] == b[t] {
      if t in GENERATION_ORDER { var i :| 0 <= i < 5 && GENERATION_ORDER[i] == t; }
    }
  }

  // ---------- The loop ----------

  /** What a later artifact does not affect. */
  lemma {:induction false} EarlierUnaffected(held: Artifacts, done: Artifacts, i: nat, content: Content, n: nat)
    requires n <= i < 5
    ensures var done' := done[GENERATION_ORDER[i] := content];
            && PriorTo(done', n) == PriorTo(done, n)
            && Missing(done', n) == Missing(done, n)
            && Requests(held, done', n) == Requests(held, done, n)
            && (Blocked(done', n) <==> Blocked(done, n))
  {
    var t := GENERATION_ORDER[i];
    assert t !in GENERATION_ORDER[..n];
    assert Blocked(done[t := content], n) <==> Blocked(done, n) by {
      assert i > 0 ==> t != Brief;
      assert i > 1 ==> t != MvpScope;
    }
    if n > 0 { EarlierUnaffected(held, done, i, content, n - 1); }
  }

  lemma JustifiedStays(gen: Generator, held: Artifacts, done: Artifacts, i: nat, content: Content, done': Artifacts)
    requires i < 5 && done' == done[GENERATION_ORDER[i] := content]
    requires forall k :: 0 <= k < i ==> Justified(gen, held, done, k)
    ensures forall k :: 0 <= k < i ==> Justified(gen, held, done', k)
  {
    forall k | 0 <= k < i ensures Justified(gen, held, done', k) {
      EarlierUnaffected(held, done, i, content, k);
      assert Justified(gen, held, done, k);
      assert GENERATION_ORDER[k] != GENERATION_ORDER[i];
    }
  }

  /** The loop's state when the first `i` types have been dealt with. */
  ghost predicate UpTo(gen: Generator, held: Artifacts, done: Artifacts, failed: seq<ArtifactType>,
                       requests: seq<Request>, i: nat)
  {
    && i <= 5
    && (forall t :: t in held ==> t in done && done[t] == held[t])
    && (forall t :: t in done && t !in held ==> t in GENERATION_ORDER[..i])
    && failed == Missing(done, i)
    && requests == Requests(held, done, i)
    && (forall k :: 0 <= k < i ==> Justified(gen, held, done, k))
    && !Blocked(done, i)
  }

  lemma NotYetDone(gen: Generator, held: Artifacts, done: Artifacts, failed: seq<ArtifactType>,
                   requests: seq<Request>, i: nat)
    requires i < 5 && UpTo(gen, held, done, failed, requests, i)
    ensures GENERATION_ORDER[i] in done <==> GENERATION_ORDER[i] in held
  {
    assert GENERATION_ORDER[i] !in GENERATION_ORDER[..i];
  }

  lemma PriorGrows(done: Artifacts, i: nat)
    requires i < 5
    ensures var t := GENERATION_ORDER[i];
            PriorTo(done, i + 1) == if t in done then PriorTo(done, i)[t := done[t]] else PriorTo(done, i)
  {
    assert GENERATION_ORDER[..i + 1] == GENERATION_ORDER[..i] + [GENERATION_ORDER[i]];
  }

  /** The type was held already. */
  lemma SkipStep(gen: Generator, held: Artifacts, done: Artifacts, failed: seq<ArtifactType>,
                 requests: seq<Request>, i: nat)
    requires i < 5 && UpTo(gen, held, done, failed, requests, i) && GENERATION_ORDER[i] in held
    ensures UpTo(gen, held, done, failed, requests, i + 1)
  {
    assert GENERATION_ORDER[..i + 1] == GENERATION_ORDER[..i] + [GENERATION_ORDER[i]];
  }

  lemma AnswerOwn(gen: Generator, held: Artifacts, done: Artifacts, i: nat, content: Content, done': Artifacts)
    requires i < 5 && !Blocked(done, i) && GENERATION_ORDER[i] !in held
    requires done' == done[GENERATION_ORDER[i] := content]
    requires gen(GENERATION_ORDER[i], PriorTo(done, i)) == Some(content)
    ensures Justified(gen, held, done', i) && !Blocked(done', i + 1)
    ensures Missing(done', i + 1) == Missing(done, i)
    ensures Requests(held, done', i + 1) == Requests(held, done, i) + [Request(GENERATION_ORDER[i], PriorTo(done, i))]
  {
    EarlierUnaffected(held, done, i, content, i);
  }

  lemma OrderGrows(i: nat)
    requires i < 5
    ensures forall t :: t in GENERATION_ORDER[..i + 1] <==> t in GENERATION_ORDER[..i] || t == GENERATION_ORDER[i]
  {
    assert GENERATION_ORDER[..i + 1] == GENERATION_ORDER[..i] + [GENERATION_ORDER[i]];
  }

  lemma FailOwn(gen: Generator, held: Artifacts, done: Artifacts, i: nat)
    requires 2 <= i < 5 && !Blocked(done, i) && GENERATION_ORDER[i] !in done && GENERATION_ORDER[i] !in held
    requires gen(GENERATION_ORDER[i], PriorTo(done, i)) == None
    ensures Justified(gen, held, done, i) && !Blocked(done, i + 1)
    ensures Missing(done, i + 1) == Missing(done, i) + [GENERATION_ORDER[i]]
    ensures Requests(held, done, i + 1) == Requests(held, done, i) + [Request(GENERATION_ORDER[i], PriorTo(done, i))]
  {
  }

  /** The generator answered. */
  lemma AnswerStep(gen: Generator, held: Artifacts, done: Artifacts, failed: seq<ArtifactType>,
                   requests: seq<Request>, i: nat, content: Content)
    requires i < 5 && UpTo(gen, held, done, failed, requests, i) && GENERATION_ORDER[i] !in held
    requires gen(GENERATION_ORDER[i], PriorTo(done, i)) == Some(content)
    ensures UpTo(gen, held, done[GENERATION_ORDER[i] := content], failed,
                 requests + [Request(GENERATION_ORDER[i], PriorTo(done, i))], i + 1)
  {
    var t := GENERATION_ORDER[i];
    var done' := done[t := content];
    OrderGrows(i);
    AnswerOwn(gen, held, done, i, content, done');
    JustifiedStays(gen, held, done, i, content, done');
  }

  /** The generator raised, on a type the others do not depend on. */
  lemma FailStep(gen: Generator, held: Artifacts, done: Artifacts, failed: seq<ArtifactType>,
                 requests: seq<Request>, i: nat)
    requires 2 <= i < 5 && UpTo(gen, held, done, failed, requests, i) && GENERATION_ORDER[i] !in done
    requires gen(GENERATION_ORDER[i], PriorTo(done, i)) == None
    ensures UpTo(gen, held, done, failed + [GENERATION_ORDER[i]],
                 requests + [Request(GENERATION_ORDER[i], PriorTo(done, i))], i + 1)
  {
    OrderGrows(i);
    FailOwn(gen, held, done, i);
  }

  method GenerateCascade(gen: Generator, held: Artifacts)
    returns (done: Artifacts, failed: seq<ArtifactType>, requests: seq<Request>)
    ensures Outcome(gen, held, done, failed)
    ensures requests == Requests(held, done, 5)
  {
    done, failed, requests := held, [], [];
    var prior: Artifacts := map[];
    for i := 0 to 5
      invariant UpTo(gen, held, done, failed, requests, i)
      invariant prior == PriorTo(done, i)
    {
      var t := GENERATION_ORDER[i];
      NotYetDone(gen, held, done, failed, requests, i);
      PriorGrows(done, i);
      if t in done {
        SkipStep(gen, held, done, failed, requests, i);
        prior := prior[t := done[t]];
        continue;
      }
      var answer := gen(t, prior);
      if answer.Some? {
        AnswerStep(gen, held, done, failed, requests, i, answer.value);
        EarlierUnaffected(held, done, i, answer.value, i);
        PriorGrows(done[t := answer.value], i);
        done := done[t := answer.value];
        requests := requests + [Request(t, prior)];
        prior := prior[t := answer.value];
      } else {
        requests := requests + [Request(t, prior)];
        if t == Brief || t == MvpScope {
          StopHere(gen, held, done, i);
          failed := FailTheRest(done, failed + [t], i + 1);
          return;
        }
        FailStep(gen, held, done, failed, requests[..|requests| - 1], i);
        failed := failed + [t];
      }
    }
    assert GENERATION_ORDER[..5] == GENERATION_ORDER;
  }

  /** After a failed brief or scope the rest is settled: nothing behind it can be generated. */
  lemma StopHere(gen: Generator, held: Artifacts, done: Artifacts, i: nat)
    requires i < 2 && GENERATION_ORDER[i] !in done && !Blocked(done, i)
    requires forall t :: t in held ==> t in done && done[t] == held[t]
    requires forall t :: t in done && t !in held ==> t in GENERATION_ORDER[..i]
    requires forall k :: 0 <= k < i ==> Justified(gen, held, done, k)
    requires gen(GENERATION_ORDER[i], PriorTo(done, i)) == None
    ensures forall k :: 0 <= k < 5 ==> Justified(gen, held, done, k)
    ensures Requests(held, done, 5)
            == Requests(held, done, i) + [Request(GENERATION_ORDER[i], PriorTo(done, i))]
    ensures forall t :: t in done && t !in held ==> t in GENERATION_ORDER
  {
    forall k | 0 <= k < 5 ensures Justified(gen, held, done, k) {
      if k > i {
        assert Blocked(done, k);
        assert GENERATION_ORDER[k] !in GENERATION_ORDER[..i];
      }
    }
    RequestsStop(held, done, i + 1, 5);
  }

  lemma {:induction false} RequestsStop(held: Artifacts, done: Artifacts, from: nat, n: nat)
    requires from <= n <= 5 && from > 0 && Blocked(done, from)
    ensures Requests(held, done, n) == Requests(held, done, from)
  {
    if n > from { RequestsStop(held, done, from, n - 1); }
  }

  /** Every later type that is not there has failed too. */
  method FailTheRest(done: Artifacts, failed: seq<ArtifactType>, from: nat) returns (all: seq<ArtifactType>)
    requires from <= 5 && failed == Missing(done, from)
    ensures all == Missing(done, 5)
  {
    all := failed;
    for j := from to 5
      invariant all == Missing(done, j)
    {
      if GENERATION_ORDER[j] !in done {
        all := all + [GENERATION_ORDER[j]];
      }
    }
  }
}
