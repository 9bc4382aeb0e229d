/**
 The daily limit over whole runs: the submission route accepts jobs or puts them off to the
 next day, and the re-scheduler queues the jobs put off without looking at the limit or the
 counter.
 */
module DailyLimit {
  import opened Common
  import opened DailyUsage

  datatype Answer = Busy | PutOff | Accepted | Promoted | Nothing

  const ACCEPTED: set<Answer> := {Accepted}
  const PROMOTED: set<Answer> := {Promoted}
  const PUT_OFF: set<Answer> := {PutOff}
  const QUEUED: set<Answer> := {Accepted, Promoted}
  const COUNTED: set<Answer> := {PutOff, Accepted}

  /**
   A request to the submission route, or the re-scheduler reaching a job of the user, each with
   whether the queue has room; or time passing.
   */
  datatype Request =
    | Submission(user: string, tier: string, room: bool)
    | Promotion(user: string, room: bool)
    | Later(micros: nat)

  /** The counters, and for each user as many entries as jobs put off and not queued since. */
  datatype Desk = Desk(usage: Usage, waiting: multiset<string>)

  /** The limit is looked at before the queue; a put-off job stays put off when the queue is full. */
  function AnswerTo(d: Desk, r: Request): Answer {
    match r
    case Submission(user, tier, room) =>
      if UsedToday(d.usage, user) >= DailyLimit(tier) then PutOff else if room then Accepted else Busy
    case Promotion(user, room) => if user in d.waiting && room then Promoted else Nothing
    case Later(_) => Nothing
  }

  /** A job that is put off counts like one that is accepted; a promotion does not count. */
  function Served(d: Desk, r: Request): Desk {
    match AnswerTo(d, r)
    case PutOff => Desk(Incremented(d.usage, r.user), d.waiting + multiset{r.user})
    case Accepted => d.(usage := Incremented(d.usage, r.user))
    case Promoted => d.(waiting := d.waiting - multiset{r.user})
    case Busy => d
    case Nothing => if r.Later? then d.(usage := d.usage.(now := d.usage.now + r.micros)) else d
  }

  function ServedAll(d: Desk, rs: seq<Request>): Desk {
    if rs == [] then d else Served(ServedAll(d, rs[..|rs| - 1]), rs[|rs| - 1])
  }

  function Opened(start: int): Desk {
    Desk(Usage(map[], start), multiset{})
  }

  function Noted(history: seq<Stamped>, h: Stamped, note: bool): seq<Stamped> {
    if note then history + [h] else history
  }

  function StampOf(d: Desk, r: Request): Stamped {
    Stamped(if r.Later? then "" else r.user, d.usage.now)
  }

  /** The requests so far that got an answer in `wanted`. */
  function Answered(d: Desk, rs: seq<Request>, wanted: set<Answer>): seq<Stamped> {
    if rs == [] then []
    else
      var before, last := rs[..|rs| - 1], rs[|rs| - 1];
      var t := ServedAll(d, before);
      Noted(Answered(d, before, wanted), StampOf(t, last), AnswerTo(t, last) in wanted)
  }

  /** One request more. */
  lemma ServedStep(d: Desk, rs: seq<Request>, r: Request, wanted: set<Answer>)
    ensures ServedAll(d, rs + [r]) == Served(ServedAll(d, rs), r)
    ensures var t := ServedAll(d, rs);
            Answered(d, rs + [r], wanted) == Noted(Answered(d, rs, wanted), StampOf(t, r), AnswerTo(t, r) in wanted)
  {
    assert (rs + [r])[..|rs|] == rs;
  }

  lemma Split(rs: seq<Request>) returns (before: seq<Request>, last: Request)
    requires rs != []
    ensures rs == before + [last] && |before| == |rs| - 1
  {
    before, last := rs[..|rs| - 1], rs[|rs| - 1];
  }

  lemma {:induction false} CountedAreKept(start: int, rs: seq<Request>)
    ensures Kept(ServedAll(Opened(start), rs).usage, Answered(Opened(start), rs, COUNTED))
    decreases |rs|
  {
    var d := Opened(start);
    if rs == [] {
      assert Kept(d.usage, []);
    } else {
      var before, last := Split(rs);
      CountedAreKept(start, before);
      ServedStep(d, before, last, COUNTED);
      OneMoreKept(ServedAll(d, before), Answered(d, before, COUNTED), last);
    }
  }

  lemma OneMoreKept(d: Desk, counted: seq<Stamped>, r: Request)
    requires Kept(d.usage, counted)
    ensures Kept(Served(d, r).usage, Noted(counted, StampOf(d, r), AnswerTo(d, r) in COUNTED))
  {
    match r
    case Submission(user, tier, room) => if AnswerTo(d, r) != Busy { IncrementKept(d.usage, counted, user); }
    case Promotion(_, _) =>
    case Later(micros) => PassKept(d.usage, counted, micros);
  }

  lemma CountNoted(history: seq<Stamped>, h: Stamped, note: bool, user: string, day: int)
    ensures CountOn(Noted(history, h, note), user, day)
            == CountOn(history, user, day) + if note && h.user == user && DayOf(h.time) == day then 1 else 0
  {
    assert (history + [h])[..|history|] == history;
  }

  /** A submission is put off iff the jobs counted today have reached the limit, full queue or not. */
  lemma SubmissionSays(start: int, rs: seq<Request>, user: string, tier: string, room: bool)
    ensures var d := ServedAll(Opened(start), rs); var a := AnswerTo(d, Submission(user, tier, room));
            var limit := if tier == "cto_scale" then 200 else if tier == "partner" then 50 else 5;
            var counted := CountOn(Answered(Opened(start), rs, COUNTED), user, DayOf(d.usage.now));
            && (a == PutOff <==> counted >= limit)
            && (a == Accepted <==> counted < limit && room)
            && (a == Busy <==> counted < limit && !room)
  {
    CountedAreKept(start, rs);
    var d := ServedAll(Opened(start), rs);
    assert UsedToday(d.usage, user) == CountOn(Answered(Opened(start), rs, COUNTED), user, DayOf(d.usage.now));
  }

  // ---------- What the submission route accepts ----------

  predicate LimitedBy(rs: seq<Request>, user: string, least: nat, most: nat) {
    forall r :: r in rs && r.Submission? && r.user == user ==> least <= DailyLimit(r.tier) <= most
  }

  predicate InBounds(accepted: nat, counted: nat, least: nat, most: nat) {
    Min(counted, least) <= accepted <= Min(counted, most)
  }

  /** A submission of the day's user, in numbers. */
  lemma OneMore(accepted: nat, counted: nat, least: nat, most: nat, limit: nat, room: bool)
    requires InBounds(accepted, counted, least, most) && least <= limit <= most
    ensures var a := if counted >= limit then PutOff else if room then Accepted else Busy;
            InBounds(accepted + (if a == Accepted then 1 else 0), counted + (if a != Busy then 1 else 0), least, most)
  {
  }

  /** One more request: what it adds to the day's accepted and counted jobs. */
  lemma OneRequest(d: Desk, accepted: seq<Stamped>, counted: seq<Stamped>, r: Request,
                   user: string, day: int, least: nat, most: nat)
    requires Kept(d.usage, counted)
    requires r.Submission? && r.user == user ==> least <= DailyLimit(r.tier) <= most
    requires InBounds(CountOn(accepted, user, day), CountOn(counted, user, day), least, most)
    ensures var a, h := AnswerTo(d, r), StampOf(d, r);
            InBounds(CountOn(Noted(accepted, h, a in ACCEPTED), user, day),
                     CountOn(Noted(counted, h, a in COUNTED), user, day), least, most)
  {
    var a, h := AnswerTo(d, r), StampOf(d, r);
    CountNoted(accepted, h, a in ACCEPTED, user, day);
    CountNoted(counted, h, a in COUNTED, user, day);
    if r.Submission? && r.user == user && day == DayOf(d.usage.now) {
      assert UsedToday(d.usage, user) == CountOn(counted, user, day);
      OneMore(CountOn(accepted, user, day), CountOn(counted, user, day), least, most, DailyLimit(r.tier), r.room);
    }
  }

  /**
   Over any run and any UTC day: the submission route accepts no more of a user's jobs that day
   than the largest limit of the tiers used, and puts a job off only once the smallest of those
   limits is used up. With one tier, it accepts the minimum of the jobs counted and the limit.
   */
  lemma {:induction false} AcceptedPerDay(start: int, rs: seq<Request>, user: string, day: int, least: nat, most: nat)
    requires LimitedBy(rs, user, least, most)
    ensures InBounds(CountOn(Answered(Opened(start), rs, ACCEPTED), user, day),
                     CountOn(Answered(Opened(start), rs, COUNTED), user, day), least, most)
    decreases |rs|
  {
    if rs != [] {
      var d := Opened(start);
      var before, last := Split(rs);
      assert last in rs && forall r :: r in before ==> r in rs;
      AcceptedPerDay(start, before, user, day, least, most);
      CountedAreKept(start, before);
      ServedStep(d, before, last, ACCEPTED);
      ServedStep(d, before, last, COUNTED);
      OneRequest(ServedAll(d, before), Answered(d, before, ACCEPTED), Answered(d, before, COUNTED),
                 last, user, day, least, most);
    }
  }

  // ---------- What is queued in all ----------

  lemma {:induction false} QueuedIsAcceptedOrPromoted(start: int, rs: seq<Request>, user: string, day: int)
    ensures CountOn(Answered(Opened(start), rs, QUEUED), user, day)
            == CountOn(Answered(Opened(start), rs, ACCEPTED), user, day)
               + CountOn(Answered(Opened(start), rs, PROMOTED), user, day)
    decreases |rs|
  {
    if rs != [] {
      var d := Opened(start);
      var before, last := Split(rs);
      QueuedIsAcceptedOrPromoted(start, before, user, day);
      var t := ServedAll(d, before);
      var a, h := AnswerTo(t, last), StampOf(t, last);
      ServedStep(d, before, last, QUEUED);
      ServedStep(d, before, last, ACCEPTED);
      ServedStep(d, before, last, PROMOTED);
      CountNoted(Answered(d, before, QUEUED), h, a in QUEUED, user, day);
      CountNoted(Answered(d, before, ACCEPTED), h, a in ACCEPTED, user, day);
      CountNoted(Answered(d, before, PROMOTED), h, a in PROMOTED, user, day);
    }
  }

  /** All entries of a user, whatever the day. */
  function Total(history: seq<Stamped>, user: string): nat {
    if history == [] then 0
    else
      Total(history[..|history| - 1], user) + (if history[|history| - 1].user == user then 1 else 0)
  }

  lemma TotalNoted(history: seq<Stamped>, h: Stamped, note: bool, user: string)
    ensures Total(Noted(history, h, note), user)
            == Total(history, user) + if note && h.user == user then 1 else 0
  {
    assert (history + [h])[..|history|] == history;
  }

  lemma {:induction false} DayAtMostTotal(history: seq<Stamped>, user: string, day: int)
    ensures CountOn(history, user, day) <= Total(history, user)
  {
    if history != [] { DayAtMostTotal(history[..|history| - 1], user, day); }
  }

  /** What a request does to the jobs of a user that are waiting. */
  lemma WaitingAfter(t: Desk, r: Request, user: string)
    ensures var a, mine := AnswerTo(t, r), !r.Later? && r.user == user;
            && (mine && a == PutOff ==> Served(t, r).waiting[user] == t.waiting[user] + 1)
            && (mine && a == Promoted ==> Served(t, r).waiting[user] + 1 == t.waiting[user])
            && (!mine || (a != PutOff && a != Promoted) ==> Served(t, r).waiting[user] == t.waiting[user])
  {
    match AnswerTo(t, r)
    case PutOff => assert Served(t, r).waiting == t.waiting + multiset{r.user};
    case Promoted => assert Served(t, r).waiting == t.waiting - multiset{r.user};
    case _ => assert Served(t, r).waiting == t.waiting;
  }

  lemma OneMoreConserved(t: Desk, putOff: seq<Stamped>, promoted: seq<Stamped>, r: Request, user: string)
    requires Total(putOff, user) == Total(promoted, user) + t.waiting[user]
    ensures var a, h := AnswerTo(t, r), StampOf(t, r);
            Total(Noted(putOff, h, a in PUT_OFF), user)
            == Total(Noted(promoted, h, a in PROMOTED), user) + Served(t, r).waiting[user]
  {
    var a, h := AnswerTo(t, r), StampOf(t, r);
    TotalNoted(putOff, h, a in PUT_OFF, user);
    TotalNoted(promoted, h, a in PROMOTED, user);
    WaitingAfter(t, r, user);
    assert a == PutOff || a == Promoted ==> !r.Later? && h.user == r.user;
  }

  /** Conservation: every job put off has been promoted once or is still waiting. */
  lemma {:induction false} PutOffIsConserved(start: int, rs: seq<Request>, user: string)
    ensures Total(Answered(Opened(start), rs, PUT_OFF), user)
            == Total(Answered(Opened(start), rs, PROMOTED), user) + ServedAll(Opened(start), rs).waiting[user]
    decreases |rs|
  {
    if rs != [] {
      var d := Opened(start);
      var before, last := Split(rs);
      PutOffIsConserved(start, before, user);
      ServedStep(d, before, last, PUT_OFF);
      ServedStep(d, before, last, PROMOTED);
      OneMoreConserved(ServedAll(d, before), Answered(d, before, PUT_OFF), Answered(d, before, PROMOTED), last, user);
    }
  }

  /**
   For a user of one tier, over any run and any UTC day: the jobs queued that day are those the
   route accepted, the minimum of the jobs counted and the limit, and those promoted, which are
   no more than the jobs ever put off. The total stays within the limit iff nothing was promoted
   that day or the jobs counted and promoted together stay within it.
   */
  lemma QueuedPerDay(start: int, rs: seq<Request>, user: string, day: int, limit: nat)
    requires LimitedBy(rs, user, limit, limit)
    ensures var d := Opened(start);
            var queued := CountOn(Answered(d, rs, QUEUED), user, day);
            var counted := CountOn(Answered(d, rs, COUNTED), user, day);
            var promoted := CountOn(Answered(d, rs, PROMOTED), user, day);
            && queued == Min(counted, limit) + promoted
            && promoted <= Total(Answered(d, rs, PUT_OFF), user)
            && (queued <= limit <==> promoted == 0 || counted + promoted <= limit)
  {
    AcceptedPerDay(start, rs, user, day, limit, limit);
    QueuedIsAcceptedOrPromoted(start, rs, user, day);
    PutOffIsConserved(start, rs, user);
    DayAtMostTotal(Answered(Opened(start), rs, PROMOTED), user, day);
  }

  // ---------- The limit can be exceeded ----------

  function Repeated(r: Request, n: nat): seq<Request> {
    if n == 0 then [] else Repeated(r, n - 1) + [r]
  }

  /** Submissions that find room are all counted, at the same moment. */
  lemma {:induction false} AllCounted(start: int, rs: seq<Request>, user: string, tier: string, n: nat)
    ensures var d := Opened(start); var all := rs + Repeated(Submission(user, tier, true), n);
            var day := DayOf(ServedAll(d, rs).usage.now);
            && ServedAll(d, all).usage.now == ServedAll(d, rs).usage.now
            && CountOn(Answered(d, all, COUNTED), user, day) == CountOn(Answered(d, rs, COUNTED), user, day) + n
            && CountOn(Answered(d, all, PROMOTED), user, day) == CountOn(Answered(d, rs, PROMOTED), user, day)
  {
    var d, r := Opened(start), Submission(user, tier, true);
    if n == 0 {
      assert rs + [] == rs;
    } else {
      AllCounted(start, rs, user, tier, n - 1);
      var before := rs + Repeated(r, n - 1);
      assert rs + Repeated(r, n) == before + [r];
      OneMoreCounted(start, before, r);
    }
  }

  lemma OneMoreCounted(start: int, before: seq<Request>, r: Request)
    requires r.Submission? && r.room
    ensures var d := Opened(start); var t := ServedAll(d, before); var day := DayOf(t.usage.now);
            && ServedAll(d, before + [r]).usage.now == t.usage.now
            && CountOn(Answered(d, before + [r], COUNTED), r.user, day)
               == CountOn(Answered(d, before, COUNTED), r.user, day) + 1
            && CountOn(Answered(d, before + [r], PROMOTED), r.user, day)
               == CountOn(Answered(d, before, PROMOTED), r.user, day)
  {
    var d := Opened(start);
    var t := ServedAll(d, before);
    var h := StampOf(t, r);
    ServedStep(d, before, r, COUNTED);
    ServedStep(d, before, r, PROMOTED);
    CountNoted(Answered(d, before, COUNTED), h, true, r.user, DayOf(t.usage.now));
  }

  /** A day's first `limit` submissions use the limit up. */
  lemma LimitIsUsedUp(user: string, tier: string, limit: nat) returns (rs: seq<Request>)
    requires limit == DailyLimit(tier)
    ensures UsedToday(ServedAll(Opened(0), rs).usage, user) >= limit && ServedAll(Opened(0), rs).usage.now == 0
    ensures forall r :: r in rs ==> r == Submission(user, tier, true)
  {
    rs := Repeated(Submission(user, tier, true), limit);
    AllCounted(0, [], user, tier, limit);
    assert [] + rs == rs;
    CountedAreKept(0, rs);
    RepeatedIsLimited(Submission(user, tier, true), limit);
  }

  /** On the first day one job more than the limit is submitted: it is put off, and waits. */
  lemma OneIsPutOff(user: string, tier: string, limit: nat) returns (rs: seq<Request>)
    requires limit == DailyLimit(tier)
    ensures user in ServedAll(Opened(0), rs).waiting && ServedAll(Opened(0), rs).usage.now == 0
    ensures forall r :: r in rs ==> r == Submission(user, tier, true)
  {
    var full := LimitIsUsedUp(user, tier, limit);
    ServedStep(Opened(0), full, Submission(user, tier, true), COUNTED);
    rs := full + [Submission(user, tier, true)];
  }

  lemma ADayLater(user: string, before: seq<Request>)
    requires user in ServedAll(Opened(0), before).waiting && ServedAll(Opened(0), before).usage.now == 0
    ensures var t := ServedAll(Opened(0), before + [Later(DAY)]); user in t.waiting && t.usage.now == DAY
  {
    ServedStep(Opened(0), before, Later(DAY), PROMOTED);
  }

  lemma PromotionNoted(t: Desk, promoted: seq<Stamped>, user: string)
    requires user in t.waiting
    ensures var r := Promotion(user, true);
            && Served(t, r).usage == t.usage
            && CountOn(Noted(promoted, StampOf(t, r), AnswerTo(t, r) in PROMOTED), user, DayOf(t.usage.now)) >= 1
  {
    CountNoted(promoted, StampOf(t, Promotion(user, true)), true, user, DayOf(t.usage.now));
  }

  lemma PromotionCounts(start: int, user: string, before: seq<Request>)
    requires user in ServedAll(Opened(start), before).waiting
    ensures var d, rs := Opened(start), before + [Promotion(user, true)]; var now := ServedAll(d, before).usage.now;
            && ServedAll(d, rs).usage.now == now
            && CountOn(Answered(d, rs, PROMOTED), user, DayOf(now)) >= 1
  {
    var d := Opened(start);
    ServedStep(d, before, Promotion(user, true), PROMOTED);
    PromotionNoted(ServedAll(d, before), Answered(d, before, PROMOTED), user);
  }

  /** On the next day the re-scheduler queues it. */
  lemma OneIsPromoted(user: string, tier: string, first: seq<Request>) returns (rs: seq<Request>)
    requires user in ServedAll(Opened(0), first).waiting && ServedAll(Opened(0), first).usage.now == 0
    requires Promises(first, user, tier)
    ensures Promises(rs, user, tier) && DayOf(ServedAll(Opened(0), rs).usage.now) == 1
    ensures CountOn(Answered(Opened(0), rs, PROMOTED), user, 1) >= 1
  {
    var next := first + [Later(DAY)];
    ADayLater(user, first);
    PromotionCounts(0, user, next);
    rs := next + [Promotion(user, true)];
  }

  lemma {:induction false} RepeatedIsLimited(r: Request, n: nat)
    ensures forall x :: x in Repeated(r, n) ==> x == r
  {
    if n > 0 { RepeatedIsLimited(r, n - 1); }
  }

  predicate Promises(rs: seq<Request>, user: string, tier: string) {
    forall r :: r in rs && r.Submission? && r.user == user ==> r.tier == tier
  }

  /** A day on which a job was promoted and the limit is then used up. */
  lemma FullAfterPromotion(user: string, tier: string, limit: nat, before: seq<Request>) returns (rs: seq<Request>)
    requires limit == DailyLimit(tier) && Promises(before, user, tier)
    requires DayOf(ServedAll(Opened(0), before).usage.now) == 1
    requires CountOn(Answered(Opened(0), before, PROMOTED), user, 1) >= 1
    ensures Promises(rs, user, tier)
    ensures CountOn(Answered(Opened(0), rs, COUNTED), user, 1) >= limit
    ensures CountOn(Answered(Opened(0), rs, PROMOTED), user, 1) >= 1
  {
    AllCounted(0, before, user, tier, limit);
    RepeatedIsLimited(Submission(user, tier, true), limit);
    rs := before + Repeated(Submission(user, tier, true), limit);
  }

  /** The witness, for any tier: one job more than its limit is queued on one day. */
  lemma LimitCanBeExceeded(user: string, tier: string, limit: nat) returns (rs: seq<Request>)
    requires limit == DailyLimit(tier)
    ensures Promises(rs, user, tier)
    ensures CountOn(Answered(Opened(0), rs, QUEUED), user, 1) > limit
  {
    var first := OneIsPutOff(user, tier, limit);
    var third := OneIsPromoted(user, tier, first);
    rs := FullAfterPromotion(user, tier, limit, third);
    QueuedPerDay(0, rs, user, 1, limit);
  }

  /** The submission route, as far as it concerns the counter. */
  method SubmitJob(tracker: UsageTracker, user: string, tier: string, room: bool, ghost d: Desk) returns (a: Answer)
    requires d.usage == tracker.usage
    modifies tracker
    ensures a == AnswerTo(d, Submission(user, tier, room))
    ensures tracker.usage == Served(d, Submission(user, tier, room)).usage
  {
    var exceeded, _, _ := tracker.CheckDailyLimit(user, tier);
    if exceeded {
      var _ := tracker.IncrementDailyUsage(user);
      return PutOff;
    }
    if !room {
      return Busy;
    }
    var _ := tracker.IncrementDailyUsage(user);
    return Accepted;
  }
}
