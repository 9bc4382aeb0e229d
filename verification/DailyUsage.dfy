/**
 Daily usage counters: one Redis counter per user and UTC day that expires at the next
 midnight. Times are microseconds since the epoch, on one clock shared with Redis.
 */
module DailyUsage {
  import opened Common

  const DAY: int := 86_400_000_000

  /** The UTC date a moment falls on. */
  function DayOf(t: int): int {
    t / DAY
  }

  function NextReset(t: int): int {
    (DayOf(t) + 1) * DAY
  }

  /** The key "usage:{user}:jobs:{date}" */
  datatype UsageKey = UsageKey(user: string, day: int)

  datatype Counter = Counter(count: nat, expiry: Option<int>)

  datatype Usage = Usage(counters: map<UsageKey, Counter>, now: int)

  predicate Present(s: Usage, k: UsageKey) {
    k in s.counters && (s.counters[k].expiry.Some? ==> s.counters[k].expiry.value > s.now)
  }

  function UsedToday(s: Usage, user: string): nat {
    var k := UsageKey(user, DayOf(s.now));
    if Present(s, k) then s.counters[k].count else 0
  }

  function Incremented(s: Usage, user: string): Usage {
    var k := UsageKey(user, DayOf(s.now));
    var c := if Present(s, k) then Counter(s.counters[k].count + 1, s.counters[k].expiry) else Counter(1, None);
    s.(counters := s.counters[k := if c.expiry.None? then c.(expiry := Some(NextReset(s.now))) else c])
  }

  function DailyLimit(tier: string): nat {
    if tier == "cto_scale" then 200 else if tier == "partner" then 50 else 5
  }

  // ---------- Runs, and the count they should show ----------

  datatype Event = Increment(user: string) | Pass(micros: nat)

  datatype Stamped = Stamped(user: string, time: int)

  function Next(s: Usage, e: Event): Usage {
    match e
    case Increment(user) => Incremented(s, user)
    case Pass(d) => s.(now := s.now + d)
  }

  function RunOf(s: Usage, events: seq<Event>): Usage {
    if events == [] then s else Next(RunOf(s, events[..|events| - 1]), events[|events| - 1])
  }

  /** The increments of a run with the moments they happened. */
  function History(s: Usage, events: seq<Event>): seq<Stamped> {
    if events == [] then []
    else
      var before := events[..|events| - 1];
      match events[|events| - 1]
      case Increment(user) => History(s, before) + [Stamped(user, RunOf(s, before).now)]
      case Pass(_) => History(s, before)
  }

  function CountOn(history: seq<Stamped>, user: string, day: int): nat {
    if history == [] then 0
    else
      var last := history[|history| - 1];
      CountOn(history[..|history| - 1], user, day) + (if last.user == user && DayOf(last.time) == day then 1 else 0)
  }

  /** Every counter is of today or earlier and lapses at the midnight that ends its day. */
  ghost predicate Kept(s: Usage, history: seq<Stamped>) {
    && (forall k :: k in s.counters ==> k.day <= DayOf(s.now) && s.counters[k].expiry == Some((k.day + 1) * DAY))
    && (forall h :: h in history ==> h.time <= s.now)
    && (forall user :: UsedToday(s, user) == CountOn(history, user, DayOf(s.now)))
  }

  lemma DayBounds(t: int)
    ensures DayOf(t) * DAY <= t < (DayOf(t) + 1) * DAY
  {
  }

  lemma DayMonotone(t: int, u: int)
    requires t <= u
    ensures DayOf(t) <= DayOf(u)
  {
  }

  /** The reset is the midnight that starts the next day, at most 24 hours away. */
  lemma ResetIsNextMidnight(now: int)
    ensures now < NextReset(now) <= now + DAY
    ensures NextReset(now) % DAY == 0 && DayOf(NextReset(now)) == DayOf(now) + 1
  {
  }

  lemma {:induction false} NoneOnALaterDay(history: seq<Stamped>, user: string, day: int)
    requires forall h :: h in history ==> DayOf(h.time) < day
    ensures CountOn(history, user, day) == 0
  {
    if history != [] {
      assert history[|history| - 1] in history;
      NoneOnALaterDay(history[..|history| - 1], user, day);
    }
  }

  lemma IncrementKept(s: Usage, history: seq<Stamped>, user: string)
    requires Kept(s, history)
    ensures Kept(Incremented(s, user), history + [Stamped(user, s.now)])
    ensures UsedToday(Incremented(s, user), user) == UsedToday(s, user) + 1
  {
    var s' := Incremented(s, user);
    var h' := history + [Stamped(user, s.now)];
    DayBounds(s.now);
    assert h'[..|h'| - 1] == history;
    forall other ensures UsedToday(s', other) == CountOn(h', other, DayOf(s.now)) {
      assert UsedToday(s, other) == CountOn(history, other, DayOf(s.now));
    }
  }

  lemma PassKept(s: Usage, history: seq<Stamped>, micros: nat)
    requires Kept(s, history)
    ensures Kept(s.(now := s.now + micros), history)
  {
    var s' := s.(now := s.now + micros);
    DayMonotone(s.now, s'.now);
    DayBounds(s.now);
    DayBounds(s'.now);
    forall user ensures UsedToday(s', user) == CountOn(history, user, DayOf(s'.now)) {
      if DayOf(s'.now) == DayOf(s.now) {
        assert UsedToday(s, user) == CountOn(history, user, DayOf(s.now));
      } else {
        forall h | h in history ensures DayOf(h.time) < DayOf(s'.now) {
          DayMonotone(h.time, s.now);
        }
        NoneOnALaterDay(history, user, DayOf(s'.now));
      }
    }
  }

  lemma NextKept(s: Usage, history: seq<Stamped>, e: Event)
    requires Kept(s, history)
    ensures Kept(Next(s, e), if e.Increment? then history + [Stamped(e.user, s.now)] else history)
  {
    match e
    case Increment(user) => IncrementKept(s, history, user);
    case Pass(d) => PassKept(s, history, d);
  }

  /** The counter shows exactly the user's increments of the current UTC day, over any run. */
  lemma {:induction false} CounterIsTodaysCount(start: int, events: seq<Event>)
    ensures var s := Usage(map[], start); var e := RunOf(s, events); var history := History(s, events);
            && Kept(e, history)
            && (forall user :: UsedToday(e, user) == CountOn(history, user, DayOf(e.now)))
  {
    var s := Usage(map[], start);
    if events == [] {
      assert Kept(s, []);
    } else {
      var before := events[..|events| - 1];
      CounterIsTodaysCount(start, before);
      NextKept(RunOf(s, before), History(s, before), events[|events| - 1]);
    }
  }

  class UsageTracker {
    var usage: Usage

    constructor (now: int)
      ensures usage == Usage(map[], now)
    {
      usage := Usage(map[], now);
    }

    method IncrementDailyUsage(user: string) returns (count: nat)
      modifies this
      ensures usage == Incremented(old(usage), user)
      ensures count == UsedToday(old(usage), user) + 1
    {
      var key := UsageKey(user, DayOf(usage.now));
      if Present(usage, key) {
        var c := usage.counters[key];
        usage := usage.(counters := usage.counters[key := c.(count := c.count + 1)]);
      } else {
        usage := usage.(counters := usage.counters[key := Counter(1, None)]);
      }
      count := usage.counters[key].count;
      if usage.counters[key].expiry.None? {
        var resetTime := NextReset(usage.now);
        usage := usage.(counters := usage.counters[key := usage.counters[key].(expiry := Some(resetTime))]);
      }
    }

    method CheckDailyLimit(user: string, tier: string) returns (exceeded: bool, used: nat, limit: nat)
      ensures limit == DailyLimit(tier) && used == UsedToday(usage, user)
      ensures exceeded <==> used >= limit
      ensures limit == if tier == "cto_scale" then 200 else if tier == "partner" then 50 else 5
    {
      limit := DailyLimit(tier);
      used := UsedToday(usage, user);
      exceeded := used >= limit;
    }
  }
}
