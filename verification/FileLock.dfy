/**
 Leased file locks: a Redis key per file whose value "owner:timestamp" expires unless it is
 extended. Each call is one atomic step.
 */
module FileLocks {
  import opened Common
  import opened TextFraming

  const LOCK_PREFIX := "cofounder:lock:"
  const DEFAULT_TTL: nat := 300

  datatype Lock = Lock(value: string, expiry: int)

  datatype Locks = Locks(table: map<string, Lock>, now: int)

  datatype LockInfo = LockInfo(owner: string, lockedAt: Option<string>, expiresIn: int)

  function LockKey(project: string, file: string): string {
    LOCK_PREFIX + project + ":" + file
  }

  function Value(owner: string, stamp: string): string {
    owner + ":" + stamp
  }

  /** The ownership test of the code: the value starts with the owner and a colon. */
  predicate Owns(value: string, owner: string) {
    owner + ":" <= value
  }

  predicate Held(s: Locks, key: string) {
    key in s.table && s.table[key].expiry > s.now
  }

  predicate HeldBy(s: Locks, key: string, owner: string) {
    Held(s, key) && Owns(s.table[key].value, owner)
  }

  function TtlOrDefault(ttl: Option<nat>): nat {
    if ttl.None? || ttl.value == 0 then DEFAULT_TTL else ttl.value
  }

  function Until(s: Locks, key: string, expiry: int): Locks
    requires key in s.table
  {
    s.(table := s.table[key := s.table[key].(expiry := expiry)])
  }

  function Acquired(s: Locks, key: string, owner: string, stamp: string, ttl: Option<nat>): (r: (Locks, bool))
    ensures r.1 <==> !Held(s, key) || Owns(s.table[key].value, owner)
    ensures !r.1 ==> r.0 == s
    ensures r.1 ==> HeldBy(r.0, key, owner) && r.0.table[key].expiry == s.now + TtlOrDefault(ttl)
  {
    var expiry := s.now + TtlOrDefault(ttl);
    if !Held(s, key) then (s.(table := s.table[key := Lock(Value(owner, stamp), expiry)]), true)
    else if Owns(s.table[key].value, owner) then (Until(s, key, expiry), true)
    else (s, false)
  }

  function Released(s: Locks, key: string, owner: string): (r: (Locks, bool))
    ensures if r.1 then !Held(r.0, key) else r.0 == s
  {
    if HeldBy(s, key, owner) then (s.(table := s.table - {key}), true) else (s, false)
  }

  function Extended(s: Locks, key: string, owner: string, ttl: Option<nat>): (Locks, bool) {
    if HeldBy(s, key, owner) then (Until(s, key, s.now + TtlOrDefault(ttl)), true) else (s, false)
  }

  function Info(s: Locks, key: string): Option<LockInfo> {
    if !Held(s, key) then None
    else
      var v := s.table[key].value;
      match IndexOf(v, ":")
      case None => Some(LockInfo(v, None, s.table[key].expiry - s.now))
      case Some(i) => Some(LockInfo(v[..i], Some(v[i + 1..]), s.table[key].expiry - s.now))
  }

  // ---------- The ownership test ----------

  lemma {:induction false} FirstColon(a: string, rest: string)
    requires ':' !in a
    ensures IndexOf(a + ":" + rest, ":") == Some(|a|)
  {
    var v := a + ":" + rest;
    if a == "" {
      assert v[..1] == ":";
    } else {
      assert v[0] == a[0] && a[0] in a;
      assert v[1..] == a[1..] + ":" + rest;
      FirstColon(a[1..], rest);
    }
  }

  /** A value names one colon-free owner. */
  lemma OwnerIsUnique(value: string, a: string, b: string)
    requires ':' !in a && ':' !in b && Owns(value, a) && Owns(value, b)
    ensures a == b
  {
    FirstColon(a, value[|a| + 1..]);
    FirstColon(b, value[|b| + 1..]);
    assert value == a + ":" + value[|a| + 1..] == b + ":" + value[|b| + 1..];
    assert a == value[..|a|] && b == value[..|b|];
  }

  /** The test tells owners apart exactly when the holder's name has no colon. */
  lemma OwnershipIsExactIff(holder: string, stamp: string)
    ensures (forall o :: ':' !in o ==> (Owns(Value(holder, stamp), o) <==> o == holder)) <==> ':' !in holder
  {
    var v := Value(holder, stamp);
    if ':' !in holder {
      assert v[..|holder| + 1] == holder + ":";
      forall o | ':' !in o && Owns(v, o) ensures o == holder {
        OwnerIsUnique(v, o, holder);
      }
    } else {
      var i := ColonIn(holder);
      var o := holder[..i];
      assert v[..i + 1] == o + ":";
      assert Owns(v, o) && o != holder;
    }
  }

  lemma {:induction false} ColonIn(s: string) returns (i: nat)
    requires ':' in s
    ensures i < |s| && s[i] == ':' && ':' !in s[..i]
  {
    if s[0] == ':' {
      i := 0;
    } else {
      var k := ColonIn(s[1..]);
      i := k + 1;
      assert s[..i] == [s[0]] + s[1..][..k];
    }
  }

  /** Files of colon-free projects never share a key; with a colon in the project id they can. */
  lemma KeysAreDistinct(p: string, f: string, p': string, f': string)
    requires ':' !in p && ':' !in p' && LockKey(p, f) == LockKey(p', f')
    ensures p == p' && f == f'
  {
    var n := |LOCK_PREFIX|;
    assert LockKey(p, f)[n..] == p + ":" + f;
    assert LockKey(p', f')[n..] == p' + ":" + f';
    FirstColon(p, f);
    FirstColon(p', f');
    var v := p + ":" + f;
    assert p == v[..|p|] && p' == v[..|p'|];
    assert f == v[|p| + 1..] && f' == v[|p'| + 1..];
  }

  /** is_locked gives back the owner and the time that acquire stored. */
  lemma InfoRoundTrip(s: Locks, key: string, owner: string, stamp: string, ttl: Option<nat>)
    requires ':' !in owner && !Held(s, key)
    ensures Info(Acquired(s, key, owner, stamp, ttl).0, key) == Some(LockInfo(owner, Some(stamp), TtlOrDefault(ttl)))
  {
    FirstColon(owner, stamp);
    var v := Value(owner, stamp);
    assert v[..|owner|] == owner && v[|owner| + 1..] == stamp;
  }

  // ---------- Runs ----------

  datatype Op =
    | TryAcquire(key: string, owner: string, stamp: string, ttl: Option<nat>)
    | TryRelease(key: string, owner: string)
    | TryExtend(key: string, owner: string, ttl: Option<nat>)
    | Wait(seconds: nat)

  datatype Grant = Grant(key: string, owner: string)

  /** The lock table, and until when each owner may believe it holds a file. */
  datatype World = World(locks: Locks, grants: map<Grant, int>)

  function Performed(w: World, op: Op): World {
    match op
    case TryAcquire(key, owner, stamp, ttl) =>
      var (s, ok) := Acquired(w.locks, key, owner, stamp, ttl);
      World(s, if ok then w.grants[Grant(key, owner) := s.now + TtlOrDefault(ttl)] else w.grants)
    case TryRelease(key, owner) =>
      var (s, ok) := Released(w.locks, key, owner);
      World(s, if ok then w.grants - {Grant(key, owner)} else w.grants)
    case TryExtend(key, owner, ttl) =>
      var (s, ok) := Extended(w.locks, key, owner, ttl);
      World(s, if ok then w.grants[Grant(key, owner) := s.now + TtlOrDefault(ttl)] else w.grants)
    case Wait(d) => w.(locks := w.locks.(now := w.locks.now + d))
  }

  function RunOps(w: World, ops: seq<Op>): World
    decreases |ops|
  {
    if ops == [] then w else RunOps(Performed(w, ops[0]), ops[1..])
  }

  predicate Unexpired(w: World, g: Grant) {
    g in w.grants && w.grants[g] > w.locks.now
  }

  predicate Named(op: Op) {
    op.Wait? || ':' !in op.owner
  }

  /** An unexpired grant is the lock in the table, with that owner and that expiry time. */
  ghost predicate Backed(w: World) {
    forall g :: Unexpired(w, g) ==>
      ':' !in g.owner && HeldBy(w.locks, g.key, g.owner) && w.locks.table[g.key].expiry == w.grants[g]
  }

  lemma PerformedBacked(w: World, op: Op)
    requires Backed(w) && Named(op)
    ensures Backed(Performed(w, op))
  {
    var w' := Performed(w, op);
    if !op.Wait? {
      var mine := Grant(op.key, op.owner);
      forall g | Unexpired(w', g)
        ensures ':' !in g.owner && HeldBy(w'.locks, g.key, g.owner) && w'.locks.table[g.key].expiry == w'.grants[g]
      {
        if op.TryAcquire? && g == mine && !Held(w.locks, op.key) {
          var v := Value(op.owner, op.stamp);
          assert v[..|op.owner| + 1] == op.owner + ":";
        }
        if g != mine && g.key == op.key && HeldBy(w.locks, op.key, op.owner) {
          OwnerIsUnique(w.locks.table[op.key].value, g.owner, op.owner);
        }
      }
    }
  }

  /**
   Mutual exclusion over any timed run of colon-free owners: two owners never hold unexpired
   grants of the same file.
   */
  lemma {:induction false} OneHolderAtATime(w: World, ops: seq<Op>, a: Grant, b: Grant)
    requires Backed(w) && forall op :: op in ops ==> Named(op)
    ensures var e := RunOps(w, ops);
            && Backed(e)
            && (Unexpired(e, a) && Unexpired(e, b) && a.key == b.key ==> a == b)
    decreases |ops|
  {
    if ops == [] {
      if Unexpired(w, a) && Unexpired(w, b) && a.key == b.key {
        OwnerIsUnique(w.locks.table[a.key].value, a.owner, b.owner);
      }
    } else {
      assert ops[0] in ops;
      PerformedBacked(w, ops[0]);
      OneHolderAtATime(Performed(w, ops[0]), ops[1..], a, b);
    }
  }

  /** Only the holder can release or extend; anyone else is refused and changes nothing. */
  lemma OthersCannotRelease(s: Locks, key: string, holder: string, other: string, ttl: Option<nat>)
    requires ':' !in holder && ':' !in other && HeldBy(s, key, holder)
    ensures Released(s, key, other).1 <==> other == holder
    ensures Extended(s, key, other, ttl).1 <==> other == holder
    ensures other != holder ==> Released(s, key, other).0 == s && Extended(s, key, other, ttl).0 == s
  {
    if HeldBy(s, key, other) { OwnerIsUnique(s.table[key].value, holder, other); }
  }

  /** A lock taken or prolonged with a lease time expires exactly then, and after 300 seconds without one. */
  lemma LeaseIsTheCallers(s: Locks, key: string, owner: string, stamp: string, ttl: Option<nat>)
    ensures var seconds := if ttl.None? || ttl.value == 0 then 300 else ttl.value;
            var (a, e) := (Acquired(s, key, owner, stamp, ttl), Extended(s, key, owner, ttl));
            && (a.1 ==> key in a.0.table && a.0.table[key].expiry == s.now + seconds)
            && (e.1 ==> key in e.0.table && e.0.table[key].expiry == s.now + seconds)
            && (a.1 && Held(s, key) ==> a.0.table[key].value == s.table[key].value)
            && (e.1 ==> e.0.table[key].value == s.table[key].value)
  {
  }

  /**
   Leaving the context manager after any timed run: whoever else holds an unexpired grant by
   then, of this file or another, keeps it.
   */
  lemma ExitSparesOthers(w: World, ops: seq<Op>, key: string, owner: string, g: Grant)
    requires Backed(w) && (forall op :: op in ops ==> Named(op)) && ':' !in owner
    requires Unexpired(RunOps(w, ops), g) && g != Grant(key, owner)
    ensures var e := RunOps(w, ops); var x := Performed(e, TryRelease(key, owner));
            && Unexpired(x, g) && HeldBy(x.locks, g.key, g.owner)
            && x.locks.table[g.key] == e.locks.table[g.key]
  {
    OneHolderAtATime(w, ops, g, g);
    var e := RunOps(w, ops);
    if g.key == key { OthersCannotRelease(e.locks, key, g.owner, owner, None); }
  }

  // ---------- Waiting for a lock ----------

  /**
   The loop of the context manager: try, and while refused sleep. `later` are the lock tables
   found after each sleep, whatever others did meanwhile; `stamp` writes a time.
   */
  function Waited(s: Locks, key: string, owner: string, stamp: int -> string, ttl: Option<nat>,
                  deadline: int, later: seq<Locks>): (Locks, bool)
    decreases |later|
  {
    if s.now >= deadline then (s, false)
    else
      var (s', ok) := Acquired(s, key, owner, stamp(s.now), ttl);
      if ok then (s', true)
      else if later == [] then (s, false)
      else Waited(later[0], key, owner, stamp, ttl, deadline, later[1..])
  }

  /** Each sleep takes at least a second. */
  predicate Sleeps(s: Locks, later: seq<Locks>)
    decreases |later|
  {
    later == [] || (s.now + 1 <= later[0].now && Sleeps(later[0], later[1..]))
  }

  /**
   A waiter that gets the lock holds it for a full lease and got it before the deadline. One
   that does not has changed nothing, and given enough sleeps the deadline has passed.
   */
  lemma {:induction false} WaitingEnds(s: Locks, key: string, owner: string, stamp: int -> string, ttl: Option<nat>,
                                       deadline: int, later: seq<Locks>)
    ensures var (r, ok) := Waited(s, key, owner, stamp, ttl, deadline, later);
            if ok then HeldBy(r, key, owner) && r.table[key].expiry == r.now + TtlOrDefault(ttl) && r.now < deadline
            else (r == s || r in later) && (Sleeps(s, later) && s.now + |later| >= deadline ==> r.now >= deadline)
    decreases |later|
  {
    if s.now < deadline && !Acquired(s, key, owner, stamp(s.now), ttl).1 && later != [] {
      WaitingEnds(later[0], key, owner, stamp, ttl, deadline, later[1..]);
    }
  }

  // ---------- The lock object ----------

  class FileLock {
    var locks: Locks

    constructor (now: int)
      ensures locks == Locks(map[], now)
    {
      locks := Locks(map[], now);
    }

    method Acquire(project: string, file: string, owner: string, stamp: string, ttl: Option<nat>) returns (ok: bool)
      modifies this
      ensures (locks, ok) == Acquired(old(locks), LockKey(project, file), owner, stamp, ttl)
    {
      var key := LockKey(project, file);
      var seconds := TtlOrDefault(ttl);
      if !Held(locks, key) {
        locks := locks.(table := locks.table[key := Lock(Value(owner, stamp), locks.now + seconds)]);
        return true;
      }
      var current := locks.table[key].value;
      if Owns(current, owner) {
        locks := Until(locks, key, locks.now + seconds);
        return true;
      }
      return false;
    }

    method Release(project: string, file: string, owner: string) returns (ok: bool)
      modifies this
      ensures (locks, ok) == Released(old(locks), LockKey(project, file), owner)
    {
      var key := LockKey(project, file);
      if Held(locks, key) && Owns(locks.table[key].value, owner) {
        locks := locks.(table := locks.table - {key});
        return true;
      }
      return false;
    }

    method Extend(project: string, file: string, owner: string, ttl: Option<nat>) returns (ok: bool)
      modifies this
      ensures (locks, ok) == Extended(old(locks), LockKey(project, file), owner, ttl)
    {
      var key := LockKey(project, file);
      var seconds := TtlOrDefault(ttl);
      if Held(locks, key) && Owns(locks.table[key].value, owner) {
        locks := Until(locks, key, locks.now + seconds);
        return true;
      }
      return false;
    }

    /** Entering the context manager; `later` as in Waited. */
    method Enter(project: string, file: string, owner: string, stamp: int -> string, ttl: Option<nat>,
                 wait: bool, waitTimeout: nat, later: seq<Locks>) returns (acquired: bool)
      modifies this
      ensures var key := LockKey(project, file); var s := old(locks);
              (locks, acquired) == if wait then Waited(s, key, owner, stamp, ttl, s.now + waitTimeout, later)
                                   else Acquired(s, key, owner, stamp(s.now), ttl)
    {
      if !wait {
        acquired := Acquire(project, file, owner, stamp(locks.now), ttl);
        return;
      }
      acquired := false;
      var start := locks.now;
      var i := 0;
      ghost var key := LockKey(project, file);
      assert later[0..] == later;
      while locks.now - start < waitTimeout
        invariant 0 <= i <= |later| && !acquired
        invariant Waited(old(locks), key, owner, stamp, ttl, start + waitTimeout, later)
                  == Waited(locks, key, owner, stamp, ttl, start + waitTimeout, later[i..])
        decreases |later| - i
      {
        acquired := Acquire(project, file, owner, stamp(locks.now), ttl);
        if acquired || i == |later| {
          break;
        }
        assert later[i..][1..] == later[i + 1..];
        locks := later[i];
        i := i + 1;
      }
    }

    /** Leaving the context manager. */
    method Exit(project: string, file: string, owner: string, acquired: bool)
      modifies this
      ensures locks == if acquired then Released(old(locks), LockKey(project, file), owner).0 else old(locks)
    {
      if acquired {
        var _ := Release(project, file, owner);
      }
    }

    method IsLocked(project: string, file: string) returns (info: Option<LockInfo>)
      ensures info == Info(locks, LockKey(project, file))
    {
      info := Info(locks, LockKey(project, file));
    }
  }
}
