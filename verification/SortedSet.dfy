/**
 A Redis sorted set: the members in rank order, each with its score. Members of equal
 score are ranked by their bytes, as Redis ranks them.
 */
module SortedSet {
  import opened Common

  datatype Entry = Entry(member: string, score: int)

  type ZSet = seq<Entry>

  predicate LexLess(a: string, b: string) {
    if b == "" then false
    else if a == "" then true
    else a[0] < b[0] || (a[0] == b[0] && LexLess(a[1..], b[1..]))
  }

  predicate Precedes(a: Entry, b: Entry) {
    a.score < b.score || (a.score == b.score && LexLess(a.member, b.member))
  }

  /** ZREM */
  function Without(z: ZSet, m: string): ZSet {
    if z == [] then []
    else if z[0].member == m then Without(z[1..], m)
    else [z[0]] + Without(z[1..], m)
  }

  function Insert(z: ZSet, e: Entry): ZSet {
    if z == [] || Precedes(e, z[0]) then [e] + z
    else [z[0]] + Insert(z[1..], e)
  }

  /** ZADD: a member that is already present is moved to the rank of its new score. */
  function ZAdd(z: ZSet, m: string, score: int): ZSet {
    Insert(Without(z, m), Entry(m, score))
  }

  function Members(z: ZSet): seq<string> {
    seq(|z|, i requires 0 <= i < |z| => z[i].member)
  }

  function MemberSet(z: ZSet): set<string> {
    set e | e in z :: e.member
  }

  /** ZRANK: None when the member is absent. */
  function Rank(z: ZSet, m: string): (r: Option<nat>)
    ensures r.Some? ==> r.value < |z| && z[r.value].member == m
    ensures r.None? <==> m !in MemberSet(z)
    ensures r.Some? ==> forall i :: 0 <= i < r.value ==> z[i].member != m
  {
    if z == [] then None
    else if z[0].member == m then Some(0)
    else
      assert forall e :: e in z <==> e == z[0] || e in z[1..];
      assert MemberSet(z) == {z[0].member} + MemberSet(z[1..]);
      match Rank(z[1..], m)
      case None => None
      case Some(r) =>
        assert forall i :: 0 < i < r + 1 ==> z[i] == z[1..][i - 1];
        Some(r + 1)
  }

  /** No member is listed twice. */
  ghost predicate Distinct(z: ZSet) {
    forall i, j :: 0 <= i < j < |z| ==> z[i].member != z[j].member
  }

  lemma {:induction false} WithoutMembers(z: ZSet, m: string)
    ensures MemberSet(Without(z, m)) == MemberSet(z) - {m}
    ensures forall e :: e in Without(z, m) <==> e in z && e.member != m
  {
    if z != [] {
      WithoutMembers(z[1..], m);
      assert forall e :: e in z <==> e == z[0] || e in z[1..];
      var w := Without(z[1..], m);
      assert forall e :: e in [z[0]] + w <==> e == z[0] || e in w;
    }
  }

  lemma {:induction false} InsertMembers(z: ZSet, e: Entry)
    ensures |Insert(z, e)| == |z| + 1
    ensures MemberSet(Insert(z, e)) == MemberSet(z) + {e.member}
    ensures forall x :: x in Insert(z, e) <==> x in z || x == e
  {
    if z == [] || Precedes(e, z[0]) {
      assert forall x :: x in [e] + z <==> x == e || x in z;
    } else {
      InsertMembers(z[1..], e);
      var w := Insert(z[1..], e);
      assert forall x :: x in [z[0]] + w <==> x == z[0] || x in w;
      assert forall x :: x in z <==> x == z[0] || x in z[1..];
    }
  }

  lemma {:induction false} WithoutDistinct(z: ZSet, m: string)
    requires Distinct(z)
    ensures Distinct(Without(z, m))
    ensures |Without(z, m)| == if m in MemberSet(z) then |z| - 1 else |z|
  {
    if z != [] {
      WithoutDistinct(z[1..], m);
      WithoutMembers(z[1..], m);
      assert forall e :: e in z <==> e == z[0] || e in z[1..];
      assert z[0].member !in MemberSet(z[1..]);
      DistinctCons(z[0], Without(z[1..], m));
    }
  }

  lemma DistinctCons(e: Entry, z: ZSet)
    requires Distinct(z)
    ensures Distinct([e] + z) <==> e.member !in MemberSet(z)
  {
    var w := [e] + z;
    if e.member in MemberSet(z) {
      var k :| 0 <= k < |z| && z[k].member == e.member;
      assert w[0].member == w[k + 1].member;
    }
  }

  lemma {:induction false} InsertDistinct(z: ZSet, e: Entry)
    requires Distinct(z) && e.member !in MemberSet(z)
    ensures Distinct(Insert(z, e))
  {
    if z == [] || Precedes(e, z[0]) {
      DistinctCons(e, z);
    } else {
      assert forall x :: x in z <==> x == z[0] || x in z[1..];
      assert z[0].member !in MemberSet(z[1..]);
      InsertDistinct(z[1..], e);
      InsertMembers(z[1..], e);
      DistinctCons(z[0], Insert(z[1..], e));
    }
  }

  /** What ZADD does to membership and length. */
  lemma ZAddMembers(z: ZSet, m: string, score: int)
    requires Distinct(z)
    ensures Distinct(ZAdd(z, m, score))
    ensures MemberSet(ZAdd(z, m, score)) == MemberSet(z) + {m}
    ensures |ZAdd(z, m, score)| == if m in MemberSet(z) then |z| else |z| + 1
  {
    WithoutDistinct(z, m);
    WithoutMembers(z, m);
    InsertDistinct(Without(z, m), Entry(m, score));
    InsertMembers(Without(z, m), Entry(m, score));
  }
}
