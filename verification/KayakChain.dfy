// What the hash links of a kayak log guarantee (kayak/types.go, kayak/twopc_runner.go).

module KayakChain {
  import opened Common
  import opened KayakLog
  import opened KayakNode

  // The entry at position i has the right index, a correct hash, and names the hash before it.
  ghost predicate ChainAt(digest: Digest, log: seq<Log>, i: nat)
    requires i < |log|
  {
    && log[i].index == i + 1
    && VerifyHash(digest, log[i])
    && log[i].lastHash == (if i == 0 then None else Some(log[i - 1].hash))
  }

  ghost predicate IsChain(digest: Digest, log: seq<Log>) {
    forall i: nat :: i < |log| ==> ChainAt(digest, log, i)
  }

  ghost predicate HasCollision(digest: Digest, a: seq<Log>, b: seq<Log>) {
    exists i, j :: 0 <= i < |a| && 0 <= j < |b| && Collision(digest, Serialize(a[i]), Serialize(b[j]))
  }

  lemma CommittedIsChain(digest: Digest, s: NodeState)
    requires Safe(digest, s) && Linked(s.store)
    ensures IsChain(digest, Committed(s))
  {
    var log := Committed(s);
    forall i: nat | i < |log|
      ensures ChainAt(digest, log, i)
    {
      var k: uint64 := i + 1;
      assert log[i] == s.store[k];
      if i > 0 {
        assert (k - 1) in s.store && log[i - 1] == s.store[k - 1];
      }
    }
  }

  lemma PrefixIsChain(digest: Digest, log: seq<Log>, n: nat)
    requires IsChain(digest, log) && n <= |log|
    ensures IsChain(digest, log[..n])
  {
    forall i: nat | i < n
      ensures ChainAt(digest, log[..n], i)
    {
      assert ChainAt(digest, log, i);
    }
  }

  lemma CollisionInPrefix(digest: Digest, a: seq<Log>, b: seq<Log>, n: nat, m: nat)
    requires n <= |a| && m <= |b| && HasCollision(digest, a[..n], b[..m])
    ensures HasCollision(digest, a, b)
  {
    var i, j :| 0 <= i < n && 0 <= j < m && Collision(digest, Serialize(a[..n][i]), Serialize(b[..m][j]));
    assert Collision(digest, Serialize(a[i]), Serialize(b[j]));
  }

  // Two chains whose last entries carry the same hash are equal, entry by entry back to the
  // first, unless they contain two entries on which the digest collides.
  lemma {:induction false} EqualLastHash(digest: Digest, a: seq<Log>, b: seq<Log>)
    requires IsChain(digest, a) && IsChain(digest, b) && a != [] && b != []
    requires a[|a| - 1].hash == b[|b| - 1].hash
    ensures a == b || HasCollision(digest, a, b)
  {
    var n, m := |a| - 1, |b| - 1;
    assert ChainAt(digest, a, n) && ChainAt(digest, b, m);
    if Serialize(a[n]) != Serialize(b[m]) {
      assert Collision(digest, Serialize(a[n]), Serialize(b[m]));
    } else {
      SerializeInjective(a[n], b[m]);
      assert a == a[..n] + [a[n]] && b == b[..n] + [b[n]];
      if n > 0 {
        PrefixIsChain(digest, a, n);
        PrefixIsChain(digest, b, n);
        EqualLastHash(digest, a[..n], b[..n]);
        if HasCollision(digest, a[..n], b[..n]) {
          CollisionInPrefix(digest, a, b, n, n);
        }
      }
    }
  }

  // Nodes that agree on their last log hash agree on their whole committed log.
  lemma SameHeadSameLog(digest: Digest, s: NodeState, t: NodeState)
    requires Safe(digest, s) && Linked(s.store) && Safe(digest, t) && Linked(t.store)
    requires s.head == t.head
    ensures Committed(s) == Committed(t) || HasCollision(digest, Committed(s), Committed(t))
  {
    CommittedIsChain(digest, s);
    CommittedIsChain(digest, t);
    if s.index > 0 {
      EqualLastHash(digest, Committed(s), Committed(t));
    }
  }

  // ----- why one node must not mix roles without truncating in between -----

  const WORKING := Io(true, true, true, true, true, true, true, true)

  function ToFollower(call: Call, l: Log): Step {
    Handle(Request(true, call, Some(l)), WORKING)
  }

  // An entry is left stranded: a follower prepares e1 and e2 and rolls back e1.
  lemma StrandedEntry(digest: Digest, e1: Log, e2: Log)
    requires e1.index == 1 && e1.lastHash.None? && VerifyHash(digest, e1)
    requires e2.index == 2 && e2.lastHash == Some(e1.hash) && VerifyHash(digest, e2)
    ensures var steps := [ToFollower(Prepare, e1), ToFollower(Prepare, e2), ToFollower(Rollback, e1)];
            PossibleRun(digest, FRESH, steps) && Run(digest, FRESH, steps) == FRESH.(store := map[2 := e2])
  {
    var s1 := FRESH.(store := map[1 := e1], phase := Prepared);
    var s2 := s1.(store := map[1 := e1, 2 := e2]);
    LastIndexIs(s1.store, 1);
    LastIndexIs(s2.store, 2);
    assert Apply(digest, FRESH, ToFollower(Prepare, e1)).0 == s1;
    assert Apply(digest, s1, ToFollower(Prepare, e2)).0 == s2;
    var s3 := Apply(digest, s2, ToFollower(Rollback, e1)).0;
    assert s3.store == map[2 := e2];
    RunThree(digest, FRESH, ToFollower(Prepare, e1), ToFollower(Prepare, e2), ToFollower(Rollback, e1));
  }

  // From there the node leads one round and follows again: it commits e2 right behind an entry
  // that e2 does not name.
  lemma MixedRolesBreakLinks(digest: Digest, e1: Log, e2: Log, e3: Log, b: Payload)
    requires e2.index == 2 && e2.lastHash == Some(e1.hash) && VerifyHash(digest, e2)
    requires e3.index == 3 && e3.lastHash == Some(e2.hash) && VerifyHash(digest, e3)
    requires Sealed(digest, 1, 0, b, None).hash != e1.hash
    ensures var s := FRESH.(store := map[2 := e2]);
            var steps := [Round(b, true, WORKING), ToFollower(Prepare, e3), ToFollower(Commit, e2)];
            var t := Run(digest, s, steps);
            && PossibleRun(digest, s, steps)
            && t.index == 2 && 1 in t.store && 2 in t.store
            && t.store[2].lastHash != Some(t.store[1].hash)
  {
    var s := FRESH.(store := map[2 := e2]);
    var lead := Sealed(digest, 1, 0, b, None);
    var s1 := s.(store := map[1 := lead, 2 := e2], persisted := 1, index := 1, head := Some(lead.hash));
    var s2 := s1.(store := map[1 := lead, 2 := e2, 3 := e3], phase := Prepared);
    LastIndexIs(s1.store, 2);
    LastIndexIs(s2.store, 3);
    assert Apply(digest, s, Round(b, true, WORKING)).0 == s1;
    assert Apply(digest, s1, ToFollower(Prepare, e3)).0 == s2;
    assert Apply(digest, s2, ToFollower(Commit, e2)).0.index == 2;
    RunThree(digest, s, Round(b, true, WORKING), ToFollower(Prepare, e3), ToFollower(Commit, e2));
  }

  lemma RunThree(digest: Digest, s: NodeState, x: Step, y: Step, z: Step)
    ensures var s1 := Apply(digest, s, x).0;
            var s2 := Apply(digest, s1, y).0;
            && Run(digest, s, [x, y, z]) == Apply(digest, s2, z).0
            && (PossibleRun(digest, s, [x, y, z])
                <==> Possible(digest, s, x) && Possible(digest, s1, y) && Possible(digest, s2, z))
  {
    var s1 := Apply(digest, s, x).0;
    var s2 := Apply(digest, s1, y).0;
    assert [x, y, z][1..] == [y, z] && [y, z][1..] == [z] && [z][1..] == [];
    assert Run(digest, s2, [z]) == Apply(digest, s2, z).0;
    assert Run(digest, s1, [y, z]) == Run(digest, s2, [z]);
    assert PossibleRun(digest, s2, [z]) <==> Possible(digest, s2, z);
    assert PossibleRun(digest, s1, [y, z]) <==> Possible(digest, s1, y) && PossibleRun(digest, s2, [z]);
  }
}
