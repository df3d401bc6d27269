/**
 The parent of every collaborator session announced under one root. Ordinary
 activity between agents can name an ancestor where a child is expected;
 admitting such an edge would close a cycle and keep the root turn alive.
 */
module CodexTopology {
  import opened Options

  type Session = nat      // 0 stands for the empty session id

  const NO_SESSION: Session := 0

  type Parents = map<Session, Session>

  datatype Announcement = Announcement(parent: Session, session: Session)

  /** The ancestor `n` generations above a session, if there is one. */
  function Climb(parents: Parents, x: Session, n: nat): Option<Session>
    decreases n
  {
    if n == 0 then Some(x)
    else if x in parents then Climb(parents, parents[x], n - 1)
    else None
  }

  ghost predicate Above(parents: Parents, ancestor: Session, x: Session) {
    exists n: nat :: Climb(parents, x, n) == Some(ancestor)
  }

  ghost predicate OnCycle(parents: Parents, x: Session) {
    exists n: nat :: n > 0 && Climb(parents, x, n) == Some(x)
  }

  /** No session is its own proper ancestor, and the root is nobody's child. */
  ghost predicate Forest(root: Session, parents: Parents) {
    && root !in parents
    && NO_SESSION !in parents
    && forall x: Session :: !OnCycle(parents, x)
  }

  /** The announcements that are accepted: a known edge, or a new one that closes no cycle. */
  ghost predicate Admissible(root: Session, parents: Parents, a: Announcement) {
    && a.session != NO_SESSION && a.parent != NO_SESSION && a.session != root && a.session != a.parent
    && if a.session in parents then parents[a.session] == a.parent else !Above(parents, a.session, a.parent)
  }

  ghost function Admitted(root: Session, parents: Parents, a: Announcement): Parents {
    if Admissible(root, parents, a) then parents[a.session := a.parent] else parents
  }

  lemma {:induction false} ClimbAdds(p: Parents, x: Session, m: nat, n: nat)
    ensures Climb(p, x, m).Some? ==> Climb(p, x, m + n) == Climb(p, Climb(p, x, m).value, n)
    ensures Climb(p, x, m).None? ==> Climb(p, x, m + n).None?
    decreases m
  {
    if m > 0 && x in p { ClimbAdds(p, p[x], m - 1, n); }
  }

  /** Up to the first visit of the new child, both maps are climbed alike. */
  lemma {:induction false} ClimbAgrees(p: Parents, child: Session, parent: Session, x: Session, n: nat) returns (m: nat)
    requires child !in p
    ensures m <= n
    ensures m < n ==> Climb(p, x, m) == Some(child) && Climb(p[child := parent], x, m) == Some(child)
    ensures m == n ==> Climb(p[child := parent], x, n) == Climb(p, x, n)
    decreases n
  {
    if n == 0 || x == child || x !in p {
      m := if x == child then 0 else n;
    } else {
      m := ClimbAgrees(p, child, parent, p[x], n - 1);
      m := m + 1;
    }
  }

  lemma NewEdgeKeepsForest(root: Session, p: Parents, a: Announcement)
    requires Forest(root, p) && Admissible(root, p, a) && a.session !in p
    ensures Forest(root, p[a.session := a.parent])
  {
    var q, c := p[a.session := a.parent], a.session;
    forall x: Session
      ensures !OnCycle(q, x)
    {
      if OnCycle(q, x) {
        var n: nat :| n > 0 && Climb(q, x, n) == Some(x);
        var m := ClimbAgrees(p, c, a.parent, x, n);
        assert m < n by { assert !OnCycle(p, x); }
        ClimbAdds(q, x, m, n - m);
        ClimbAdds(q, c, n - m, m);
        assert Climb(q, c, n) == Some(c);
        assert Climb(q, a.parent, n - 1) == Some(c);
        var k := ClimbAgrees(p, c, a.parent, a.parent, n - 1);
        assert Climb(p, a.parent, k) == Some(c);
      }
    }
  }

  lemma RejectedEdgeClosesACycle(p: Parents, child: Session, parent: Session)
    requires child !in p && Above(p, child, parent)
    ensures OnCycle(p[child := parent], child)
  {
    var n: nat :| Climb(p, parent, n) == Some(child);
    var m := ClimbAgrees(p, child, parent, parent, n);
    assert Climb(p[child := parent], child, m + 1) == Some(child);
  }

  /** Exactness: an announcement that names real sessions is accepted if and only if the edge
      contradicts no known parent and leaves a forest. */
  lemma AdmissibleExactly(root: Session, p: Parents, a: Announcement)
    requires Forest(root, p) && a.parent != NO_SESSION
    ensures Admissible(root, p, a) <==>
            (a.session in p ==> p[a.session] == a.parent) && Forest(root, p[a.session := a.parent])
  {
    var q := p[a.session := a.parent];
    if a.session in p {
      if p[a.session] == a.parent {
        assert q == p;
        assert Climb(p, a.session, 1) == Climb(p, a.parent, 0);
        assert !OnCycle(p, a.session);
      }
    } else if Admissible(root, p, a) {
      NewEdgeKeepsForest(root, p, a);
    } else if Above(p, a.session, a.parent) {
      RejectedEdgeClosesACycle(p, a.session, a.parent);
    } else if a.session == a.parent {
      assert Climb(q, a.session, 1) == Climb(q, a.parent, 0);
      assert OnCycle(q, a.session);
    }
  }

  lemma {:induction false} AdmittedKeepsForest(root: Session, p: Parents, a: Announcement)
    requires Forest(root, p)
    ensures Forest(root, Admitted(root, p, a))
    ensures forall x | x in p :: x in Admitted(root, p, a) && Admitted(root, p, a)[x] == p[x]
  {
    if Admissible(root, p, a) {
      if a.session in p {
        assert p[a.session := a.parent] == p;
      } else {
        NewEdgeKeepsForest(root, p, a);
      }
    }
  }

  ghost function Topology(root: Session, announcements: seq<Announcement>): Parents {
    if announcements == [] then map[]
    else
      var n := |announcements| - 1;
      Admitted(root, Topology(root, announcements[..n]), announcements[n])
  }

  /** Whatever is announced under a root, the parents form a forest. */
  lemma {:induction false} StaysForest(root: Session, announcements: seq<Announcement>)
    ensures Forest(root, Topology(root, announcements))
    decreases |announcements|
  {
    if announcements != [] {
      var n := |announcements| - 1;
      StaysForest(root, announcements[..n]);
      hide Forest, Admitted;
      AdmittedKeepsForest(root, Topology(root, announcements[..n]), announcements[n]);
    }
  }

  /** A session is never given another parent, however long the run goes on. */
  lemma {:induction false} NeverReparents(root: Session, announcements: seq<Announcement>, n: nat, x: Session)
    requires n <= |announcements| && x in Topology(root, announcements[..n])
    ensures x in Topology(root, announcements)
    ensures Topology(root, announcements)[x] == Topology(root, announcements[..n])[x]
    decreases |announcements|
  {
    var last := |announcements| - 1;
    if n == |announcements| {
      assert announcements[..n] == announcements;
    } else {
      assert announcements[..last][..n] == announcements[..n];
      NeverReparents(root, announcements[..last], n, x);
      StaysForest(root, announcements[..last]);
      AdmittedKeepsForest(root, Topology(root, announcements[..last]), announcements[last]);
    }
  }

  /** The ancestors met on a walk are all different, so a revisit never happens. */
  lemma AncestorsNeverRepeat(root: Session, p: Parents, x: Session, i: nat, j: nat)
    requires Forest(root, p) && i < j && Climb(p, x, j).Some?
    ensures Climb(p, x, i).Some? && Climb(p, x, i) != Climb(p, x, j)
  {
    ClimbAdds(p, x, i, j - i);
    assert !OnCycle(p, Climb(p, x, i).value);
  }

  class CollaboratorTopology {
    var parents: Parents

    constructor ()
      ensures parents == map[]
      ensures forall root :: Forest(root, parents)
    {
      parents := map[];
    }

    /** Walk the ancestors of the announced parent. The walk stops at a revisited session
        only to be certain to end; the invariant shows it never meets one. */
    method Admit(root: Session, parent: Session, session: Session) returns (admitted: bool)
      requires Forest(root, parents)
      modifies this
      ensures admitted == Admissible(root, old(parents), Announcement(parent, session))
      ensures parents == Admitted(root, old(parents), Announcement(parent, session))
      ensures Forest(root, parents)
    {
      AdmittedKeepsForest(root, parents, Announcement(parent, session));
      if session == NO_SESSION || parent == NO_SESSION || session == root || session == parent {
        return false;
      }
      if session in parents {
        assert parents[session := parents[session]] == parents;
        return parents[session] == parent;
      }
      var ancestor, visited := parent, {};
      ghost var n: nat := 0;
      while ancestor != session && ancestor != root && ancestor !in visited && ancestor in parents
        invariant parents == old(parents)
        invariant Climb(parents, parent, n) == Some(ancestor)
        invariant forall v | v in visited :: v in parents && v != session
        invariant forall v | v in visited :: exists i: nat :: i < n && Climb(parents, parent, i) == Some(v)
        invariant forall i: nat | i < n :: Climb(parents, parent, i).Some? && Climb(parents, parent, i).value in visited
        invariant ancestor !in visited
        decreases parents.Keys - visited
      {
        visited := visited + {ancestor};
        ClimbAdds(parents, parent, n, 1);
        ancestor := parents[ancestor];
        n := n + 1;
        forall i: nat | i < n
          ensures Climb(parents, parent, i) != Some(ancestor)
        {
          AncestorsNeverRepeat(root, parents, parent, i, n);
        }
      }
      if ancestor == session || (ancestor != root && ancestor in visited) {
        return false;
      }
      forall k: nat
        ensures Climb(parents, parent, k) != Some(session)
      {
        if k > n { ClimbAdds(parents, parent, n, k - n); }
      }
      parents := parents[session := parent];
      admitted := true;
    }
  }
}
