/** Deleting several dropped sockets at once, for the traversal that deletes them one by one. */
module Sweeping {
  import opened Commands
  import opened Ledgers

  function Without(q: seq<SocketId>, gone: set<SocketId>): (r: seq<SocketId>)
    ensures forall s :: s in r <==> s in q && s !in gone
  {
    if q == [] then [] else
      var rest := Without(q[1..], gone);
      if q[0] in gone then rest else [q[0]] + rest
  }

  function DescriptorsOf(l: Ledger, gone: set<SocketId>): set<int> {
    set s | s in gone && s in l.fds :: l.fds[s]
  }

  /** The ledger once the clients of all the dropped sockets in `gone` have closed. */
  function Sweep(l: Ledger, gone: set<SocketId>): Ledger {
    l.(dropped := Without(l.dropped, gone), fds := l.fds - gone, registered := l.registered - DescriptorsOf(l, gone),
       place := map s | s in l.place :: if s in gone then Deleted else l.place[s])
  }

  lemma SweepDropped(l: Ledger, gone: set<SocketId>)
    ensures forall s :: s in Sweep(l, gone).dropped <==> s in l.dropped && s !in gone
    ensures Sweep(l, gone).fds == l.fds - gone
  {
  }

  lemma {:induction false} WithoutAppend(p: seq<SocketId>, q: seq<SocketId>, gone: set<SocketId>)
    ensures Without(p + q, gone) == Without(p, gone) + Without(q, gone)
  {
    if p == [] {
      assert p + q == q;
    } else {
      assert (p + q)[0] == p[0] && (p + q)[1..] == p[1..] + q;
      WithoutAppend(p[1..], q, gone);
      AddFirst([p[0]], Without(p[1..], gone), Without(q, gone));
    }
  }

  lemma AddFirst(a: seq<SocketId>, b: seq<SocketId>, c: seq<SocketId>)
    ensures a + (b + c) == (a + b) + c
  {
  }

  lemma {:induction false} WithoutNone(q: seq<SocketId>, gone: set<SocketId>)
    requires forall s <- q :: s !in gone
    ensures Without(q, gone) == q
  {
    if q != [] {
      WithoutNone(q[1..], gone);
    }
  }

  lemma {:induction false} WithoutMore(q: seq<SocketId>, gone: set<SocketId>, s: SocketId)
    requires s !in q
    ensures Without(q, gone + {s}) == Without(q, gone)
  {
    if q != [] {
      WithoutMore(q[1..], gone, s);
    }
  }

  /** A socket that stays keeps its place among those that stay. */
  lemma WithoutKept(p: seq<SocketId>, s: SocketId, q: seq<SocketId>, gone: set<SocketId>)
    requires s !in gone && forall t <- q :: t !in gone
    ensures Without(p + [s], gone) == Without(p, gone) + [s]
    ensures Without(p + [s] + q, gone) == Without(p, gone) + [s] + q
  {
    WithoutAppend(p, [s], gone);
    WithoutAppend(p + [s], q, gone);
    WithoutNone(q, gone);
  }

  lemma WithoutLost(p: seq<SocketId>, s: SocketId, q: seq<SocketId>, gone: set<SocketId>)
    requires s !in p && s !in q && forall t <- q :: t !in gone
    ensures Without(p + [s], gone + {s}) == Without(p, gone)
    ensures Without(p + [s] + q, gone + {s}) == Without(p, gone) + q
  {
    WithoutMore(p, gone, s);
    WithoutAppend(p, [s], gone + {s});
    WithoutAppend(p + [s], q, gone + {s});
    WithoutNone(q, gone + {s});
  }

  lemma SweepNone(l: Ledger)
    ensures Sweep(l, {}) == l
  {
    WithoutNone(l.dropped, {});
    assert DescriptorsOf(l, {}) == {};
    assert Sweep(l, {}).place == l.place && Sweep(l, {}).fds == l.fds;
  }

  lemma SweepMaps(l: Ledger, s: SocketId, gone: set<SocketId>)
    requires s in l.fds && s in l.place
    ensures Sweep(l, gone).fds - {s} == Sweep(l, gone + {s}).fds
    ensures Sweep(l, gone).registered - {l.fds[s]} == Sweep(l, gone + {s}).registered
    ensures Sweep(l, gone).place[s := Deleted] == Sweep(l, gone + {s}).place
  {
    assert DescriptorsOf(l, gone + {s}) == DescriptorsOf(l, gone) + {l.fds[s]};
  }

  /** One more deletion. `p` is visited, `s` is next. */
  lemma SweepOne(l: Ledger, p: seq<SocketId>, s: SocketId, q: seq<SocketId>, gone: set<SocketId>)
    requires Distinct(l.dropped) && l.dropped == p + [s] + q && forall t <- gone :: t in p
    requires s in l.fds && s in l.place
    ensures var i := |Without(p, gone)|;
            && i < |Sweep(l, gone).dropped| && Sweep(l, gone).dropped[i] == s
            && s in Sweep(l, gone).fds
            && Delete(Sweep(l, gone), i) == Sweep(l, gone + {s})
  {
    DistinctParts(p, s, q);
    WithoutKept(p, s, q, gone);
    WithoutLost(p, s, q, gone);
    SweepMaps(l, s, gone);
    EraseMiddle(Without(p, gone), s, q);
  }

  lemma EraseMiddle(p: seq<SocketId>, s: SocketId, q: seq<SocketId>)
    ensures var all := p + [s] + q; all[|p|] == s && all[..|p|] + all[|p| + 1..] == p + q
  {
    var all := p + [s] + q;
    assert all[..|p|] == p && all[|p| + 1..] == q;
  }

  /** Those of the first `k` dropped sockets whose client has closed. */
  function Visited(l: Ledger, closed: set<SocketId>, k: nat): set<SocketId>
    requires k <= |l.dropped|
  {
    set s | s in l.dropped[..k] && s in closed
  }

  /** Where the traversal is after `k` turns. */
  function Position(l: Ledger, closed: set<SocketId>, k: nat): nat
    requires k <= |l.dropped|
  {
    |Without(l.dropped[..k], Visited(l, closed, k))|
  }

  /** One turn of the traversal, on the k-th socket. */
  lemma SweepTurn(l: Ledger, closed: set<SocketId>, k: nat)
    requires Distinct(l.dropped) && k < |l.dropped| && l.dropped[k] in l.fds && l.dropped[k] in l.place
    ensures var now, i, s := Sweep(l, Visited(l, closed, k)), Position(l, closed, k), l.dropped[k];
            && i < |now.dropped| && now.dropped[i] == s && s in now.fds && s in now.place
            && (if s in closed then
                  Delete(now, i) == Sweep(l, Visited(l, closed, k + 1)) && Position(l, closed, k + 1) == i
                else
                  now == Sweep(l, Visited(l, closed, k + 1)) && Position(l, closed, k + 1) == i + 1)
  {
    var p, s, q, gone := l.dropped[..k], l.dropped[k], l.dropped[k + 1..], Visited(l, closed, k);
    assert l.dropped == p + [s] + q && l.dropped[..k + 1] == p + [s];
    SweepOne(l, p, s, q, gone);
    DistinctParts(p, s, q);
    assert Visited(l, closed, k + 1) == if s in closed then gone + {s} else gone;
    if s in closed {
      WithoutLost(p, s, q, gone);
    } else {
      WithoutKept(p, s, q, gone);
    }
  }

  lemma SweepStart(l: Ledger, closed: set<SocketId>)
    ensures Sweep(l, Visited(l, closed, 0)) == l && Position(l, closed, 0) == 0
  {
    assert Visited(l, closed, 0) == {};
    SweepNone(l);
  }

  /** The traversal ends after the last socket, and not before. */
  lemma SweepEnd(l: Ledger, closed: set<SocketId>, k: nat)
    requires k <= |l.dropped| && forall s <- closed :: s in l.dropped
    requires Position(l, closed, k) >= |Sweep(l, Visited(l, closed, k)).dropped|
    requires Distinct(l.dropped) && forall s <- l.dropped :: s in l.fds && s in l.place
    ensures k == |l.dropped| && Visited(l, closed, k) == closed
  {
    if k < |l.dropped| {
      SweepTurn(l, closed, k);
    }
    assert l.dropped[..|l.dropped|] == l.dropped;
  }

  lemma SweepGoesOn(l: Ledger, closed: set<SocketId>, k: nat)
    requires k <= |l.dropped|
    requires Position(l, closed, k) < |Sweep(l, Visited(l, closed, k)).dropped|
    ensures k < |l.dropped|
  {
    assert l.dropped[..|l.dropped|] == l.dropped;
  }

  /** A traversal keeps the ledger. */
  lemma {:induction false} SweepKeepsOk(l: Ledger, closed: set<SocketId>, k: nat, signalFd: int, listenerFd: int)
    requires LedgerOk(l, signalFd, listenerFd) && k <= |l.dropped|
    ensures LedgerOk(Sweep(l, Visited(l, closed, k)), signalFd, listenerFd)
  {
    SweepStart(l, closed);
    if k > 0 {
      SweepKeepsOk(l, closed, k - 1, signalFd, listenerFd);
      assert At(l, l.dropped[k - 1], Dropped);
      SweepTurn(l, closed, k - 1);
      if l.dropped[k - 1] in closed {
        DeleteKeepsOk(Sweep(l, Visited(l, closed, k - 1)), Position(l, closed, k - 1), signalFd, listenerFd);
      }
    }
  }

  lemma DistinctParts(p: seq<SocketId>, s: SocketId, q: seq<SocketId>)
    requires Distinct(p + [s] + q)
    ensures s !in p && s !in q && forall t <- q :: t !in p
  {
    var all := p + [s] + q;
    assert all[|p|] == s;
    assert forall i | 0 <= i < |p| :: all[i] == p[i];
    assert forall i | 0 <= i < |q| :: all[|p| + 1 + i] == q[i];
  }
}
