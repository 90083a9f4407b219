// The chain of replaced takeovers behind a live board, and the walk that finds the one to restore.
module Lineage {
  import opened Base
  import opened Rows
  import opened Takeovers
  import opened GameInvariant

  /** A path that follows previous-bid links from its first takeover to its last. */
  ghost predicate IsLineage(g: Game, path: seq<BidId>) {
    && |path| > 0
    && (forall i | 0 <= i < |path| :: path[i] in g.takeovers)
    && (forall i | 0 <= i < |path| - 1 :: g.takeovers[path[i]].previous == Some(path[i + 1]))
  }

  /** `path` leads from `bid` to its nearest ancestor that has not been removed. */
  ghost predicate LeadsToNearest(g: Game, bid: BidId, path: seq<BidId>, ancestor: BidId) {
    && IsLineage(g, path) && |path| >= 2
    && path[0] == bid && path[|path| - 1] == ancestor && !IsRemoved(g, ancestor)
    && (forall i | 0 < i < |path| - 1 :: IsRemoved(g, path[i]))
  }

  ghost predicate IsNearest(g: Game, bid: BidId, ancestor: BidId) {
    exists path {:trigger LeadsToNearest(g, bid, path, ancestor)} :: LeadsToNearest(g, bid, path, ancestor)
  }

  /** Everything already visited was worth at least as much as the takeover the walk stands on. */
  ghost predicate VisitedAbove(g: Game, at: BidId, visited: set<BidId>)
    requires at in g.takeovers
  {
    forall v | v in visited :: v in g.takeovers && g.takeovers[at].amount <= g.takeovers[v].amount
  }

  lemma {:induction false} WalkIsSound(inc: nat, g: Game, at: BidId, visited: set<BidId>)
    requires inc > 0 && GameInv(inc, g) && at in g.takeovers && VisitedAbove(g, at, visited)
    ensures var prior := PriorFrom(g, g.takeovers[at].previous, visited);
            prior.Some? ==> IsNearest(g, at, prior.value)
    decreases g.takeovers[at].amount
  {
    assert TakeoverOk(inc, g, at);
    var next := g.takeovers[at].previous;
    var prior := PriorFrom(g, next, visited);
    if prior.Some? {
      if !IsRemoved(g, next.value) {
        assert LeadsToNearest(g, at, [at, next.value], prior.value);
      } else {
        WalkIsSound(inc, g, next.value, visited + {next.value});
        var path :| LeadsToNearest(g, next.value, path, prior.value);
        assert LeadsToNearest(g, at, [at] + path, prior.value);
      }
    }
  }

  lemma {:induction false} WalkIsComplete(inc: nat, g: Game, path: seq<BidId>, ancestor: BidId, visited: set<BidId>)
    requires inc > 0 && GameInv(inc, g) && |path| > 0 && LeadsToNearest(g, path[0], path, ancestor)
    requires VisitedAbove(g, path[0], visited)
    ensures PriorFrom(g, g.takeovers[path[0]].previous, visited) == Some(ancestor)
    decreases |path|
  {
    assert TakeoverOk(inc, g, path[0]);
    assert g.takeovers[path[0]].previous == Some(path[1]);
    if |path| > 2 {
      assert LeadsToNearest(g, path[1], path[1..], ancestor);
      WalkIsComplete(inc, g, path[1..], ancestor, visited + {path[1]});
    }
  }

  /**
   The walk returns a takeover exactly when it is the nearest non-removed ancestor. In particular the
   cycle guard and the missing-row exit never cut a walk short.
   */
  lemma WalkFindsNearest(inc: nat, g: Game, bid: BidId, ancestor: BidId)
    requires inc > 0 && GameInv(inc, g) && bid in g.takeovers
    ensures PriorNonRemoved(g, bid) == Some(ancestor) <==> IsNearest(g, bid, ancestor)
  {
    WalkIsSound(inc, g, bid, {bid});
    if IsNearest(g, bid, ancestor) {
      var path :| LeadsToNearest(g, bid, path, ancestor);
      WalkIsComplete(inc, g, path, ancestor, {bid});
    }
  }

  /** The restored takeover is an older, cheaper one on the same board, whose delivery had already ended. */
  lemma {:induction false} NearestIsOlder(inc: nat, g: Game, bid: BidId, path: seq<BidId>, ancestor: BidId)
    requires GameInv(inc, g) && LeadsToNearest(g, bid, path, ancestor)
    ensures bid in g.takeovers && ancestor in g.takeovers
    ensures g.takeovers[ancestor].board == g.takeovers[bid].board
    ensures g.takeovers[ancestor].amount + inc <= g.takeovers[bid].amount
    ensures ancestor in g.evidence ==> g.evidence[ancestor].endedAt.Some?
    decreases |path|
  {
    assert TakeoverOk(inc, g, bid);
    assert g.takeovers[bid].previous == Some(path[1]);
    if |path| > 2 {
      assert LeadsToNearest(g, path[1], path[1..], ancestor);
      NearestIsOlder(inc, g, path[1], path[1..], ancestor);
    }
  }

  lemma PriorIsOlder(inc: nat, g: Game, bid: BidId)
    requires inc > 0 && GameInv(inc, g) && bid in g.takeovers && PriorNonRemoved(g, bid).Some?
    ensures var p := PriorNonRemoved(g, bid).value;
            && p in g.takeovers && !IsRemoved(g, p)
            && g.takeovers[p].board == g.takeovers[bid].board
            && g.takeovers[p].amount + inc <= g.takeovers[bid].amount
            && (p in g.evidence ==> g.evidence[p].endedAt.Some?)
  {
    var p := PriorNonRemoved(g, bid).value;
    WalkFindsNearest(inc, g, bid, p);
    var path :| LeadsToNearest(g, bid, path, p);
    NearestIsOlder(inc, g, bid, path, p);
  }
}
