/** The "sending to" graph: every process has at most one outgoing edge, to the
    process it is blocked on. */
module IpcGraph {

  datatype Edge = Nobody | To(pid: nat)

  type Graph = seq<Edge>

  /** Following `k` edges from `a` leads to `b`. */
  ghost predicate Leads(g: Graph, a: nat, b: nat, k: nat)
    decreases k
  {
    && a < |g| && g[a].To? && k > 0
    && (if k == 1 then g[a].pid == b else Leads(g, g[a].pid, b, k - 1))
  }

  ghost predicate Reaches(g: Graph, a: nat, b: nat) {
    exists k: nat :: Leads(g, a, b, k)
  }

  /** The chain from `x` comes to a process that is not sending within `k` steps. */
  ghost predicate Ends(g: Graph, x: nat, k: nat)
    decreases k
  {
    x < |g| && (g[x].Nobody? || (k > 0 && Ends(g, g[x].pid, k - 1)))
  }

  ghost predicate Finite(g: Graph, x: nat) {
    exists k: nat :: Ends(g, x, k)
  }

  /** Every chain ends. */
  ghost predicate Acyclic(g: Graph) {
    forall x: nat :: x < |g| ==> Finite(g, x)
  }

  lemma {:induction false} EndsMore(g: Graph, x: nat, k: nat, m: nat)
    requires Ends(g, x, k) && k <= m
    ensures Ends(g, x, m)
    decreases k
  {
    if g[x].To? { EndsMore(g, g[x].pid, k - 1, m - 1); }
  }

  lemma {:induction false} EndsLater(g: Graph, a: nat, b: nat, k: nat, m: nat)
    requires Leads(g, a, b, k) && Ends(g, a, m)
    ensures k <= m && Ends(g, b, m - k)
    decreases k
  {
    if k > 1 { EndsLater(g, g[a].pid, b, k - 1, m - 1); }
  }

  /** No chain that ends runs in a circle. */
  lemma {:induction false} NoCircle(g: Graph, x: nat, k: nat, m: nat)
    requires Ends(g, x, m)
    ensures !Leads(g, x, x, k)
    decreases m
  {
    if Leads(g, x, x, k) {
      EndsLater(g, x, x, k, m);
      NoCircle(g, x, k, m - k);
    }
  }

  lemma AcyclicHasNoCycle(g: Graph)
    requires Acyclic(g)
    ensures forall x: nat :: !Reaches(g, x, x)
  {
    forall x: nat, k: nat ensures !Leads(g, x, x, k) {
      if x < |g| {
        assert Finite(g, x);
        var m: nat :| Ends(g, x, m);
        NoCircle(g, x, k, m);
      }
    }
  }

  lemma {:induction false} ReachStep(g: Graph, a: nat, b: nat)
    requires a < |g| && g[a].To?
    ensures Reaches(g, a, b) <==> g[a].pid == b || Reaches(g, g[a].pid, b)
  {
    if Reaches(g, a, b) {
      var k: nat :| Leads(g, a, b, k);
      if k > 1 { assert Leads(g, g[a].pid, b, k - 1); }
    }
    if g[a].pid == b { assert Leads(g, a, b, 1); }
    if Reaches(g, g[a].pid, b) {
      var k: nat :| Leads(g, g[a].pid, b, k);
      assert Leads(g, a, b, k + 1);
    }
  }

  // ---------- a new edge ----------

  /** A chain that never comes to `p` does not notice the edge out of `p`. */
  lemma {:induction false} EndsBeside(g: Graph, p: nat, r: nat, x: nat, k: nat)
    requires p < |g| && Ends(g, x, k) && x != p && !Reaches(g, x, p)
    ensures Ends(g[p := To(r)], x, k)
    decreases k
  {
    if g[x].To? {
      ReachStep(g, x, p);
      EndsBeside(g, p, r, g[x].pid, k - 1);
    }
  }

  lemma {:induction false} EndsThrough(g: Graph, p: nat, r: nat, x: nat, k: nat, m: nat)
    requires p < |g| && Ends(g, x, k) && Ends(g[p := To(r)], p, m)
    ensures Ends(g[p := To(r)], x, k + m)
    decreases k
  {
    var h := g[p := To(r)];
    if x == p {
      EndsMore(h, p, m, k + m);
    } else if g[x].To? {
      EndsThrough(g, p, r, g[x].pid, k - 1, m);
    }
  }

  lemma {:induction false} LeadsBeside(g: Graph, p: nat, r: nat, x: nat, k: nat) returns (j: nat)
    requires p < |g| && x != p && Leads(g, x, p, k)
    ensures Leads(g[p := To(r)], x, p, j)
    decreases k
  {
    if k == 1 || g[x].pid == p {
      j := 1;
    } else {
      j := LeadsBeside(g, p, r, g[x].pid, k - 1);
      j := j + 1;
    }
  }

  /** Blocking an idle `p` on `r` keeps every chain finite exactly when the chain
      from `r` does not come to `p`. */
  lemma NewEdge(g: Graph, p: nat, r: nat)
    requires Acyclic(g) && p < |g| && r < |g| && p != r && g[p].Nobody?
    ensures Acyclic(g[p := To(r)]) <==> !Reaches(g, r, p)
  {
    var h := g[p := To(r)];
    if Reaches(g, r, p) {
      var k: nat :| Leads(g, r, p, k);
      var j := LeadsBeside(g, p, r, r, k);
      assert Leads(h, p, p, j + 1);
      assert Reaches(h, p, p);
      if Acyclic(h) { AcyclicHasNoCycle(h); }
    } else {
      assert Finite(g, r);
      var k: nat :| Ends(g, r, k);
      EndsBeside(g, p, r, r, k);
      assert Ends(h, p, k + 1);
      forall x: nat | x < |h| ensures Finite(h, x) {
        assert Finite(g, x);
        var m: nat :| Ends(g, x, m);
        EndsThrough(g, p, r, x, m, k + 1);
      }
    }
  }

  lemma {:induction false} EndsWithout(g: Graph, p: nat, x: nat, k: nat)
    requires p < |g| && Ends(g, x, k)
    ensures Ends(g[p := Nobody], x, k)
    decreases k
  {
    if x != p && g[x].To? { EndsWithout(g, p, g[x].pid, k - 1); }
  }

  lemma EdgeGone(g: Graph, p: nat)
    requires Acyclic(g) && p < |g|
    ensures Acyclic(g[p := Nobody])
  {
    var h := g[p := Nobody];
    forall x: nat | x < |h| ensures Finite(h, x) {
      assert Finite(g, x);
      var k: nat :| Ends(g, x, k);
      EndsWithout(g, p, x, k);
    }
  }
}
