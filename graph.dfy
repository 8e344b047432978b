/**
 * The meaning of the unification graph.
 *
 * The `instance` slots of all type variables form an arena `slots`, indexed
 * by variable id. A ghost `rank` orders the variables so that every variable
 * mentioned by a bound slot has a lower rank than the slot's own variable:
 * this is the acyclicity the occurs-check maintains, and it is what makes
 * following `instance` chains terminate.
 *
 * `Resolve` follows every chain to its end: it is the substitution the graph
 * currently denotes. `Preserves` says a graph change kept that substitution
 * (path compression, allocation); `Refines` says it only instantiated it
 * further (binding a variable).
 */
module Graph {
  import opened Types

  type Slots = seq<Option<Type>>

  /** Every variable of `t` has a rank, and that rank is below `r`. */
  predicate Below(rank: seq<nat>, t: Type, r: nat)
  {
    match t
    case TVar(i) => i < |rank| && rank[i] < r
    case TOp(_, args) => forall k :: 0 <= k < |args| ==> Below(rank, args[k], r)
  }

  /** The graph is acyclic, as witnessed by `rank`. */
  ghost predicate Ranked(slots: Slots, rank: seq<nat>)
  {
    && |rank| == |slots|
    && forall i :: 0 <= i < |slots| && slots[i].Some? ==> Below(rank, slots[i].value, rank[i])
  }

  /** A rank above every rank of the first `n` variables. */
  function TopOf(rank: seq<nat>, n: nat): (r: nat)
    requires n <= |rank|
    ensures forall i :: 0 <= i < n ==> rank[i] < r
  {
    if n == 0 then 0
    else
      var m := TopOf(rank, n - 1);
      if rank[n - 1] < m then m else rank[n - 1] + 1
  }

  function Top(rank: seq<nat>): (r: nat)
    ensures forall i :: 0 <= i < |rank| ==> rank[i] < r
  {
    TopOf(rank, |rank|)
  }

  lemma {:induction false} BelowMentions(rank: seq<nat>, t: Type, r: nat, u: nat)
    requires Below(rank, t, r) && Mentions(t, u)
    ensures u < |rank| && rank[u] < r
    decreases t
  {
    match t
    case TVar(_) =>
    case TOp(_, args) =>
      var k :| 0 <= k < |args| && Mentions(args[k], u);
      BelowMentions(rank, args[k], r, u);
  }

  lemma {:induction false} BelowFromMentions(rank: seq<nat>, t: Type, r: nat)
    requires forall u: nat :: Mentions(t, u) ==> u < |rank| && rank[u] < r
    ensures Below(rank, t, r)
    decreases t
  {
    match t
    case TVar(i) => assert Mentions(t, i);
    case TOp(_, args) =>
      forall k | 0 <= k < |args| ensures Below(rank, args[k], r) {
        forall u: nat | Mentions(args[k], u) ensures u < |rank| && rank[u] < r {
          assert Mentions(t, u);
        }
        BelowFromMentions(rank, args[k], r);
      }
  }

  lemma {:induction false} BelowBounded(rank: seq<nat>, t: Type, r: nat)
    requires Below(rank, t, r)
    ensures Bounded(t, |rank|)
    decreases t
  {
    match t
    case TVar(_) =>
    case TOp(_, args) =>
      forall k | 0 <= k < |args| ensures Bounded(args[k], |rank|) {
        BelowBounded(rank, args[k], r);
      }
  }

  lemma {:induction false} BoundedBelowTop(rank: seq<nat>, t: Type)
    requires Bounded(t, |rank|)
    ensures Below(rank, t, Top(rank))
    decreases t
  {
    match t
    case TVar(_) =>
    case TOp(_, args) =>
      forall k | 0 <= k < |args| ensures Below(rank, args[k], Top(rank)) {
        BoundedBelowTop(rank, args[k]);
      }
  }

  /** `rank2` agrees with `rank` on every variable of `t`. */
  lemma {:induction false} BelowTransfer(rank: seq<nat>, rank2: seq<nat>, t: Type, r: nat)
    requires Below(rank, t, r) && |rank| <= |rank2|
    requires forall i :: 0 <= i < |rank| ==> rank2[i] == rank[i]
    ensures Below(rank2, t, r)
    decreases t
  {
    match t
    case TVar(_) =>
    case TOp(_, args) =>
      forall k | 0 <= k < |args| ensures Below(rank2, args[k], r) {
        BelowTransfer(rank, rank2, args[k], r);
      }
  }

  lemma {:induction false} MentionsBounded(t: Type, n: nat, u: nat)
    requires Bounded(t, n) && Mentions(t, u)
    ensures u < n
    decreases t
  {
    match t
    case TVar(_) =>
    case TOp(_, args) =>
      var k :| 0 <= k < |args| && Mentions(args[k], u);
      MentionsBounded(args[k], n, u);
  }

  // ---------------------------------------------------------------------
  // Resolution

  ghost function ResolveBelow(slots: Slots, rank: seq<nat>, t: Type, r: nat): Type
    requires Ranked(slots, rank) && Below(rank, t, r)
    decreases r, t
  {
    match t
    case TVar(i) =>
      if slots[i].Some? then ResolveBelow(slots, rank, slots[i].value, rank[i]) else t
    case TOp(n, args) =>
      TOp(n, seq(|args|, k requires 0 <= k < |args| => ResolveBelow(slots, rank, args[k], r)))
  }

  /** The type `t` denotes once every bound variable is replaced by its instance. */
  ghost function Resolve(slots: Slots, rank: seq<nat>, t: Type): (res: Type)
    requires Ranked(slots, rank) && Bounded(t, |slots|)
    ensures Bounded(res, |slots|) && Solved(slots, res)
  {
    BoundedBelowTop(rank, t);
    ResolveBelowSolved(slots, rank, t, Top(rank));
    ResolveBelow(slots, rank, t, Top(rank))
  }

  ghost function ResolveAll(slots: Slots, rank: seq<nat>, ts: seq<Type>): seq<Type>
    requires Ranked(slots, rank) && AllBounded(ts, |slots|)
  {
    seq(|ts|, k requires 0 <= k < |ts| => Resolve(slots, rank, ts[k]))
  }

  /** Every variable of `t` is unbound: `t` is fully resolved. */
  predicate Solved(slots: Slots, t: Type)
  {
    match t
    case TVar(i) => i < |slots| && slots[i].None?
    case TOp(_, args) => forall k :: 0 <= k < |args| ==> Solved(slots, args[k])
  }

  lemma {:induction false} ResolveBelowAny(slots: Slots, rank: seq<nat>, t: Type, r1: nat, r2: nat)
    requires Ranked(slots, rank) && Below(rank, t, r1) && Below(rank, t, r2)
    ensures ResolveBelow(slots, rank, t, r1) == ResolveBelow(slots, rank, t, r2)
    decreases t
  {
    match t
    case TVar(_) =>
    case TOp(n, args) =>
      forall k | 0 <= k < |args|
        ensures ResolveBelow(slots, rank, args[k], r1) == ResolveBelow(slots, rank, args[k], r2)
      {
        ResolveBelowAny(slots, rank, args[k], r1, r2);
      }
  }

  lemma ResolveIsBelow(slots: Slots, rank: seq<nat>, t: Type, r: nat)
    requires Ranked(slots, rank) && Below(rank, t, r)
    ensures Bounded(t, |slots|)
    ensures Resolve(slots, rank, t) == ResolveBelow(slots, rank, t, r)
  {
    BelowBounded(rank, t, r);
    BoundedBelowTop(rank, t);
    ResolveBelowAny(slots, rank, t, r, Top(rank));
  }

  lemma ResolveFree(slots: Slots, rank: seq<nat>, i: nat)
    requires Ranked(slots, rank) && i < |slots| && slots[i].None?
    ensures Resolve(slots, rank, TVar(i)) == TVar(i)
  {
  }

  lemma ResolveBound(slots: Slots, rank: seq<nat>, i: nat)
    requires Ranked(slots, rank) && i < |slots| && slots[i].Some?
    ensures Bounded(slots[i].value, |slots|)
    ensures Resolve(slots, rank, TVar(i)) == Resolve(slots, rank, slots[i].value)
  {
    ResolveIsBelow(slots, rank, slots[i].value, rank[i]);
  }

  lemma ResolveOp(slots: Slots, rank: seq<nat>, n: string, args: seq<Type>)
    requires Ranked(slots, rank) && Bounded(TOp(n, args), |slots|)
    ensures AllBounded(args, |slots|)
    ensures Resolve(slots, rank, TOp(n, args)) == TOp(n, ResolveAll(slots, rank, args))
  {
    var t := TOp(n, args);
    BoundedBelowTop(rank, t);
    forall k | 0 <= k < |args|
      ensures ResolveBelow(slots, rank, args[k], Top(rank)) == Resolve(slots, rank, args[k])
    {
      ResolveIsBelow(slots, rank, args[k], Top(rank));
    }
  }

  lemma {:induction false} ResolveBelowSolved(slots: Slots, rank: seq<nat>, t: Type, r: nat)
    requires Ranked(slots, rank) && Below(rank, t, r)
    ensures Solved(slots, ResolveBelow(slots, rank, t, r))
    ensures Bounded(ResolveBelow(slots, rank, t, r), |slots|)
    decreases r, t
  {
    match t
    case TVar(i) =>
      if slots[i].Some? {
        ResolveBelowSolved(slots, rank, slots[i].value, rank[i]);
      }
    case TOp(n, args) =>
      forall k | 0 <= k < |args|
        ensures Solved(slots, ResolveBelow(slots, rank, args[k], r))
        ensures Bounded(ResolveBelow(slots, rank, args[k], r), |slots|)
      {
        ResolveBelowSolved(slots, rank, args[k], r);
      }
  }

  lemma {:induction false} SolvedBounded(slots: Slots, t: Type)
    requires Solved(slots, t)
    ensures Bounded(t, |slots|)
    decreases t
  {
    match t
    case TVar(_) =>
    case TOp(_, args) =>
      forall k | 0 <= k < |args| ensures Bounded(args[k], |slots|) {
        SolvedBounded(slots, args[k]);
      }
  }

  /** A fully resolved type resolves to itself. */
  lemma {:induction false} SolvedFixed(slots: Slots, rank: seq<nat>, t: Type)
    requires Ranked(slots, rank) && Solved(slots, t)
    ensures Bounded(t, |slots|)
    ensures Resolve(slots, rank, t) == t
    decreases t
  {
    SolvedBounded(slots, t);
    match t
    case TVar(i) =>
    case TOp(n, args) =>
      ResolveOp(slots, rank, n, args);
      forall k | 0 <= k < |args| ensures Resolve(slots, rank, args[k]) == args[k] {
        SolvedFixed(slots, rank, args[k]);
      }
      assert ResolveAll(slots, rank, args) == args;
  }

  /** Resolving is idempotent: the ends of all chains are already reached. */
  lemma ResolveIdempotent(slots: Slots, rank: seq<nat>, t: Type)
    requires Ranked(slots, rank) && Bounded(t, |slots|)
    ensures Bounded(Resolve(slots, rank, t), |slots|)
    ensures Resolve(slots, rank, Resolve(slots, rank, t)) == Resolve(slots, rank, t)
  {
    SolvedFixed(slots, rank, Resolve(slots, rank, t));
  }

  /** A variable mentioned by `t` contributes its own resolution to that of `t`. */
  lemma {:induction false} MentionsResolve(slots: Slots, rank: seq<nat>, t: Type, u: nat, a: nat)
    requires Ranked(slots, rank) && Bounded(t, |slots|) && Mentions(t, u) && u < |slots|
    requires Mentions(Resolve(slots, rank, TVar(u)), a)
    ensures Mentions(Resolve(slots, rank, t), a)
    decreases t
  {
    match t
    case TVar(_) =>
    case TOp(n, args) =>
      ResolveOp(slots, rank, n, args);
      var k :| 0 <= k < |args| && Mentions(args[k], u);
      MentionsResolve(slots, rank, args[k], u, a);
      assert ResolveAll(slots, rank, args)[k] == Resolve(slots, rank, args[k]);
  }

  // ---------------------------------------------------------------------
  // The end of a chain (what prune returns)

  function Weight(rank: seq<nat>, t: Type): nat
  {
    if t.TVar? && t.id < |rank| then rank[t.id] + 1 else 0
  }

  /** Follow `instance` links from `t` until an operator or an unbound variable. */
  ghost function Head(slots: Slots, rank: seq<nat>, t: Type): (h: Type)
    requires Ranked(slots, rank) && Bounded(t, |slots|)
    ensures Bounded(h, |slots|)
    ensures h.TOp? || slots[h.id].None?
    decreases Weight(rank, t)
  {
    if t.TVar? && slots[t.id].Some? then
      var next := slots[t.id].value;
      BelowBounded(rank, next, rank[t.id]);
      Head(slots, rank, next)
    else t
  }

  lemma {:induction false} HeadResolve(slots: Slots, rank: seq<nat>, t: Type)
    requires Ranked(slots, rank) && Bounded(t, |slots|)
    ensures Resolve(slots, rank, Head(slots, rank, t)) == Resolve(slots, rank, t)
    decreases Weight(rank, t)
  {
    if t.TVar? && slots[t.id].Some? {
      ResolveBound(slots, rank, t.id);
      HeadResolve(slots, rank, slots[t.id].value);
    }
  }

  /** The head of a bound variable ranks below it. */
  lemma {:induction false} HeadBelow(slots: Slots, rank: seq<nat>, t: Type, r: nat)
    requires Ranked(slots, rank) && Bounded(t, |slots|) && Below(rank, t, r)
    ensures Below(rank, Head(slots, rank, t), r)
    decreases Weight(rank, t)
  {
    if t.TVar? && slots[t.id].Some? {
      var next := slots[t.id].value;
      BelowBounded(rank, next, rank[t.id]);
      if next.TVar? {
        HeadBelow(slots, rank, next, r);
      } else {
        BelowRaise(rank, next, rank[t.id], r);
      }
    }
  }

  lemma {:induction false} BelowRaise(rank: seq<nat>, t: Type, r1: nat, r2: nat)
    requires Below(rank, t, r1) && r1 <= r2
    ensures Below(rank, t, r2)
    decreases t
  {
    match t
    case TVar(_) =>
    case TOp(_, args) =>
      forall k | 0 <= k < |args| ensures Below(rank, args[k], r2) {
        BelowRaise(rank, args[k], r1, r2);
      }
  }

  // ---------------------------------------------------------------------
  // Graph changes

  /** The change from (s1, r1) to (s2, r2) kept every type's meaning. */
  ghost predicate Preserves(s1: Slots, r1: seq<nat>, s2: Slots, r2: seq<nat>)
  {
    && Ranked(s1, r1) && Ranked(s2, r2) && |s1| <= |s2|
    && forall t {:trigger Resolve(s1, r1, t)} {:trigger Resolve(s2, r2, t)} ::
         Bounded(t, |s1|) && Bounded(t, |s2|) ==> Resolve(s2, r2, t) == Resolve(s1, r1, t)
  }

  /** The change from (s1, r1) to (s2, r2) only instantiated variables further. */
  ghost predicate Refines(s1: Slots, r1: seq<nat>, s2: Slots, r2: seq<nat>)
  {
    && Ranked(s1, r1) && Ranked(s2, r2) && |s1| <= |s2|
    && forall t {:trigger Resolve(s1, r1, t)} ::
         Bounded(t, |s1|) && Bounded(t, |s2|) && Bounded(Resolve(s1, r1, t), |s2|) ==>
         Resolve(s2, r2, t) == Resolve(s2, r2, Resolve(s1, r1, t))
  }

  lemma PreservesRefl(s: Slots, r: seq<nat>)
    requires Ranked(s, r)
    ensures Preserves(s, r, s, r) && Refines(s, r, s, r)
  {
    forall t | Bounded(t, |s|) ensures Resolve(s, r, t) == Resolve(s, r, Resolve(s, r, t)) {
      ResolveIdempotent(s, r, t);
    }
  }

  lemma PreservesTrans(s1: Slots, r1: seq<nat>, s2: Slots, r2: seq<nat>, s3: Slots, r3: seq<nat>)
    requires Preserves(s1, r1, s2, r2) && Preserves(s2, r2, s3, r3)
    ensures Preserves(s1, r1, s3, r3)
  {
    forall t | Bounded(t, |s1|) ensures Bounded(t, |s3|) && Resolve(s3, r3, t) == Resolve(s1, r1, t) {
      BoundedMono(t, |s1|, |s2|);
      BoundedMono(t, |s1|, |s3|);
    }
  }

  lemma PreservesRefines(s1: Slots, r1: seq<nat>, s2: Slots, r2: seq<nat>)
    requires Preserves(s1, r1, s2, r2)
    ensures Refines(s1, r1, s2, r2)
  {
    forall t | Bounded(t, |s1|)
      ensures Bounded(t, |s2|) && Bounded(Resolve(s1, r1, t), |s2|)
      ensures Resolve(s2, r2, t) == Resolve(s2, r2, Resolve(s1, r1, t))
    {
      BoundedMono(t, |s1|, |s2|);
      ResolveIdempotent(s1, r1, t);
      BoundedMono(Resolve(s1, r1, t), |s1|, |s2|);
    }
  }

  lemma RefinesTrans(s1: Slots, r1: seq<nat>, s2: Slots, r2: seq<nat>, s3: Slots, r3: seq<nat>)
    requires Refines(s1, r1, s2, r2) && Refines(s2, r2, s3, r3)
    ensures Refines(s1, r1, s3, r3)
  {
    forall t | Bounded(t, |s1|)
      ensures Bounded(t, |s3|) && Bounded(Resolve(s1, r1, t), |s3|)
      ensures Resolve(s3, r3, t) == Resolve(s3, r3, Resolve(s1, r1, t))
    {
      BoundedMono(t, |s1|, |s2|);
      BoundedMono(t, |s1|, |s3|);
      var x := Resolve(s1, r1, t);
      BoundedMono(x, |s1|, |s2|);
      BoundedMono(x, |s1|, |s3|);
      BoundedMono(Resolve(s2, r2, t), |s2|, |s3|);
      BoundedMono(Resolve(s2, r2, x), |s2|, |s3|);
      calc {
        Resolve(s3, r3, t);
        Resolve(s3, r3, Resolve(s2, r2, t));
        Resolve(s3, r3, Resolve(s2, r2, x));
        Resolve(s3, r3, x);
      }
    }
  }

  lemma PreservesThenRefines(s1: Slots, r1: seq<nat>, s2: Slots, r2: seq<nat>, s3: Slots, r3: seq<nat>)
    requires Preserves(s1, r1, s2, r2) && Refines(s2, r2, s3, r3)
    ensures Refines(s1, r1, s3, r3)
  {
    PreservesRefines(s1, r1, s2, r2);
    RefinesTrans(s1, r1, s2, r2, s3, r3);
  }

  lemma RefinesThenPreserves(s1: Slots, r1: seq<nat>, s2: Slots, r2: seq<nat>, s3: Slots, r3: seq<nat>)
    requires Refines(s1, r1, s2, r2) && Preserves(s2, r2, s3, r3)
    ensures Refines(s1, r1, s3, r3)
  {
    PreservesRefines(s2, r2, s3, r3);
    RefinesTrans(s1, r1, s2, r2, s3, r3);
  }

  /** Two types made equal stay equal under any later refinement. */
  lemma RefinesKeepsEqual(s1: Slots, r1: seq<nat>, s2: Slots, r2: seq<nat>, x: Type, y: Type)
    requires Refines(s1, r1, s2, r2) && Bounded(x, |s1|) && Bounded(y, |s1|)
    requires Resolve(s1, r1, x) == Resolve(s1, r1, y)
    ensures Bounded(x, |s2|) && Bounded(y, |s2|)
    ensures Resolve(s2, r2, x) == Resolve(s2, r2, y)
  {
    BoundedMono(x, |s1|, |s2|);
    BoundedMono(y, |s1|, |s2|);
    var rx := Resolve(s1, r1, x);
    BoundedMono(rx, |s1|, |s2|);
    assert Resolve(s2, r2, x) == Resolve(s2, r2, rx);
    assert Resolve(s2, r2, y) == Resolve(s2, r2, Resolve(s1, r1, y));
  }

  /** A fully resolved type without variables keeps its meaning forever. */
  lemma GroundFixed(s: Slots, r: seq<nat>, t: Type)
    requires Ranked(s, r) && !HasVar(t)
    ensures Bounded(t, |s|) && Resolve(s, r, t) == t
  {
    GroundSolved(s, t);
    SolvedFixed(s, r, t);
  }

  lemma {:induction false} GroundSolved(s: Slots, t: Type)
    requires !HasVar(t)
    ensures Solved(s, t)
    decreases t
  {
    match t
    case TVar(_) =>
    case TOp(_, args) =>
      forall k | 0 <= k < |args| ensures Solved(s, args[k]) {
        assert !HasVar(args[k]);
        GroundSolved(s, args[k]);
      }
  }
}
