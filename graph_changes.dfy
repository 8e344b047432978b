/**
 * The three ways the engine changes the unification graph, and what each
 * does to the substitution the graph denotes:
 *  - path compression (prune rewriting a bound slot to its chain's end)
 *    preserves it;
 *  - allocating a new, unbound variable (fresh_id) preserves it;
 *  - binding an unbound variable `a` to a type that does not mention it
 *    (unify after the occurs-check) refines it by substituting for `a`.
 */
module GraphChanges {
  import opened Types
  import opened Graph

  // ---------------------------------------------------------------------
  // Path compression

  lemma {:induction false} CompressBelow(slots: Slots, rank: seq<nat>, i: nat, p: Type, t: Type, r: nat)
    requires Ranked(slots, rank) && i < |slots| && slots[i].Some?
    requires Below(rank, p, rank[i]) && Bounded(p, |slots|) && Bounded(slots[i].value, |slots|)
    requires Resolve(slots, rank, p) == Resolve(slots, rank, slots[i].value)
    requires Ranked(slots[i := Some(p)], rank)
    requires Below(rank, t, r)
    ensures ResolveBelow(slots[i := Some(p)], rank, t, r) == ResolveBelow(slots, rank, t, r)
    decreases r, t
  {
    var s2 := slots[i := Some(p)];
    match t
    case TVar(j) =>
      if j == i {
        CompressBelow(slots, rank, i, p, p, rank[i]);
        ResolveIsBelow(slots, rank, p, rank[i]);
        ResolveIsBelow(slots, rank, slots[i].value, rank[i]);
      } else if slots[j].Some? {
        CompressBelow(slots, rank, i, p, slots[j].value, rank[j]);
      }
    case TOp(n, args) =>
      forall k | 0 <= k < |args|
        ensures ResolveBelow(s2, rank, args[k], r) == ResolveBelow(slots, rank, args[k], r)
      {
        CompressBelow(slots, rank, i, p, args[k], r);
      }
  }

  /** Pointing a bound variable straight at an equivalent type keeps every meaning. */
  lemma Compress(slots: Slots, rank: seq<nat>, i: nat, p: Type)
    requires Ranked(slots, rank) && i < |slots| && slots[i].Some?
    requires Below(rank, p, rank[i]) && Bounded(p, |slots|) && Bounded(slots[i].value, |slots|)
    requires Resolve(slots, rank, p) == Resolve(slots, rank, slots[i].value)
    ensures Ranked(slots[i := Some(p)], rank)
    ensures Preserves(slots, rank, slots[i := Some(p)], rank)
  {
    var s2 := slots[i := Some(p)];
    forall t | Bounded(t, |slots|) ensures Resolve(s2, rank, t) == Resolve(slots, rank, t) {
      BoundedBelowTop(rank, t);
      CompressBelow(slots, rank, i, p, t, Top(rank));
    }
  }

  /** Both graphs have the same variables, bound and unbound alike. */
  ghost predicate SameBound(s1: Slots, s2: Slots)
  {
    |s1| == |s2| && forall i :: 0 <= i < |s1| ==> (s1[i].Some? <==> s2[i].Some?)
  }

  /** No variable bound in `s1` is unbound in `s2`. */
  ghost predicate StaysBound(s1: Slots, s2: Slots)
  {
    |s1| <= |s2| && forall i :: 0 <= i < |s1| && s1[i].Some? ==> s2[i].Some?
  }

  /** Every chain ends where it ended before. */
  ghost predicate HeadsKept(s1: Slots, s2: Slots, rank: seq<nat>)
  {
    && Ranked(s1, rank) && Ranked(s2, rank) && |s1| == |s2|
    && forall x {:trigger Head(s1, rank, x)} {:trigger Head(s2, rank, x)} ::
         Bounded(x, |s1|) ==> Head(s2, rank, x) == Head(s1, rank, x)
  }

  /** The head of a bound variable ranks below the variable. */
  lemma HeadBelowVar(slots: Slots, rank: seq<nat>, i: nat)
    requires Ranked(slots, rank) && i < |slots| && slots[i].Some?
    ensures Below(rank, Head(slots, rank, TVar(i)), rank[i])
  {
    var next := slots[i].value;
    BelowBounded(rank, next, rank[i]);
    HeadBelow(slots, rank, next, rank[i]);
  }

  /** Pointing a bound variable at the end of its own chain keeps every chain's end. */
  lemma {:induction false} CompressHead(slots: Slots, rank: seq<nat>, i: nat, p: Type, x: Type)
    requires Ranked(slots, rank) && i < |slots| && slots[i].Some?
    requires p == Head(slots, rank, TVar(i)) && Ranked(slots[i := Some(p)], rank)
    requires Bounded(x, |slots|)
    ensures Head(slots[i := Some(p)], rank, x) == Head(slots, rank, x)
    decreases Weight(rank, x)
  {
    var s2 := slots[i := Some(p)];
    if x.TVar? && slots[x.id].Some? {
      if x.id == i {
        assert Head(s2, rank, p) == p;
      } else {
        var next := slots[x.id].value;
        BelowBounded(rank, next, rank[x.id]);
        CompressHead(slots, rank, i, p, next);
      }
    }
  }

  lemma CompressHeads(slots: Slots, rank: seq<nat>, i: nat, p: Type)
    requires Ranked(slots, rank) && i < |slots| && slots[i].Some?
    requires p == Head(slots, rank, TVar(i)) && Ranked(slots[i := Some(p)], rank)
    ensures HeadsKept(slots, slots[i := Some(p)], rank)
  {
    var s2 := slots[i := Some(p)];
    assert |s2| == |slots|;
    forall x | Bounded(x, |slots|) ensures Head(s2, rank, x) == Head(slots, rank, x) {
      CompressHead(slots, rank, i, p, x);
    }
  }

  lemma HeadsKeptTrans(s1: Slots, s2: Slots, s3: Slots, rank: seq<nat>)
    requires HeadsKept(s1, s2, rank) && HeadsKept(s2, s3, rank)
    ensures HeadsKept(s1, s3, rank)
  {
  }

  /**
   * The last step of prune on a bound variable `i`: after the rest of its
   * chain was pruned (from `s0` to `s1`) to the end `p`, point `i` at `p`.
   */
  lemma CompressStep(s0: Slots, s1: Slots, rank: seq<nat>, i: nat, p: Type)
    requires Ranked(s0, rank) && i < |s0| && s0[i].Some?
    requires p == Head(s0, rank, TVar(i))
    requires Preserves(s0, rank, s1, rank) && HeadsKept(s0, s1, rank) && SameBound(s0, s1)
    ensures Ranked(s1[i := Some(p)], rank)
    ensures Preserves(s0, rank, s1[i := Some(p)], rank)
    ensures HeadsKept(s0, s1[i := Some(p)], rank)
    ensures SameBound(s0, s1[i := Some(p)])
    ensures p == Head(s1[i := Some(p)], rank, TVar(i))
  {
    var next := s0[i].value;
    var s2 := s1[i := Some(p)];
    BelowBounded(rank, next, rank[i]);
    assert p == Head(s0, rank, next);
    HeadBelowVar(s0, rank, i);
    HeadResolve(s0, rank, next);
    ResolveBound(s0, rank, i);
    ResolveBound(s1, rank, i);
    assert Head(s1, rank, TVar(i)) == p;
    Compress(s1, rank, i, p);
    CompressHeads(s1, rank, i, p);
    PreservesTrans(s0, rank, s1, rank, s2, rank);
    HeadsKeptTrans(s0, s1, s2, rank);
  }

  // ---------------------------------------------------------------------
  // Allocation

  lemma AllocRanked(slots: Slots, rank: seq<nat>)
    requires Ranked(slots, rank)
    ensures Ranked(slots + [None], rank + [0])
  {
    var s2, rank2 := slots + [None], rank + [0];
    forall i | 0 <= i < |s2| && s2[i].Some? ensures Below(rank2, s2[i].value, rank2[i]) {
      BelowTransfer(rank, rank2, slots[i].value, rank[i]);
    }
  }

  lemma {:induction false} AllocBelow(slots: Slots, rank: seq<nat>, t: Type, r: nat)
    requires Ranked(slots, rank) && Ranked(slots + [None], rank + [0]) && Below(rank, t, r)
    ensures Below(rank + [0], t, r)
    ensures ResolveBelow(slots + [None], rank + [0], t, r) == ResolveBelow(slots, rank, t, r)
    decreases r, t
  {
    BelowTransfer(rank, rank + [0], t, r);
    match t
    case TVar(j) =>
      if slots[j].Some? {
        AllocBelow(slots, rank, slots[j].value, rank[j]);
      }
    case TOp(n, args) =>
      forall k | 0 <= k < |args|
        ensures ResolveBelow(slots + [None], rank + [0], args[k], r) == ResolveBelow(slots, rank, args[k], r)
      {
        AllocBelow(slots, rank, args[k], r);
      }
  }

  /** A new unbound variable changes the meaning of no existing type. */
  lemma Alloc(slots: Slots, rank: seq<nat>)
    requires Ranked(slots, rank)
    ensures Ranked(slots + [None], rank + [0])
    ensures Preserves(slots, rank, slots + [None], rank + [0])
  {
    AllocRanked(slots, rank);
    var s2, rank2 := slots + [None], rank + [0];
    forall t | Bounded(t, |slots|) && Bounded(t, |s2|) ensures Resolve(s2, rank2, t) == Resolve(slots, rank, t) {
      BoundedBelowTop(rank, t);
      AllocBelow(slots, rank, t, Top(rank));
      ResolveIsBelow(s2, rank2, t, Top(rank));
    }
  }

  // ---------------------------------------------------------------------
  // Binding

  /** The number of unbound variables; every binding lowers it by one. */
  function Unbound(slots: Slots): nat
  {
    if slots == [] then 0 else (if slots[0].None? then 1 else 0) + Unbound(slots[1..])
  }

  lemma {:induction false} UnboundBind(slots: Slots, a: nat, b: Type)
    requires a < |slots|
    ensures slots[a].None? ==> Unbound(slots[a := Some(b)]) == Unbound(slots) - 1
    ensures slots[a].Some? ==> Unbound(slots[a := Some(b)]) == Unbound(slots)
    ensures slots[a].None? ==> Unbound(slots) > 0
  {
    if a > 0 {
      UnboundBind(slots[1..], a - 1, b);
      assert slots[a := Some(b)][1..] == slots[1..][a - 1 := Some(b)];
    } else {
      assert slots[a := Some(b)][1..] == slots[1..];
    }
  }

  lemma {:induction false} UnboundAlloc(slots: Slots)
    ensures Unbound(slots + [None]) == Unbound(slots) + 1
  {
    if slots != [] {
      assert (slots + [None])[1..] == slots[1..] + [None];
      UnboundAlloc(slots[1..]);
    }
  }

  lemma {:induction false} UnboundSame(s1: Slots, s2: Slots)
    requires SameBound(s1, s2)
    ensures Unbound(s1) == Unbound(s2)
  {
    if s1 != [] {
      UnboundSame(s1[1..], s2[1..]);
    }
  }

  ghost predicate CanBind(slots: Slots, rank: seq<nat>, a: nat, b: Type)
  {
    && Ranked(slots, rank) && a < |slots| && slots[a].None? && Bounded(b, |slots|)
    && !Mentions(Resolve(slots, rank, b), a)
  }

  /** New ranks after binding `a`: every variable that reaches `a` moves up. */
  ghost function Rerank(slots: Slots, rank: seq<nat>, a: nat): (rank2: seq<nat>)
    requires Ranked(slots, rank) && a < |slots|
    ensures |rank2| == |rank|
  {
    seq(|rank|, w requires 0 <= w < |rank| =>
      if Mentions(Resolve(slots, rank, TVar(w)), a) then rank[w] + Top(rank) else rank[w])
  }

  lemma BindRanked(slots: Slots, rank: seq<nat>, a: nat, b: Type)
    requires CanBind(slots, rank, a, b)
    ensures Ranked(slots[a := Some(b)], Rerank(slots, rank, a))
  {
    var s2, rank2 := slots[a := Some(b)], Rerank(slots, rank, a);
    ResolveFree(slots, rank, a);
    assert rank2[a] == rank[a] + Top(rank);
    forall w | 0 <= w < |s2| && s2[w].Some? ensures Below(rank2, s2[w].value, rank2[w]) {
      if w == a {
        forall u: nat | Mentions(b, u) ensures u < |rank2| && rank2[u] < rank2[w] {
          MentionsBounded(b, |slots|, u);
          assert !Mentions(Resolve(slots, rank, TVar(u)), a) by {
            if Mentions(Resolve(slots, rank, TVar(u)), a) {
              MentionsResolve(slots, rank, b, u, a);
            }
          }
        }
        BelowFromMentions(rank2, b, rank2[w]);
      } else {
        var tw := slots[w].value;
        forall u: nat | Mentions(tw, u) ensures u < |rank2| && rank2[u] < rank2[w] {
          BelowMentions(rank, tw, rank[w], u);
          if Mentions(Resolve(slots, rank, TVar(u)), a) {
            BelowBounded(rank, tw, rank[w]);
            MentionsResolve(slots, rank, tw, u, a);
            ResolveBound(slots, rank, w);
          }
        }
        BelowFromMentions(rank2, tw, rank2[w]);
      }
    }
  }

  lemma {:induction false} BindKeeps(slots: Slots, rank: seq<nat>, a: nat, b: Type, t: Type, r: nat)
    requires CanBind(slots, rank, a, b) && Ranked(slots[a := Some(b)], Rerank(slots, rank, a))
    requires Below(rank, t, r) && !Mentions(ResolveBelow(slots, rank, t, r), a)
    ensures Bounded(t, |slots|)
    ensures Resolve(slots[a := Some(b)], Rerank(slots, rank, a), t) == ResolveBelow(slots, rank, t, r)
    decreases r, t
  {
    var s2, rank2 := slots[a := Some(b)], Rerank(slots, rank, a);
    BelowBounded(rank, t, r);
    match t
    case TVar(j) =>
      if slots[j].Some? {
        ResolveBound(s2, rank2, j);
        BindKeeps(slots, rank, a, b, slots[j].value, rank[j]);
      } else {
        ResolveFree(s2, rank2, j);
      }
    case TOp(n, args) =>
      ResolveOp(s2, rank2, n, args);
      forall k | 0 <= k < |args|
        ensures Resolve(s2, rank2, args[k]) == ResolveBelow(slots, rank, args[k], r)
      {
        var rt := ResolveBelow(slots, rank, t, r);
        assert rt.args[k] == ResolveBelow(slots, rank, args[k], r);
        assert !Mentions(rt.args[k], a);
        BindKeeps(slots, rank, a, b, args[k], r);
      }
  }

  lemma {:induction false} BindSubst(slots: Slots, rank: seq<nat>, a: nat, b: Type, t: Type, r: nat)
    requires CanBind(slots, rank, a, b) && Ranked(slots[a := Some(b)], Rerank(slots, rank, a))
    requires Below(rank, t, r)
    ensures Bounded(t, |slots|)
    ensures Resolve(slots[a := Some(b)], Rerank(slots, rank, a), t)
         == Subst(ResolveBelow(slots, rank, t, r), a, Resolve(slots, rank, b))
    decreases r, t
  {
    var s2, rank2 := slots[a := Some(b)], Rerank(slots, rank, a);
    BelowBounded(rank, t, r);
    match t
    case TVar(j) =>
      if j == a {
        ResolveBound(s2, rank2, a);
        BoundedBelowTop(rank, b);
        ResolveIsBelow(slots, rank, b, Top(rank));
        BindKeeps(slots, rank, a, b, b, Top(rank));
      } else if slots[j].Some? {
        ResolveBound(s2, rank2, j);
        BindSubst(slots, rank, a, b, slots[j].value, rank[j]);
      } else {
        ResolveFree(s2, rank2, j);
      }
    case TOp(n, args) =>
      ResolveOp(s2, rank2, n, args);
      forall k | 0 <= k < |args|
        ensures Resolve(s2, rank2, args[k]) == Subst(ResolveBelow(slots, rank, args[k], r), a, Resolve(slots, rank, b))
      {
        BindSubst(slots, rank, a, b, args[k], r);
      }
  }

  lemma BindRefines(slots: Slots, rank: seq<nat>, a: nat, b: Type)
    requires CanBind(slots, rank, a, b) && Ranked(slots[a := Some(b)], Rerank(slots, rank, a))
    ensures Refines(slots, rank, slots[a := Some(b)], Rerank(slots, rank, a))
  {
    var s2, rank2 := slots[a := Some(b)], Rerank(slots, rank, a);
    forall t | Bounded(t, |slots|) && Bounded(t, |s2|) && Bounded(Resolve(slots, rank, t), |s2|)
      ensures Resolve(s2, rank2, t) == Resolve(s2, rank2, Resolve(slots, rank, t))
    {
      var x := Resolve(slots, rank, t);
      BoundedBelowTop(rank, t);
      BindSubst(slots, rank, a, b, t, Top(rank));
      BoundedBelowTop(rank, x);
      BindSubst(slots, rank, a, b, x, Top(rank));
      ResolveIdempotent(slots, rank, t);
      ResolveIsBelow(slots, rank, t, Top(rank));
      ResolveIsBelow(slots, rank, x, Top(rank));
    }
  }

  lemma BindMeaning(slots: Slots, rank: seq<nat>, a: nat, b: Type)
    requires CanBind(slots, rank, a, b) && Ranked(slots[a := Some(b)], Rerank(slots, rank, a))
    ensures Resolve(slots[a := Some(b)], Rerank(slots, rank, a), b) == Resolve(slots, rank, b)
    ensures Resolve(slots[a := Some(b)], Rerank(slots, rank, a), TVar(a)) == Resolve(slots, rank, b)
  {
    BoundedBelowTop(rank, b);
    ResolveIsBelow(slots, rank, b, Top(rank));
    BindKeeps(slots, rank, a, b, b, Top(rank));
    ResolveBound(slots[a := Some(b)], Rerank(slots, rank, a), a);
  }

  /**
   * Binding an unbound `a` to a `b` whose meaning does not mention `a`
   * keeps the graph acyclic, only instantiates the substitution further,
   * and makes `a` and `b` mean what `b` meant.
   */
  lemma Bind(slots: Slots, rank: seq<nat>, a: nat, b: Type)
    requires CanBind(slots, rank, a, b)
    ensures Ranked(slots[a := Some(b)], Rerank(slots, rank, a))
    ensures Refines(slots, rank, slots[a := Some(b)], Rerank(slots, rank, a))
    ensures Resolve(slots[a := Some(b)], Rerank(slots, rank, a), TVar(a)) == Resolve(slots, rank, b)
    ensures Resolve(slots[a := Some(b)], Rerank(slots, rank, a), b) == Resolve(slots, rank, b)
  {
    BindRanked(slots, rank, a, b);
    BindRefines(slots, rank, a, b);
    BindMeaning(slots, rank, a, b);
  }

  /** `r2` keeps every rank of `r1` and may rank more variables. */
  ghost predicate RankKept(r1: seq<nat>, r2: seq<nat>)
  {
    |r1| <= |r2| && forall i :: 0 <= i < |r1| ==> r2[i] == r1[i]
  }

  /** `s2` keeps every variable of `s1` bound or unbound as it was, and may add more. */
  ghost predicate BoundKept(s1: Slots, s2: Slots)
  {
    |s1| <= |s2| && forall i :: 0 <= i < |s1| ==> (s1[i].Some? <==> s2[i].Some?)
  }

  /** One step of an analysis: the substitution is only refined and no bound variable is unbound. */
  ghost predicate Advanced(s1: Slots, r1: seq<nat>, s2: Slots, r2: seq<nat>)
  {
    Refines(s1, r1, s2, r2) && StaysBound(s1, s2)
  }

  lemma AdvancedTrans(s1: Slots, r1: seq<nat>, s2: Slots, r2: seq<nat>, s3: Slots, r3: seq<nat>)
    requires Advanced(s1, r1, s2, r2) && Advanced(s2, r2, s3, r3)
    ensures Advanced(s1, r1, s3, r3)
  {
    RefinesTrans(s1, r1, s2, r2, s3, r3);
  }

  /** Allocating variables and compressing paths is a step that changes no meaning. */
  lemma PreservesAdvanced(s1: Slots, r1: seq<nat>, s2: Slots, r2: seq<nat>)
    requires Preserves(s1, r1, s2, r2) && BoundKept(s1, s2)
    ensures Advanced(s1, r1, s2, r2)
  {
    PreservesRefines(s1, r1, s2, r2);
  }

  /** Only new variables were allocated, all still unbound, and no meaning changed. */
  ghost predicate Grown(s1: Slots, r1: seq<nat>, s2: Slots, r2: seq<nat>)
  {
    && Preserves(s1, r1, s2, r2) && BoundKept(s1, s2)
    && forall i :: |s1| <= i < |s2| ==> s2[i].None?
  }

  lemma GrownTrans(s1: Slots, r1: seq<nat>, s2: Slots, r2: seq<nat>, s3: Slots, r3: seq<nat>)
    requires Grown(s1, r1, s2, r2) && Grown(s2, r2, s3, r3)
    ensures Grown(s1, r1, s3, r3)
  {
    PreservesTrans(s1, r1, s2, r2, s3, r3);
  }

  lemma GrownRefl(s: Slots, r: seq<nat>)
    requires Ranked(s, r)
    ensures Grown(s, r, s, r)
  {
    PreservesRefl(s, r);
  }
}
