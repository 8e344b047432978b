/**
 * Facts about one call of `unify`, stated over the graph before the call
 * (`s0`), after pruning both sides (`s2`) and after the binding or the
 * unification of the constituents.
 */
module Unification {
  import opened Types
  import opened Graph
  import opened GraphChanges

  /** The chains of `t1` and `t2` end in operators that differ in name or arity. */
  ghost predicate Clash(slots: Slots, rank: seq<nat>, t1: Type, t2: Type)
  {
    && Ranked(slots, rank) && Bounded(t1, |slots|) && Bounded(t2, |slots|)
    && var h1, h2 := Head(slots, rank, t1), Head(slots, rank, t2);
    && h1.TOp? && h2.TOp? && (h1.name != h2.name || |h1.args| != |h2.args|)
  }

  /**
   * The chain of one side ends in a variable that the other side, fully
   * resolved, contains, and the two chain ends differ.
   */
  ghost predicate Cyclic(slots: Slots, rank: seq<nat>, t1: Type, t2: Type)
  {
    && Ranked(slots, rank) && Bounded(t1, |slots|) && Bounded(t2, |slots|)
    && var h1, h2 := Head(slots, rank, t1), Head(slots, rank, t2);
    || (h1.TVar? && h1 != h2 && Mentions(Resolve(slots, rank, t2), h1.id))
    || (h1.TOp? && h2.TVar? && Mentions(Resolve(slots, rank, t1), h2.id))
  }

  /** The end of a chain is the end of its own chain, and means what the chain means. */
  lemma HeadFixed(s0: Slots, s2: Slots, rank: seq<nat>, t: Type, h: Type)
    requires Ranked(s0, rank) && Bounded(t, |s0|) && h == Head(s0, rank, t)
    requires Preserves(s0, rank, s2, rank) && HeadsKept(s0, s2, rank) && SameBound(s0, s2)
    ensures Bounded(h, |s0|) && Head(s2, rank, h) == h
    ensures h.TVar? ==> s2[h.id].None?
    ensures Resolve(s0, rank, h) == Resolve(s0, rank, t) && Resolve(s2, rank, h) == Resolve(s0, rank, t)
    ensures Resolve(s2, rank, t) == Resolve(s0, rank, t)
  {
    HeadResolve(s0, rank, t);
    assert Head(s0, rank, h) == h;
    assert Head(s2, rank, h) == Head(s0, rank, h);
    assert Resolve(s2, rank, h) == Resolve(s0, rank, h);
    assert Resolve(s2, rank, t) == Resolve(s0, rank, t);
  }

  /** Pruning `t1` and then `t2` kept every meaning and every chain end. */
  lemma PruneBoth(s0: Slots, s1: Slots, s2: Slots, rank: seq<nat>, t2: Type, b: Type)
    requires Preserves(s0, rank, s1, rank) && HeadsKept(s0, s1, rank) && SameBound(s0, s1)
    requires Bounded(t2, |s0|) && b == Head(s1, rank, t2)
    requires Preserves(s1, rank, s2, rank) && HeadsKept(s1, s2, rank) && SameBound(s1, s2)
    ensures Preserves(s0, rank, s2, rank) && HeadsKept(s0, s2, rank) && SameBound(s0, s2)
    ensures b == Head(s0, rank, t2)
  {
    PreservesTrans(s0, rank, s1, rank, s2, rank);
    HeadsKeptTrans(s0, s1, s2, rank);
  }

  /** Binding the variable `av` that ends the chain of `t1` to the end `b` of the chain of `t2`. */
  lemma BindVar(s0: Slots, s3: Slots, k0: seq<nat>, t1: Type, t2: Type, av: nat, b: Type)
    requires Ranked(s0, k0) && Bounded(t1, |s0|) && Bounded(t2, |s0|)
    requires TVar(av) == Head(s0, k0, t1) && b == Head(s0, k0, t2) && TVar(av) != b
    requires Preserves(s0, k0, s3, k0) && SameBound(s0, s3)
    requires !Mentions(Resolve(s0, k0, t2), av)
    ensures av < |s3| && Ranked(s3, k0)
    ensures Ranked(s3[av := Some(b)], Rerank(s3, k0, av))
    ensures Refines(s0, k0, s3[av := Some(b)], Rerank(s3, k0, av))
    ensures StaysBound(s0, s3[av := Some(b)])
    ensures Unbound(s3[av := Some(b)]) < Unbound(s0)
    ensures Resolve(s3[av := Some(b)], Rerank(s3, k0, av), t1) == Resolve(s3[av := Some(b)], Rerank(s3, k0, av), t2)
    ensures !Clash(s0, k0, t1, t2) && !Cyclic(s0, k0, t1, t2) && t1 != t2
  {
    var a := TVar(av);
    HeadResolve(s0, k0, t1);
    HeadResolve(s0, k0, t2);
    assert Bounded(b, |s3|);
    assert Resolve(s3, k0, b) == Resolve(s0, k0, t2);
    Bind(s3, k0, av, b);
    var s4, k4 := s3[av := Some(b)], Rerank(s3, k0, av);
    PreservesThenRefines(s0, k0, s3, k0, s4, k4);
    UnboundSame(s0, s3);
    UnboundBind(s3, av, b);
    RefinesKeepsEqual(s0, k0, s4, k4, t1, a);
    RefinesKeepsEqual(s0, k0, s4, k4, t2, b);
  }

  /** A constituent of an operator resolves to something smaller than the operator. */
  lemma ArgSmaller(s0: Slots, k0: seq<nat>, t: Type, a: Type, i: nat)
    requires Ranked(s0, k0) && Bounded(t, |s0|) && Bounded(a, |s0|)
    requires a.TOp? && i < |a.args| && Resolve(s0, k0, a) == Resolve(s0, k0, t)
    ensures Bounded(a.args[i], |s0|)
    ensures Size(Resolve(s0, k0, a.args[i])) < Size(Resolve(s0, k0, t))
  {
    ResolveOp(s0, k0, a.name, a.args);
    var xs := ResolveAll(s0, k0, a.args);
    assert xs[i] == Resolve(s0, k0, a.args[i]);
    SizeOfElement(xs, i);
  }

  lemma PreservedMeaning(s0: Slots, k0: seq<nat>, sc: Slots, kc: seq<nat>, x: Type)
    requires Preserves(s0, k0, sc, kc) && Bounded(x, |s0|) && |sc| == |s0|
    ensures Resolve(sc, kc, x) == Resolve(s0, k0, x)
  {
  }

  /** Each pair of constituents is smaller than the pair of operators, as long as nothing was bound. */
  lemma ArgsSmaller(s0: Slots, sc: Slots, k0: seq<nat>, kc: seq<nat>, t1: Type, t2: Type, a: Type, b: Type, i: nat)
    requires Preserves(s0, k0, sc, kc) && |sc| == |s0|
    requires Bounded(t1, |s0|) && Bounded(t2, |s0|) && Bounded(a, |s0|) && Bounded(b, |s0|)
    requires a.TOp? && b.TOp? && i < |a.args| && i < |b.args|
    requires Resolve(s0, k0, a) == Resolve(s0, k0, t1) && Resolve(s0, k0, b) == Resolve(s0, k0, t2)
    ensures Bounded(a.args[i], |sc|) && Bounded(b.args[i], |sc|)
    ensures Size(Resolve(sc, kc, a.args[i])) + Size(Resolve(sc, kc, b.args[i]))
        < Size(Resolve(s0, k0, t1)) + Size(Resolve(s0, k0, t2))
  {
    ArgSmaller(s0, k0, t1, a, i);
    ArgSmaller(s0, k0, t2, b, i);
    PreservedMeaning(s0, k0, sc, kc, a.args[i]);
    PreservedMeaning(s0, k0, sc, kc, b.args[i]);
  }

  /** The first `i` constituents of an operator, under the operator's name. */
  function Prefix(t: Type, i: nat): (p: Type)
    requires t.TOp? && i <= |t.args|
    ensures p.TOp? && p.name == t.name && p.args == t.args[..i]
    ensures forall n: nat :: Bounded(t, n) ==> Bounded(p, n)
  {
    TOp(t.name, t.args[..i])
  }

  /**
   * Two operators with the same name that resolve alike still resolve alike
   * once each receives one more constituent, the two resolving alike.
   */
  lemma OpsExtend(s: Slots, r: seq<nat>, n: string, xs: seq<Type>, ys: seq<Type>, x: Type, y: Type)
    requires Ranked(s, r) && Bounded(TOp(n, xs), |s|) && Bounded(TOp(n, ys), |s|)
    requires Bounded(x, |s|) && Bounded(y, |s|)
    requires Resolve(s, r, TOp(n, xs)) == Resolve(s, r, TOp(n, ys)) && Resolve(s, r, x) == Resolve(s, r, y)
    ensures Bounded(TOp(n, xs + [x]), |s|) && Bounded(TOp(n, ys + [y]), |s|)
    ensures Resolve(s, r, TOp(n, xs + [x])) == Resolve(s, r, TOp(n, ys + [y]))
  {
    ResolveOp(s, r, n, xs);
    ResolveOp(s, r, n, ys);
    var us, vs := ResolveAll(s, r, xs), ResolveAll(s, r, ys);
    assert us == vs;
    assert Bounded(TOp(n, xs + [x]), |s|) by {
      forall k | 0 <= k < |xs + [x]| ensures Bounded((xs + [x])[k], |s|) {
        if k < |xs| { assert (xs + [x])[k] == xs[k]; }
      }
    }
    assert Bounded(TOp(n, ys + [y]), |s|) by {
      forall k | 0 <= k < |ys + [y]| ensures Bounded((ys + [y])[k], |s|) {
        if k < |ys| { assert (ys + [y])[k] == ys[k]; }
      }
    }
    ResolveOp(s, r, n, xs + [x]);
    ResolveOp(s, r, n, ys + [y]);
    var us', vs' := ResolveAll(s, r, xs + [x]), ResolveAll(s, r, ys + [y]);
    assert |us'| == |vs'|;
    forall k | 0 <= k < |us'| ensures us'[k] == vs'[k] {
      if k < |xs| {
        assert us'[k] == us[k] && vs'[k] == vs[k];
      }
    }
    assert us' == vs';
  }

  lemma TakeOneMore(xs: seq<Type>, i: nat)
    requires i < |xs|
    ensures xs[..i] + [xs[i]] == xs[..i + 1]
  {
  }

  /** Two operators with the same name whose first `i` constituents resolve alike, and whose `i`-th do, agree on `i + 1`. */
  lemma PrefixExtends(s: Slots, r: seq<nat>, a: Type, b: Type, i: nat)
    requires Ranked(s, r) && a.TOp? && b.TOp? && a.name == b.name && i < |a.args| && i < |b.args|
    requires Bounded(a, |s|) && Bounded(b, |s|)
    requires Resolve(s, r, Prefix(a, i)) == Resolve(s, r, Prefix(b, i))
    requires Resolve(s, r, a.args[i]) == Resolve(s, r, b.args[i])
    ensures Resolve(s, r, Prefix(a, i + 1)) == Resolve(s, r, Prefix(b, i + 1))
  {
    TakeOneMore(a.args, i);
    TakeOneMore(b.args, i);
    OpsExtend(s, r, a.name, a.args[..i], b.args[..i], a.args[i], b.args[i]);
  }

  /** Operators with the same name whose constituents were made equal pairwise are equal. */
  lemma OpsDone(s0: Slots, sn: Slots, k0: seq<nat>, kn: seq<nat>, t1: Type, t2: Type, a: Type, b: Type)
    requires Refines(s0, k0, sn, kn) && |sn| == |s0|
    requires Bounded(t1, |s0|) && Bounded(t2, |s0|) && Bounded(a, |s0|) && Bounded(b, |s0|)
    requires Bounded(a, |sn|) && Bounded(b, |sn|)
    requires Resolve(s0, k0, a) == Resolve(s0, k0, t1) && Resolve(s0, k0, b) == Resolve(s0, k0, t2)
    requires Resolve(sn, kn, a) == Resolve(sn, kn, b)
    ensures Bounded(t1, |sn|) && Bounded(t2, |sn|)
    ensures Resolve(sn, kn, t1) == Resolve(sn, kn, t2)
  {
    RefinesKeepsEqual(s0, k0, sn, kn, t1, a);
    RefinesKeepsEqual(s0, k0, sn, kn, t2, b);
  }
}
