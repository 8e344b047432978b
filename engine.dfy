/**
 * The inference engine's mutable state and the operations that change it.
 *
 * A `Session` holds what the source keeps in module globals and in the type
 * variable objects themselves:
 *  - `slots`: the `instance` field of every type variable, indexed by id;
 *    its length is the id counter `gID`;
 *  - `names`: the display name each variable has memoized (`get_name`);
 *  - `counter`: the character codes of the next display name (`gName`).
 * The ghost `rank` witnesses that instance chains are acyclic and the ghost
 * `drawn` says how many names the counter has handed out since its reset.
 */
module Engine {
  import opened Types
  import opened Graph
  import opened GraphChanges
  import opened Naming
  import opened Printing
  import opened Unification
  import opened Instantiation

  /**
   * The carry loop of `fresh_name`, from the last code to the first: bump
   * the code; one that passes 'z' becomes 'a' and the carry moves left; a
   * carry out of the first code appends one more 'a'.
   */
  method Advance(g0: seq<int>) returns (g: seq<int>)
    requires |g0| >= 1
    ensures g == Succ(g0)
  {
    g := g0;
    var i := |g| - 1;
    assert g[..i + 1] == g && g[i + 1..] == [];
    while true
      invariant 0 <= i < |g| == |g0|
      invariant g[..i + 1] == g0[..i + 1]
      invariant forall k :: i < k < |g| ==> g[k] == FirstLow
      invariant Succ(g0) == Succ(g[..i + 1]) + g[i + 1..]
      decreases i
    {
      ghost var prev := g;
      g := g[i := g[i] + 1];
      if g[i] > LastLow {
        g := g[i := FirstLow];
        CarryAt(prev, i);
        if i == 0 {
          RollOver(prev[1..]);
          g := g + [FirstLow];
          break;
        }
      } else {
        BumpAt(prev, i);
        break;
      }
      i := i - 1;
    }
  }

  class Session {
    var slots: Slots
    var names: map<nat, string>
    var counter: seq<int>
    ghost var rank: seq<nat>
    ghost var drawn: nat

    ghost predicate Valid()
      reads this
    {
      && Ranked(slots, rank)
      && counter == Digits(drawn)
      && forall v :: v in names ==> v < |slots|
    }

    /** Loading the module: the name counter starts at "a" and `t1`, `t2` are allocated. */
    constructor ()
      ensures Valid()
      ensures slots == [None, None] && names == map[] && counter == [FirstLow] && drawn == 0
    {
      slots := [None, None];
      rank := [0, 0];
      names := map[];
      counter := [FirstLow];
      drawn := 0;
    }

    /** `new TypeVariable()`: the next id, unbound and not yet named. */
    method NewVar() returns (v: Type)
      requires Valid()
      modifies this
      ensures Valid()
      ensures v == TVar(|old(slots)|) && slots == old(slots) + [None] && rank == old(rank) + [0]
      ensures names == old(names) && counter == old(counter) && drawn == old(drawn)
      ensures v.id !in names
      ensures Preserves(old(slots), old(rank), slots, rank) && Grown(old(slots), old(rank), slots, rank)
    {
      Alloc(slots, rank);
      v := TVar(|slots|);
      slots := slots + [None];
      rank := rank + [0];
    }

    /** `fresh_name`: hand out the current name and advance the counter. */
    method FreshName() returns (name: string)
      requires Valid()
      modifies this
      ensures Valid()
      ensures name == Spell(old(drawn)) && drawn == old(drawn) + 1
      ensures slots == old(slots) && rank == old(rank) && names == old(names)
    {
      name := Text(counter);
      counter := Advance(counter);
      SuccDigits(drawn);
      drawn := drawn + 1;
    }

    /** Between two forms the counter goes back to "a"; memoized names stay. */
    method ResetNames()
      requires Valid()
      modifies this
      ensures Valid()
      ensures counter == [FirstLow] && drawn == 0
      ensures slots == old(slots) && rank == old(rank) && names == old(names)
    {
      counter := [FirstLow];
      drawn := 0;
    }

    /** `get_name`: the memoized name of variable `v`, drawn from the counter the first time. */
    method GetName(v: nat) returns (name: string)
      requires Valid() && v < |slots|
      modifies this
      ensures Valid()
      ensures slots == old(slots) && rank == old(rank)
      ensures v in old(names) ==> name == old(names)[v] && names == old(names) && drawn == old(drawn)
      ensures v !in old(names) ==>
        name == Spell(old(drawn)) && names == old(names)[v := name] && drawn == old(drawn) + 1
    {
      if v in names {
        name := names[v];
      } else {
        name := FreshName();
        names := names[v := name];
      }
    }

    /**
     * `prune`: the end of the chain of `t`; every bound variable passed on
     * the way is pointed straight at that end.
     */
    method Prune(t: Type) returns (p: Type)
      requires Valid() && Bounded(t, |slots|)
      modifies this
      ensures Valid() && rank == old(rank)
      ensures names == old(names) && counter == old(counter) && drawn == old(drawn)
      ensures p == Head(old(slots), old(rank), t)
      ensures p == Head(slots, rank, t)
      ensures t.TVar? && old(slots)[t.id].Some? ==> slots[t.id] == Some(p)
      ensures t.TOp? || old(slots)[t.id].None? ==> slots == old(slots)
      ensures SameBound(old(slots), slots)
      ensures Preserves(old(slots), old(rank), slots, rank)
      ensures HeadsKept(old(slots), slots, rank)
      decreases Weight(rank, t)
    {
      if t.TVar? && slots[t.id].Some? {
        ghost var s0 := slots;
        var next := slots[t.id].value;
        BelowBounded(rank, next, rank[t.id]);
        p := Prune(next);
        CompressStep(s0, slots, rank, t.id, p);
        slots := slots[t.id := Some(p)];
      } else {
        p := t;
        PreservesRefl(slots, rank);
      }
    }

    /** `occurs_type`: whether `v` occurs in what `t` denotes. */
    method OccursType(v: nat, t: Type, ghost r: nat) returns (found: bool)
      requires Valid() && Below(rank, t, r)
      modifies this
      ensures Valid() && rank == old(rank) && SameBound(old(slots), slots)
      ensures names == old(names) && counter == old(counter) && drawn == old(drawn)
      ensures Preserves(old(slots), old(rank), slots, rank)
      ensures Bounded(t, |old(slots)|)
      ensures found <==> Mentions(Resolve(old(slots), old(rank), t), v)
      decreases r, t, 1
    {
      ghost var s0 := slots;
      BelowBounded(rank, t, r);
      var p := Prune(t);
      HeadResolve(s0, rank, t);
      if p == TVar(v) {
        ResolveFree(s0, rank, v);
        found := true;
      } else if p.TOp? {
        ghost var s1 := slots;
        ghost var r' := r;
        if t.TVar? {
          HeadBelowVar(s0, rank, t.id);
          r' := rank[t.id];
        }
        found := OccursIn(v, p, r');
        PreservesTrans(s0, rank, s1, rank, slots, rank);
        ResolveOp(s0, rank, p.name, p.args);
        ghost var xs := ResolveAll(s0, rank, p.args);
        forall k | 0 <= k < |p.args| ensures xs[k] == Resolve(s1, rank, p.args[k]) {
        }
        if found {
          ghost var k :| 0 <= k < |p.args| && Mentions(Resolve(s1, rank, p.args[k]), v);
          assert Mentions(xs[k], v);
        }
        assert found <==> Mentions(TOp(p.name, xs), v);
      } else {
        ResolveFree(s0, rank, p.id);
        found := false;
      }
    }

    /** `occurs_in`: whether `v` occurs in what some constituent of the operator `p` denotes. */
    method OccursIn(v: nat, p: Type, ghost r: nat) returns (found: bool)
      requires Valid() && p.TOp? && Below(rank, p, r)
      modifies this
      ensures Valid() && rank == old(rank) && SameBound(old(slots), slots)
      ensures names == old(names) && counter == old(counter) && drawn == old(drawn)
      ensures Preserves(old(slots), old(rank), slots, rank)
      ensures Bounded(p, |old(slots)|)
      ensures found <==> exists k :: 0 <= k < |p.args| && Mentions(Resolve(old(slots), old(rank), p.args[k]), v)
      decreases r, p, 0
    {
      ghost var s0 := slots;
      BelowBounded(rank, p, r);
      PreservesRefl(slots, rank);
      var i := 0;
      while i < |p.args|
        invariant 0 <= i <= |p.args|
        invariant Valid() && rank == old(rank) && SameBound(s0, slots)
        invariant names == old(names) && counter == old(counter) && drawn == old(drawn)
        invariant Preserves(s0, rank, slots, rank)
        invariant forall k :: 0 <= k < i ==> !Mentions(Resolve(s0, rank, p.args[k]), v)
      {
        ghost var s1 := slots;
        found := OccursType(v, p.args[i], r);
        PreservesTrans(s0, rank, s1, rank, slots, rank);
        assert Resolve(s1, rank, p.args[i]) == Resolve(s0, rank, p.args[i]);
        if found {
          return;
        }
        i := i + 1;
      }
      found := false;
    }

    /**
     * `unify`: make `t1` and `t2` denote the same type by binding unbound
     * variables, or fail. Binding an unbound variable is the only change
     * besides path compression, so the substitution is only refined; a
     * change that binds nothing keeps every meaning.
     */
    method Unify(t1: Type, t2: Type) returns (res: Outcome)
      requires Valid() && Bounded(t1, |slots|) && Bounded(t2, |slots|)
      modifies this
      ensures Valid() && |slots| == |old(slots)|
      ensures names == old(names) && counter == old(counter) && drawn == old(drawn)
      ensures Refines(old(slots), old(rank), slots, rank)
      ensures StaysBound(old(slots), slots)
      ensures Unbound(slots) <= old(Unbound(slots))
      ensures Unbound(slots) == old(Unbound(slots)) ==> Preserves(old(slots), old(rank), slots, rank)
      ensures res.Pass? ==> Resolve(slots, rank, t1) == Resolve(slots, rank, t2)
      ensures res.Fail? ==> res.error == TypeMismatch || res.error == RecursiveUnification
      ensures t1 == t2 ==> res == Pass && Preserves(old(slots), old(rank), slots, rank)
      ensures Clash(old(slots), old(rank), t1, t2) ==>
        res == Fail(TypeMismatch) && Preserves(old(slots), old(rank), slots, rank)
      ensures Cyclic(old(slots), old(rank), t1, t2) ==>
        res == Fail(RecursiveUnification) && Preserves(old(slots), old(rank), slots, rank)
      decreases Unbound(slots), Size(Resolve(slots, rank, t1)) + Size(Resolve(slots, rank, t2)),
        if Head(slots, rank, t1).TOp? then 1 else 0
    {
      ghost var s0, k0 := slots, rank;
      var a := Prune(t1);
      ghost var s1 := slots;
      var b := Prune(t2);
      ghost var s2 := slots;
      PruneBoth(s0, s1, s2, rank, t2, b);
      HeadFixed(s0, s2, rank, t1, a);
      HeadFixed(s0, s2, rank, t2, b);
      if a.TVar? {
        res := UnifyVar(t1, t2, a, b, s0);
      } else if b.TVar? {
        UnboundSame(s0, s2);
        res := Unify(b, a);
        PreservesThenRefines(s0, k0, s2, k0, slots, rank);
        if Unbound(slots) == Unbound(s0) {
          PreservesTrans(s0, k0, s2, k0, slots, rank);
        }
        if res.Pass? {
          RefinesKeepsEqual(s0, k0, slots, rank, t1, a);
          RefinesKeepsEqual(s0, k0, slots, rank, t2, b);
        }
      } else if a.name != b.name || |a.args| != |b.args| {
        UnboundSame(s0, s2);
        PreservesRefines(s0, k0, s2, k0);
        res := Fail(TypeMismatch);
      } else {
        UnboundSame(s0, s2);
        res := UnifyArgs(t1, t2, a, b);
        PreservesThenRefines(s0, k0, s2, k0, slots, rank);
        if Unbound(slots) == Unbound(s0) {
          PreservesTrans(s0, k0, s2, k0, slots, rank);
        }
      }
    }

    /** `unify` once the chain of `t1` ends in the unbound variable `a`: bind it, unless that makes a cycle. */
    method UnifyVar(t1: Type, t2: Type, a: Type, b: Type, ghost s0: Slots) returns (res: Outcome)
      requires Valid() && Ranked(s0, rank) && Bounded(t1, |s0|) && Bounded(t2, |s0|)
      requires a.TVar? && a == Head(s0, rank, t1) && b == Head(s0, rank, t2)
      requires Preserves(s0, rank, slots, rank) && SameBound(s0, slots)
      requires Bounded(b, |slots|) && Resolve(slots, rank, b) == Resolve(s0, rank, t2)
      modifies this
      ensures Valid() && |slots| == |s0|
      ensures names == old(names) && counter == old(counter) && drawn == old(drawn)
      ensures Refines(s0, old(rank), slots, rank) && StaysBound(s0, slots)
      ensures Unbound(slots) <= Unbound(s0)
      ensures Unbound(slots) == Unbound(s0) ==> Preserves(s0, old(rank), slots, rank)
      ensures res.Pass? ==> Resolve(slots, rank, t1) == Resolve(slots, rank, t2)
      ensures res.Fail? ==> res == Fail(RecursiveUnification)
      ensures t1 == t2 ==> res == Pass && Preserves(s0, old(rank), slots, rank)
      ensures !Clash(s0, old(rank), t1, t2)
      ensures Cyclic(s0, old(rank), t1, t2) ==>
        res == Fail(RecursiveUnification) && Preserves(s0, old(rank), slots, rank)
    {
      if a != b {
        res := BindUnlessCyclic(t1, t2, a, b, s0);
      } else {
        ghost var k0 := rank;
        UnboundSame(s0, slots);
        PreservesRefines(s0, k0, slots, k0);
        HeadResolve(s0, k0, t1);
        assert Resolve(slots, rank, t1) == Resolve(s0, k0, t1) == Resolve(s0, k0, a) == Resolve(slots, rank, a);
        res := Pass;
      }
    }

    /** The variable `a` ending the chain of `t1` is bound to `b` unless `b` resolves to a type containing it. */
    method BindUnlessCyclic(t1: Type, t2: Type, a: Type, b: Type, ghost s0: Slots) returns (res: Outcome)
      requires Valid() && Ranked(s0, rank) && Bounded(t1, |s0|) && Bounded(t2, |s0|)
      requires a.TVar? && a == Head(s0, rank, t1) && b == Head(s0, rank, t2)
      requires Preserves(s0, rank, slots, rank) && SameBound(s0, slots)
      requires Bounded(b, |slots|) && Resolve(slots, rank, b) == Resolve(s0, rank, t2)
      requires a != b
      modifies this
      ensures Valid() && |slots| == |s0|
      ensures names == old(names) && counter == old(counter) && drawn == old(drawn)
      ensures Refines(s0, old(rank), slots, rank) && StaysBound(s0, slots)
      ensures Unbound(slots) <= Unbound(s0)
      ensures Unbound(slots) == Unbound(s0) ==> Preserves(s0, old(rank), slots, rank)
      ensures res.Pass? ==> Resolve(slots, rank, t1) == Resolve(slots, rank, t2)
      ensures res.Fail? ==> res == Fail(RecursiveUnification)
      ensures !Clash(s0, old(rank), t1, t2) && t1 != t2
      ensures res.Fail? <==> Cyclic(s0, old(rank), t1, t2)
      ensures res.Fail? ==> Preserves(s0, old(rank), slots, rank)
    {
      ghost var k0 := rank;
      BoundedBelowTop(rank, b);
      var occurs := OccursType(a.id, b, Top(rank));
      ghost var s3 := slots;
      PreservesTrans(s0, k0, old(slots), k0, s3, k0);
      assert SameBound(s0, s3);
      UnboundSame(s0, s3);
      if occurs {
        res := Fail(RecursiveUnification);
        PreservesRefines(s0, k0, s3, k0);
        return;
      }
      BindVar(s0, s3, k0, t1, t2, a.id, b);
      rank := Rerank(slots, rank, a.id);
      slots := slots[a.id := Some(b)];
      res := Pass;
    }

    /**
     * The constituents of two operators with the same name and arity,
     * unified pairwise from left to right; the first failure stops the loop.
     */
    method UnifyArgs(t1: Type, t2: Type, a: Type, b: Type) returns (res: Outcome)
      requires Valid() && Bounded(t1, |slots|) && Bounded(t2, |slots|)
      requires a.TOp? && b.TOp? && a.name == b.name && |a.args| == |b.args|
      requires Bounded(a, |slots|) && Bounded(b, |slots|)
      requires Resolve(slots, rank, a) == Resolve(slots, rank, t1)
      requires Resolve(slots, rank, b) == Resolve(slots, rank, t2)
      modifies this
      ensures Valid() && |slots| == |old(slots)|
      ensures names == old(names) && counter == old(counter) && drawn == old(drawn)
      ensures Refines(old(slots), old(rank), slots, rank)
      ensures StaysBound(old(slots), slots)
      ensures Unbound(slots) <= old(Unbound(slots))
      ensures Unbound(slots) == old(Unbound(slots)) ==> Preserves(old(slots), old(rank), slots, rank)
      ensures res.Pass? ==> Resolve(slots, rank, t1) == Resolve(slots, rank, t2)
      ensures res.Fail? ==> res.error == TypeMismatch || res.error == RecursiveUnification
      ensures a == b ==> res == Pass && Preserves(old(slots), old(rank), slots, rank)
      decreases Unbound(slots), Size(Resolve(slots, rank, t1)) + Size(Resolve(slots, rank, t2)), 0
    {
      ghost var s0, k0 := slots, rank;
      PreservesRefl(s0, k0);
      var i := 0;
      while i < |a.args|
        invariant 0 <= i <= |a.args|
        invariant Valid() && |slots| == |s0|
        invariant names == old(names) && counter == old(counter) && drawn == old(drawn)
        invariant Refines(s0, k0, slots, rank) && StaysBound(s0, slots)
        invariant Unbound(slots) <= Unbound(s0)
        invariant Unbound(slots) == Unbound(s0) ==> Preserves(s0, k0, slots, rank)
        invariant a == b ==> Preserves(s0, k0, slots, rank)
        invariant Resolve(slots, rank, Prefix(a, i)) == Resolve(slots, rank, Prefix(b, i))
      {
        assert Bounded(a.args[i], |slots|) && Bounded(b.args[i], |slots|);
        if Unbound(slots) == Unbound(s0) {
          ArgsSmaller(s0, slots, k0, rank, t1, t2, a, b, i);
        }
        res := UnifyStep(a, b, i, s0, k0);
        if res.Fail? {
          return;
        }
        i := i + 1;
      }
      res := Pass;
      assert Prefix(a, i) == a && Prefix(b, i) == b;
      OpsDone(s0, slots, k0, rank, t1, t2, a, b);
    }

    /** One iteration of the loop of `UnifyArgs`: the `i`-th constituents. */
    method UnifyStep(a: Type, b: Type, i: nat, ghost s0: Slots, ghost k0: seq<nat>) returns (res: Outcome)
      requires Valid() && |slots| == |s0|
      requires a.TOp? && b.TOp? && a.name == b.name && |a.args| == |b.args| && i < |a.args|
      requires Bounded(a, |slots|) && Bounded(b, |slots|)
      requires Refines(s0, k0, slots, rank) && StaysBound(s0, slots) && Unbound(slots) <= Unbound(s0)
      requires Unbound(slots) == Unbound(s0) ==> Preserves(s0, k0, slots, rank)
      requires a == b ==> Preserves(s0, k0, slots, rank)
      requires Resolve(slots, rank, Prefix(a, i)) == Resolve(slots, rank, Prefix(b, i))
      modifies this
      ensures Valid() && |slots| == |s0|
      ensures names == old(names) && counter == old(counter) && drawn == old(drawn)
      ensures Refines(s0, k0, slots, rank) && StaysBound(s0, slots) && Unbound(slots) <= Unbound(s0)
      ensures Unbound(slots) == Unbound(s0) ==> Preserves(s0, k0, slots, rank)
      ensures res.Fail? ==> res.error == TypeMismatch || res.error == RecursiveUnification
      ensures a == b ==> res == Pass && Preserves(s0, k0, slots, rank)
      ensures res.Pass? ==> Resolve(slots, rank, Prefix(a, i + 1)) == Resolve(slots, rank, Prefix(b, i + 1))
      decreases Unbound(slots), Size(Resolve(slots, rank, a.args[i])) + Size(Resolve(slots, rank, b.args[i])), 2
    {
      ghost var sc, kc := slots, rank;
      res := Unify(a.args[i], b.args[i]);
      RefinesTrans(s0, k0, sc, kc, slots, rank);
      if Unbound(slots) == Unbound(s0) {
        PreservesTrans(s0, k0, sc, kc, slots, rank);
      }
      if res.Pass? {
        RefinesKeepsEqual(sc, kc, slots, rank, Prefix(a, i), Prefix(b, i));
        PrefixExtends(slots, rank, a, b, i);
      }
    }
  
    /**
     * `fresh`: a copy of what `t` denotes. When the specific set does not
     * hold the key every variable is stored under, all variables are
     * generic, and the mapping (whose keys coerce to one string as well)
     * sends all of them to the single variable drawn for the first one
     * met; otherwise the type is copied with its own variables.
     */
    method Fresh(t: Type, generic: bool) returns (f: Type)
      requires Valid() && Bounded(t, |slots|)
      modifies this
      ensures Valid() && RankKept(old(rank), rank) && BoundKept(old(slots), slots)
      ensures names == old(names) && counter == old(counter) && drawn == old(drawn)
      ensures Preserves(old(slots), old(rank), slots, rank)
      ensures var R := Resolve(old(slots), old(rank), t);
        && |slots| == |old(slots)| + (if generic && HasVar(R) then 1 else 0)
        && f == Instance(R, generic, if generic && HasVar(R) then Some(|old(slots)|) else None)
      ensures forall i :: |old(slots)| <= i < |slots| ==> slots[i].None?
      ensures Bounded(f, |slots|)
    {
      BoundedBelowTop(rank, t);
      var m;
      f, m := FreshRec(t, Top(rank), generic, None);
    }

    /** `freshrec`: the copy of `tp`, given the variable `m` drawn so far, if any. */
    method FreshRec(tp: Type, ghost r: nat, generic: bool, m: Option<nat>) returns (f: Type, m': Option<nat>)
      requires Valid() && Below(rank, tp, r)
      requires m.Some? ==> m.value < |slots| && slots[m.value].None?
      modifies this
      ensures Valid() && RankKept(old(rank), rank) && BoundKept(old(slots), slots)
      ensures names == old(names) && counter == old(counter) && drawn == old(drawn)
      ensures Preserves(old(slots), old(rank), slots, rank)
      ensures Bounded(tp, |old(slots)|)
      ensures var R := Resolve(old(slots), old(rank), tp);
        && m' == (if generic && m.None? && HasVar(R) then Some(|old(slots)|) else m)
        && f == Instance(R, generic, m')
      ensures |slots| == |old(slots)| + (if m' == m then 0 else 1)
      ensures m'.Some? ==> m'.value < |slots| && slots[m'.value].None?
      ensures Bounded(f, |slots|)
      decreases r, tp, 2
    {
      ghost var s0, k0 := slots, rank;
      BelowBounded(rank, tp, r);
      var p := Prune(tp);
      ghost var s1 := slots;
      HeadFixed(s0, s1, rank, tp, p);
      if p.TVar? {
        ResolveFree(s1, rank, p.id);
        if !generic {
          f, m' := p, m;
        } else if m.None? {
          f := NewVar();
          m' := Some(f.id);
          PreservesTrans(s0, k0, s1, k0, slots, rank);
        } else {
          f, m' := TVar(m.value), m;
        }
      } else {
        ghost var r' := r;
        if tp.TVar? {
          HeadBelowVar(s0, rank, tp.id);
          r' := rank[tp.id];
        }
        var fs;
        fs, m' := FreshArgs(p, r', generic, m);
        f := TOp(p.name, fs);
        PreservesTrans(s0, k0, s1, k0, slots, rank);
        ResolveOp(s1, k0, p.name, p.args);
        ghost var xs := ResolveAll(s1, k0, p.args);
        InstanceOp(p.name, xs, fs, generic, m');
        HasVarOp(p.name, xs);
      }
    }

    /** The loop of `freshrec` over the constituents of the operator `p`. */
    method FreshArgs(p: Type, ghost r: nat, generic: bool, m: Option<nat>) returns (fs: seq<Type>, m': Option<nat>)
      requires Valid() && p.TOp? && Below(rank, p, r)
      requires m.Some? ==> m.value < |slots| && slots[m.value].None?
      modifies this
      ensures Valid() && RankKept(old(rank), rank) && BoundKept(old(slots), slots)
      ensures names == old(names) && counter == old(counter) && drawn == old(drawn)
      ensures Preserves(old(slots), old(rank), slots, rank)
      ensures Bounded(p, |old(slots)|)
      ensures AllBounded(p.args, |old(slots)|)
      ensures m' == (if generic && m.None? && AnyVar(ResolveAll(old(slots), old(rank), p.args)) then Some(|old(slots)|) else m)
      ensures |slots| == |old(slots)| + (if m' == m then 0 else 1)
      ensures m'.Some? ==> m'.value < |slots| && slots[m'.value].None?
      ensures |fs| == |p.args|
      ensures forall k :: 0 <= k < |fs| ==>
        fs[k] == Instance(Resolve(old(slots), old(rank), p.args[k]), generic, m') && Bounded(fs[k], |slots|)
      decreases r, p, 1
    {
      ghost var s0, k0 := slots, rank;
      BelowBounded(rank, p, r);
      ResolveOp(s0, k0, p.name, p.args);
      ghost var xs := ResolveAll(s0, k0, p.args);
      PreservesRefl(slots, rank);
      fs, m' := [], m;
      var i := 0;
      while i < |p.args|
        invariant 0 <= i <= |p.args| && |fs| == i
        invariant Valid() && RankKept(k0, rank) && BoundKept(s0, slots)
        invariant names == old(names) && counter == old(counter) && drawn == old(drawn)
        invariant Preserves(s0, k0, slots, rank)
        invariant m' == (if generic && m.None? && AnyVar(xs[..i]) then Some(|s0|) else m)
        invariant |slots| == |s0| + (if m' == m then 0 else 1)
        invariant m'.Some? ==> m'.value < |slots| && slots[m'.value].None?
        invariant Copies(xs, fs, generic, m', |slots|)
      {
        fs, m' := FreshArg(p, r, generic, m, i, fs, m', s0, k0, xs);
        i := i + 1;
      }
      assert xs[..i] == xs;
    }

    /** One iteration of the loop of `FreshArgs`: the copy of the `i`-th constituent is appended. */
    method FreshArg(p: Type, ghost r: nat, generic: bool, m0: Option<nat>, i: nat, fs: seq<Type>, m: Option<nat>,
                    ghost s0: Slots, ghost k0: seq<nat>, ghost xs: seq<Type>) returns (fs': seq<Type>, m': Option<nat>)
      requires Valid() && p.TOp? && Below(k0, p, r) && i < |p.args| && |fs| == i
      requires Ranked(s0, k0) && AllBounded(p.args, |s0|) && xs == ResolveAll(s0, k0, p.args)
      requires RankKept(k0, rank) && BoundKept(s0, slots) && Preserves(s0, k0, slots, rank)
      requires m == (if generic && m0.None? && AnyVar(xs[..i]) then Some(|s0|) else m0)
      requires |slots| == |s0| + (if m == m0 then 0 else 1)
      requires m.Some? ==> m.value < |slots| && slots[m.value].None?
      requires Copies(xs, fs, generic, m, |slots|)
      modifies this
      ensures Valid() && |fs'| == i + 1
      ensures RankKept(k0, rank) && BoundKept(s0, slots) && Preserves(s0, k0, slots, rank)
      ensures names == old(names) && counter == old(counter) && drawn == old(drawn)
      ensures m' == (if generic && m0.None? && AnyVar(xs[..i + 1]) then Some(|s0|) else m0)
      ensures |slots| == |s0| + (if m' == m0 then 0 else 1)
      ensures m'.Some? ==> m'.value < |slots| && slots[m'.value].None?
      ensures Copies(xs, fs', generic, m', |slots|)
      decreases r, p, 0
    {
      ghost var sb, kb := slots, rank;
      BelowTransfer(k0, rank, p.args[i], r);
      var x;
      x, m' := FreshRec(p.args[i], r, generic, m);
      PreservesTrans(s0, k0, sb, kb, slots, rank);
      assert Resolve(sb, kb, p.args[i]) == xs[i];
      AnyVarStep(xs, i);
      CopiesExtend(xs, fs, x, generic, m, m', |sb|, |slots|);
      fs' := fs + [x];
    }
  
    /**
     * `pretty_print`: the text of what `t` denotes, following instances and
     * naming unbound variables as they are met, left to right.
     */
    method PrettyPrint(t: Type, ghost r: nat) returns (res: Result<string>)
      requires Valid() && Below(rank, t, r)
      modifies this
      ensures Valid() && slots == old(slots) && rank == old(rank) && Bounded(t, |slots|)
      ensures Agrees(res, names, drawn, Render(Resolve(slots, rank, t), old(names), old(drawn)))
      decreases r, t, 3
    {
      BelowBounded(rank, t, r);
      if t.TVar? {
        if slots[t.id].Some? {
          ResolveBound(slots, rank, t.id);
          res := PrettyPrint(slots[t.id].value, rank[t.id]);
        } else {
          ResolveFree(slots, rank, t.id);
          var name := GetName(t.id);
          res := Ok(name);
        }
      } else {
        ResolveOp(slots, rank, t.name, t.args);
        ghost var R := Resolve(slots, rank, t);
        assert R.args == ResolveAll(slots, rank, t.args);
        if t.name == "->" {
          res := PrettyArrow(t, r);
        } else if t.name == "List" {
          res := PrettyList(t, r);
        } else if t.name == "." {
          res := PrettyPair(t, r);
        } else {
          res := Ok(t.name);
          assert RenderArgs(R, 0, names, drawn) == Ok(Parts([], names, drawn));
        }
      }
    }

    /** `pretty_print` of a list type: `(t)`. */
    method PrettyList(t: Type, ghost r: nat) returns (res: Result<string>)
      requires Valid() && t.TOp? && t.name == "List" && Below(rank, t, r)
      modifies this
      ensures Valid() && slots == old(slots) && rank == old(rank) && Bounded(t, |slots|)
      ensures Agrees(res, names, drawn, Render(Resolve(slots, rank, t), old(names), old(drawn)))
      decreases r, t, 2
    {
      BelowBounded(rank, t, r);
      ResolveOp(slots, rank, t.name, t.args);
      ghost var R := Resolve(slots, rank, t);
      assert R.args == ResolveAll(slots, rank, t.args);
      if |t.args| == 0 {
        res := Err(PrintError);
      } else {
        var x := PrettyPrint(t.args[0], r);
        if x.Err? {
          res := Err(x.error);
        } else {
          res := Ok("(" + x.value + ")");
          assert RenderArgs(R, 0, old(names), old(drawn)) == Ok(Parts([], old(names), old(drawn)));
          assert [] + [x.value] == [x.value];
        }
      }
    }

    /** `pretty_print` of a pair type: `(t1 . t2)`. */
    method PrettyPair(t: Type, ghost r: nat) returns (res: Result<string>)
      requires Valid() && t.TOp? && t.name == "." && Below(rank, t, r)
      modifies this
      ensures Valid() && slots == old(slots) && rank == old(rank) && Bounded(t, |slots|)
      ensures Agrees(res, names, drawn, Render(Resolve(slots, rank, t), old(names), old(drawn)))
      decreases r, t, 2
    {
      BelowBounded(rank, t, r);
      ResolveOp(slots, rank, t.name, t.args);
      ghost var R := Resolve(slots, rank, t);
      assert R.args == ResolveAll(slots, rank, t.args);
      if |t.args| < 2 {
        res := Err(PrintError);
      } else {
        var x := PrettyPrint(t.args[0], r);
        if x.Err? {
          res := Err(x.error);
          assert RenderArgs(R, 1, old(names), old(drawn)).Err?;
        } else {
          assert RenderArgs(R, 0, old(names), old(drawn)) == Ok(Parts([], old(names), old(drawn)));
          assert [] + [x.value] == [x.value];
          assert RenderArgs(R, 1, old(names), old(drawn)) == Ok(Parts([x.value], names, drawn));
          var y := PrettyPrint(t.args[1], r);
          if y.Err? {
            res := Err(y.error);
            assert RenderArgs(R, 2, old(names), old(drawn)).Err?;
          } else {
            res := Ok("(" + x.value + " . " + y.value + ")");
            assert [x.value] + [y.value] == [x.value, y.value];
            assert RenderArgs(R, 2, old(names), old(drawn)) == Ok(Parts([x.value, y.value], names, drawn));
          }
        }
      }
    }

    /** `pretty_print` of a function type: `(t1 -> t2 -> … -> tn)`, built up left to right. */
    method PrettyArrow(t: Type, ghost r: nat) returns (res: Result<string>)
      requires Valid() && t.TOp? && t.name == "->" && Below(rank, t, r)
      modifies this
      ensures Valid() && slots == old(slots) && rank == old(rank) && Bounded(t, |slots|)
      ensures Agrees(res, names, drawn, Render(Resolve(slots, rank, t), old(names), old(drawn)))
      decreases r, t, 2
    {
      BelowBounded(rank, t, r);
      ResolveOp(slots, rank, t.name, t.args);
      ghost var R := Resolve(slots, rank, t);
      assert R.args == ResolveAll(slots, rank, t.args);
      if |t.args| == 0 {
        return Err(PrintError);
      }
      RenderArrow(R, old(names), old(drawn));
      var first := PrettyPrint(t.args[0], r);
      RenderArgsNext(R, 0, old(names), old(drawn), Parts([], old(names), old(drawn)));
      if first.Err? {
        return Err(first.error);
      }
      assert [] + [first.value] == [first.value];
      res := PrettyArrowRest(t, r, R, 1, "(" + first.value, old(names), old(drawn));
    }

    /**
     * The state of the loop of `pretty_print` over a function type `t` that
     * denotes `R`: `text` is `"("` followed by the first `i` constituents
     * printed and joined by arrows, and the names and the counter are where
     * printing them from `names0` and `drawn0` left them.
     */
    ghost predicate ArrowSoFar(t: Type, r: nat, R: Type, i: nat, text: string, names0: map<nat, string>, drawn0: nat)
      reads this
    {
      && Valid() && t.TOp? && Below(rank, t, r) && Bounded(t, |slots|) && 1 <= i <= |t.args|
      && R == Resolve(slots, rank, t) && R.TOp? && |R.args| == |t.args|
      && var ps := RenderArgs(R, i, names0, drawn0);
         ps.Ok? && ps.value.names == names && ps.value.drawn == drawn && text == "(" + Join(ps.value.texts, " -> ")
    }

    /** The loop of `pretty_print` over the constituents of a function type after the first. */
    method PrettyArrowRest(t: Type, ghost r: nat, ghost R: Type, i0: nat, text0: string,
                           ghost names0: map<nat, string>, ghost drawn0: nat) returns (res: Result<string>)
      requires ArrowSoFar(t, r, R, i0, text0, names0, drawn0)
      modifies this
      ensures Valid() && slots == old(slots) && rank == old(rank)
      ensures var ps := RenderArgs(R, |t.args|, names0, drawn0);
        && (res.Ok? <==> ps.Ok?)
        && (res.Ok? ==> res.value == "(" + Join(ps.value.texts, " -> ") + ")"
                        && names == ps.value.names && drawn == ps.value.drawn)
      decreases r, t, 1
    {
      var text := text0;
      var i := i0;
      while i < |t.args|
        invariant slots == old(slots) && rank == old(rank)
        invariant ArrowSoFar(t, r, R, i, text, names0, drawn0)
      {
        var next := PrettyArrowStep(t, r, R, i, text, names0, drawn0);
        if next.Err? {
          return Err(next.error);
        }
        text := next.value;
        i := i + 1;
      }
      res := Ok(text + ")");
    }

    /** One iteration of the loop of `PrettyArrowRest`: the `i`-th constituent. */
    method PrettyArrowStep(t: Type, ghost r: nat, ghost R: Type, i: nat, text: string,
                           ghost names0: map<nat, string>, ghost drawn0: nat) returns (res: Result<string>)
      requires ArrowSoFar(t, r, R, i, text, names0, drawn0) && i < |t.args|
      modifies this
      ensures slots == old(slots) && rank == old(rank)
      ensures res.Err? ==> Valid() && RenderArgs(R, |t.args|, names0, drawn0).Err?
      ensures res.Ok? ==> ArrowSoFar(t, r, R, i + 1, res.value, names0, drawn0)
      decreases r, t, 0
    {
      ghost var texts := RenderArgs(R, i, names0, drawn0).value.texts;
      ResolveOp(slots, rank, t.name, t.args);
      assert R.args == ResolveAll(slots, rank, t.args);
      ghost var ps := Parts(texts, names, drawn);
      var x := PrettyPrint(t.args[i], r);
      RenderArgsNext(R, i, names0, drawn0, ps);
      if x.Err? {
        return Err(x.error);
      }
      JoinNext("(", texts, x.value, " -> ");
      res := Ok(text + (" -> " + x.value));
    }
  }
}
