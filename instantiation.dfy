/**
 * Facts about `Instance`, the value `fresh` builds from a resolved type,
 * used to assemble the copy of an operator from the copies of its
 * constituents.
 */
module Instantiation {
  import opened Types

  /** The instance of an operator is the operator over the instances of its constituents. */
  lemma InstanceOp(n: string, xs: seq<Type>, fs: seq<Type>, generic: bool, m: Option<nat>)
    requires |fs| == |xs|
    requires forall k :: 0 <= k < |xs| ==> fs[k] == Instance(xs[k], generic, m)
    ensures Instance(TOp(n, xs), generic, m) == TOp(n, fs)
  {
    if generic && m.Some? {
      assert ReplaceVars(TOp(n, xs), TVar(m.value)).args == fs;
    }
  }

  /** `fs` are the copies of the first `|fs|` types of `xs`, over an arena of `n` slots. */
  predicate Copies(xs: seq<Type>, fs: seq<Type>, generic: bool, m: Option<nat>, n: nat)
  {
    && |fs| <= |xs|
    && forall k :: 0 <= k < |fs| ==> fs[k] == Instance(xs[k], generic, m) && Bounded(fs[k], n)
  }

  /** One more copy, made after the arena grew from `n` to `n2` slots and `m` became `m2`. */
  lemma CopiesExtend(xs: seq<Type>, fs: seq<Type>, x: Type, generic: bool, m: Option<nat>, m2: Option<nat>, n: nat, n2: nat)
    requires Copies(xs, fs, generic, m, n) && |fs| < |xs| && n <= n2
    requires m2 != m ==> m.None? && !AnyVar(xs[..|fs|])
    requires x == Instance(xs[|fs|], generic, m2) && Bounded(x, n2)
    ensures Copies(xs, fs + [x], generic, m2, n2)
  {
    forall k | 0 <= k < |fs| ensures fs[k] == Instance(xs[k], generic, m2) && Bounded(fs[k], n2) {
      BoundedMono(fs[k], n, n2);
      if m2 != m {
        assert xs[..|fs|][k] == xs[k];
      }
    }
  }

  /**
   * Drawing the new variable only once a constituent with a variable is met
   * leaves the copies made before it as they are: they had no variable.
   */
  lemma InstancesKept(xs: seq<Type>, fs: seq<Type>, generic: bool, m: Option<nat>, m2: Option<nat>)
    requires |fs| <= |xs|
    requires forall k :: 0 <= k < |fs| ==> fs[k] == Instance(xs[k], generic, m)
    requires m2 != m ==> m.None? && forall k :: 0 <= k < |fs| ==> !HasVar(xs[k])
    ensures forall k :: 0 <= k < |fs| ==> fs[k] == Instance(xs[k], generic, m2)
  {
  }

  /** Some type of `ts` has a variable. */
  predicate AnyVar(ts: seq<Type>)
  {
    exists k :: 0 <= k < |ts| && HasVar(ts[k])
  }

  /** An operator has a variable exactly when one of its constituents has. */
  lemma HasVarOp(n: string, xs: seq<Type>)
    ensures HasVar(TOp(n, xs)) <==> AnyVar(xs)
  {
  }

  lemma AnyVarStep(xs: seq<Type>, i: nat)
    requires i < |xs|
    ensures AnyVar(xs[..i + 1]) <==> AnyVar(xs[..i]) || HasVar(xs[i])
  {
    if AnyVar(xs[..i + 1]) {
      var k :| 0 <= k < i + 1 && HasVar(xs[..i + 1][k]);
      if k < i {
        assert xs[..i][k] == xs[k];
      }
    }
    if AnyVar(xs[..i]) {
      var k :| 0 <= k < i && HasVar(xs[..i][k]);
      assert xs[..i + 1][k] == xs[k];
    }
    if HasVar(xs[i]) {
      assert xs[..i + 1][i] == xs[i];
    }
  }
}
