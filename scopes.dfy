/**
 * An environment chain seen as data: the binding maps of its frames,
 * innermost first. These functions are the reference meaning of the
 * in-place operations on `Frames.Frame`.
 */
module Scopes {
  import opened Values

  type Scope = seq<map<string, Value>>

  /** The position of the innermost frame that binds `v`, or `|sc|` when none does. */
  function Holder(sc: Scope, v: string): (k: nat)
    ensures k <= |sc|
    ensures forall j :: 0 <= j < k ==> v !in sc[j]
    ensures k < |sc| ==> v in sc[k]
    decreases |sc|
  {
    if sc == [] then 0
    else if v in sc[0] then 0
    else 1 + Holder(sc[1..], v)
  }

  /** What looking `v` up yields: the innermost binding, or `null` when no frame has one. */
  function Find(sc: Scope, v: string): Value
  {
    var k := Holder(sc, v);
    if k < |sc| then sc[k][v] else Null
  }

  /** `add_binding` on the innermost frame. */
  function Define(sc: Scope, v: string, val: Value): (r: Scope)
    requires |sc| >= 1
  {
    sc[0 := sc[0][v := val]]
  }

  /** `update`: the innermost frame that binds `v` now binds it to `val`; no frame binds it, nothing changes. */
  function Rebind(sc: Scope, v: string, val: Value): Scope
  {
    var k := Holder(sc, v);
    if k < |sc| then sc[k := sc[k][v := val]] else sc
  }

  /** Looking up through the first frame. */
  lemma {:induction false} FindFirst(sc: Scope, v: string)
    requires |sc| >= 1
    ensures Find(sc, v) == if v in sc[0] then sc[0][v] else Find(sc[1..], v)
  {
    if v !in sc[0] {
      assert Holder(sc, v) == 1 + Holder(sc[1..], v);
    }
  }

  /** Rebinding through the first frame. */
  lemma {:induction false} RebindFirst(sc: Scope, v: string, val: Value)
    requires |sc| >= 1 && v !in sc[0]
    ensures Holder(sc, v) < |sc| <==> Holder(sc[1..], v) < |sc[1..]|
    ensures Rebind(sc, v, val) == [sc[0]] + Rebind(sc[1..], v, val)
  {
    var k := Holder(sc[1..], v);
    assert Holder(sc, v) == 1 + k;
    if k < |sc[1..]| {
      assert Rebind(sc, v, val) == sc[1 + k := sc[1 + k][v := val]];
      assert Rebind(sc[1..], v, val) == sc[1..][k := sc[1 + k][v := val]];
    }
  }

  /** Two chains whose frames agree on whether they bind `v` put its innermost binding at the same place. */
  lemma {:induction false} HolderAgree(sc: Scope, sc': Scope, v: string)
    requires |sc| == |sc'|
    requires forall j :: 0 <= j < |sc| ==> (v in sc[j] <==> v in sc'[j])
    ensures Holder(sc, v) == Holder(sc', v)
    decreases |sc|
  {
    if sc != [] && v !in sc[0] {
      HolderAgree(sc[1..], sc'[1..], v);
    }
  }

  /** After `add_binding`, the name yields the new value and every other name what it yielded before. */
  lemma FindDefine(sc: Scope, v: string, val: Value, w: string)
    requires |sc| >= 1
    ensures Find(Define(sc, v, val), w) == if w == v then val else Find(sc, w)
  {
    var sc' := Define(sc, v, val);
    if w != v {
      HolderAgree(sc, sc', w);
    }
  }

  /**
   * After `update` of a bound name, the name yields the new value, every
   * other name what it yielded before, and only the innermost frame that
   * binds the name has changed.
   */
  lemma FindRebind(sc: Scope, v: string, val: Value, w: string)
    requires Holder(sc, v) < |sc|
    ensures Find(Rebind(sc, v, val), w) == if w == v then val else Find(sc, w)
    ensures |Rebind(sc, v, val)| == |sc|
    ensures forall j :: 0 <= j < |sc| && j != Holder(sc, v) ==> Rebind(sc, v, val)[j] == sc[j]
  {
    var sc' := Rebind(sc, v, val);
    HolderAgree(sc, sc', w);
  }
}
