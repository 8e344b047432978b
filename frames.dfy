/**
 * The evaluator's environments: JavaScript objects that are either empty
 * (`{}`) or a frame `{bindings: …, outer: …}` whose `bindings` object the
 * evaluator writes into in place. A frame built by `add_binding` on an empty
 * object has bindings and no `outer`.
 */
module Frames {
  import opened Values
  import opened Scopes

  class Frame {
    /** The own keys of the `bindings` object (empty while it is absent). */
    var bindings: map<string, Value>
    /** The object has an own `bindings` property. */
    var hasBindings: bool
    /** The `outer` property; `null` when the object has none. */
    const outer: Frame?
    ghost const depth: nat
    ghost const Repr: set<Frame>

    /** The chain of `outer` links ends, and `Repr` holds exactly its frames. */
    ghost predicate Linked()
      decreases depth
    {
      && this in Repr
      && (outer == null ==> Repr == {this} && depth == 0)
      && (outer != null ==>
            && depth == outer.depth + 1
            && Repr == {this} + outer.Repr
            && this !in outer.Repr
            && outer.Linked())
    }

    /** Every frame of the chain is `{}` or has `bindings`; only the outermost can be `{}`. */
    ghost predicate Valid()
      reads Repr
      decreases depth
    {
      && Linked()
      && (hasBindings || (bindings == map[] && outer == null))
      && (outer != null ==> outer.Valid())
    }

    /** The binding maps of the chain, innermost first. */
    ghost function Scope(): (sc: Scope)
      requires Linked()
      reads Repr
      decreases depth
      ensures |sc| == depth + 1 && sc[0] == bindings
      ensures outer != null ==> sc[1..] == outer.Scope()
    {
      if outer == null then [bindings] else [bindings] + outer.Scope()
    }

    /** `{}` */
    constructor Empty()
      ensures Valid() && outer == null && !hasBindings && Repr == {this}
      ensures Scope() == [map[]]
    {
      bindings := map[];
      hasBindings := false;
      outer := null;
      depth := 0;
      Repr := {this};
    }

    /** `{bindings: b, outer: o}` */
    constructor Extend(b: map<string, Value>, o: Frame)
      requires o.Valid()
      ensures Valid() && outer == o && hasBindings && Repr == {this} + o.Repr
      ensures Scope() == [b] + o.Scope()
    {
      bindings := b;
      hasBindings := true;
      outer := o;
      depth := o.depth + 1;
      Repr := {this} + o.Repr;
    }

    /** `is_empty(env)`: the object has no own property. */
    function IsEmpty(): (r: bool)
      requires Valid()
      reads Repr
      ensures r ==> Scope() == [map[]]
      ensures !r ==> hasBindings
    {
      !hasBindings && outer == null
    }

    /** `lookup(env, v)`: the binding in the innermost frame that has `v`, or `null`. */
    function Lookup(v: string): (r: Value)
      requires Valid()
      reads Repr
      decreases depth
      ensures r == Find(Scope(), v)
    {
      FindFirst(Scope(), v);
      if IsEmpty() then Null
      else if v in bindings then bindings[v]
      else if outer != null then outer.Lookup(v)
      else Null
    }

    /** `add_binding(env, v, val)`: creates `bindings` if it is absent, sets `v`, and returns 0. */
    method AddBinding(v: string, val: Value) returns (r: int)
      requires Valid()
      modifies this
      ensures Valid() && hasBindings
      ensures bindings == old(bindings)[v := val]
      ensures Scope() == Define(old(Scope()), v, val)
      ensures r == 0
    {
      if hasBindings {
        bindings := bindings[v := val];
      } else {
        bindings := map[v := val];
        hasBindings := true;
      }
      r := 0;
    }

    /**
     * `update(env, v, val)`: rebinds `v` in the innermost frame that has it
     * and returns 0; throws when the walk reaches an empty object or runs off
     * the end of the chain.
     */
    method Update(v: string, val: Value) returns (c: Completion)
      requires Valid()
      modifies Repr
      decreases depth
      ensures Valid()
      ensures c == if Holder(old(Scope()), v) < |old(Scope())| then Normal(Number(0)) else Abrupt(UpdateError)
      ensures Scope() == Rebind(old(Scope()), v, val)
    {
      if IsEmpty() {
        c := Abrupt(UpdateError);
      } else if v in bindings {
        var r := AddBinding(v, val);
        c := Normal(Number(r));
      } else if outer == null {
        c := Abrupt(UpdateError);
      } else {
        RebindFirst(Scope(), v, val);
        c := outer.Update(v, val);
      }
    }
  }
}
