/**
 * The two maps the inference rules thread through a program: the type
 * environment and the set of specific (non-generic) variables. Both are
 * plain JavaScript objects in the source, updated in place and copied by
 * `clone`.
 *
 * An object inherits a few names from `Object.prototype`; looking one of
 * them up in an environment that does not bind it yields a function, not a
 * type. The specific set only ever receives type variables as keys, and a
 * type variable converts to the one key "[object Object]", so all that
 * matters about it is whether that key has been set.
 */
module Environment {
  import opened Types

  /** The names every object inherits from `Object.prototype`. */
  const Inherited: set<string> := {
    "constructor", "hasOwnProperty", "isPrototypeOf", "propertyIsEnumerable",
    "toLocaleString", "toString", "valueOf", "__defineGetter__", "__defineSetter__",
    "__lookupGetter__", "__lookupSetter__", "__proto__"
  }

  /** What `env[name]` yields: a type, an inherited function, or `undefined`. */
  datatype Found = Bound(t: Type) | Foreign | Missing

  class Env {
    var bindings: map<string, Type>

    constructor (b: map<string, Type>)
      ensures bindings == b
    {
      bindings := b;
    }

    /** `env[name]`: an own binding first, then what the prototype supplies. */
    function Get(name: string): (r: Found)
      reads this
      ensures r.Bound? <==> name in bindings
      ensures r.Foreign? <==> name !in bindings && name in Inherited
    {
      if name in bindings then Bound(bindings[name])
      else if name in Inherited then Foreign
      else Missing
    }

    /** `env[name] = t` */
    method Set(name: string, t: Type)
      modifies this
      ensures bindings == old(bindings)[name := t]
    {
      bindings := bindings[name := t];
    }

    /** Every bound type lives in an arena of `n` slots. */
    ghost predicate Fits(n: nat)
      reads this
    {
      forall k :: k in bindings ==> Bounded(bindings[k], n)
    }

    /** Growing the arena keeps every binding inside it. */
    lemma FitsGrow(n: nat, m: nat)
      requires Fits(n) && n <= m
      ensures Fits(m)
    {
      forall k | k in bindings ensures Bounded(bindings[k], m) {
        BoundedMono(bindings[k], n, m);
      }
    }

    /**
     * `clone`: a new object with the same own bindings, copied key by key.
     * An own binding named `hasOwnProperty` hides the method the copy loop
     * calls on its first key, and the copy fails.
     */
    method Clone() returns (r: Result<Env>)
      ensures r.Ok? <==> "hasOwnProperty" !in bindings
      ensures r.Ok? ==> fresh(r.value) && r.value.bindings == bindings
      ensures r.Err? ==> r.error == Malformed
    {
      var copy := map[];
      var todo := bindings.Keys;
      while todo != {}
        invariant todo <= bindings.Keys
        invariant "hasOwnProperty" in bindings ==> "hasOwnProperty" in todo
        invariant copy == map k | k in bindings && k !in todo :: bindings[k]
        decreases todo
      {
        if "hasOwnProperty" in bindings {
          return Err(Malformed);
        }
        var k :| k in todo;
        copy := copy[k := bindings[k]];
        todo := todo - {k};
      }
      var e := new Env(copy);
      r := Ok(e);
    }
  }

  class SpecificSet {
    /** The key "[object Object]", which every type variable converts to, is present. */
    var marked: bool

    /** `{}` */
    constructor ()
      ensures !marked
    {
      marked := false;
    }

    /** `specific[v] = true` for a type variable `v`. */
    method Mark()
      modifies this
      ensures marked
    {
      marked := true;
    }

    /** `clone` of a specific set. */
    method Clone() returns (c: SpecificSet)
      ensures fresh(c) && c.marked == marked
    {
      c := new SpecificSet();
      c.marked := marked;
    }

    /**
     * `is_generic(v, specific)`: no key of the set is loosely equal to `v`;
     * since `v` converts to "[object Object]", the answer does not depend
     * on `v`.
     */
    function IsGeneric(): bool
      reads this
    {
      !marked
    }
  }
}
