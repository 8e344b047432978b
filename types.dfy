/**
 * The type algebra of the inference engine: type variables and type
 * operators, the operator constructors and the base types.
 *
 * A type variable is identified by its numeric id; its mutable `instance`
 * slot and its memoized display name live in the arena held by
 * `Engine.Session`, indexed by that id.
 */
module Types {

  datatype Option<T> = None | Some(value: T)

  datatype Result<T> = Ok(value: T) | Err(error: Error)

  /** The failures the engine raises, one per distinct `throw` in the source. */
  datatype Error =
    | PruneError          // "prune error": a looked-up value is not a type
    | RecursiveUnification
    | TypeMismatch
    | ParseError          // get_type: an atom that is neither bound nor a literal name
    | SetError            // set! on a name with no binding
    | QuoteError          // quote with more than one operand
    | Malformed           // a form too short or of a shape the source indexes into blindly
    | PrintError          // pretty_print reaching a missing constituent

  datatype Type =
    | TVar(id: nat)
    | TOp(name: string, args: seq<Type>)

  function Fn(ts: seq<Type>): Type { TOp("->", ts) }

  function Pair(p1: Type, p2: Type): Type { TOp(".", [p1, p2]) }

  function List(t: Type): Type { TOp("List", [t]) }

  const Int: Type := TOp("Int", [])
  const Bool: Type := TOp("Bool", [])
  const Char: Type := TOp("Char", [])
  const String: Type := TOp("String", [])
  const Symbol: Type := TOp("Symbol", [])
  const Nil: Type := TOp("Nil", [])

  /** Every variable of `t` is an index of an arena with `n` slots. */
  predicate Bounded(t: Type, n: nat)
  {
    match t
    case TVar(i) => i < n
    case TOp(_, args) => forall k :: 0 <= k < |args| ==> Bounded(args[k], n)
  }

  predicate AllBounded(ts: seq<Type>, n: nat)
  {
    forall k :: 0 <= k < |ts| ==> Bounded(ts[k], n)
  }

  /** `t` mentions the variable `v`. */
  predicate Mentions(t: Type, v: nat)
  {
    match t
    case TVar(i) => i == v
    case TOp(_, args) => exists k :: 0 <= k < |args| && Mentions(args[k], v)
  }

  predicate HasVar(t: Type)
  {
    match t
    case TVar(_) => true
    case TOp(_, args) => exists k :: 0 <= k < |args| && HasVar(args[k])
  }

  function Size(t: Type): nat
  {
    match t
    case TVar(_) => 1
    case TOp(_, args) => 1 + SizeOf(args)
  }

  function SizeOf(ts: seq<Type>): nat
  {
    if ts == [] then 0 else Size(ts[0]) + SizeOf(ts[1..])
  }

  lemma {:induction false} SizeOfElement(ts: seq<Type>, k: nat)
    requires k < |ts|
    ensures Size(ts[k]) <= SizeOf(ts)
    decreases ts
  {
    if k > 0 {
      SizeOfElement(ts[1..], k - 1);
    }
  }

  lemma {:induction false} BoundedMono(t: Type, n: nat, m: nat)
    requires Bounded(t, n) && n <= m
    ensures Bounded(t, m)
    decreases t
  {
    match t
    case TVar(_) =>
    case TOp(_, args) =>
      forall k | 0 <= k < |args| ensures Bounded(args[k], m) {
        BoundedMono(args[k], n, m);
      }
  }

  /** Replace the variable `v` by `b` everywhere in `t`. */
  function Subst(t: Type, v: nat, b: Type): (r: Type)
    ensures !Mentions(t, v) ==> r == t
    decreases t
  {
    match t
    case TVar(i) => if i == v then b else t
    case TOp(n, args) =>
      var args' := seq(|args|, k requires 0 <= k < |args| => Subst(args[k], v, b));
      assert !Mentions(t, v) ==> args' == args;
      TOp(n, args')
  }

  /** The outcome of a unification: success, or the error it raises. */
  datatype Outcome = Pass | Fail(error: Error)

  /** Replace every variable of `t` by `x`. */
  function ReplaceVars(t: Type, x: Type): (r: Type)
    ensures !HasVar(t) ==> r == t
    decreases t
  {
    match t
    case TVar(_) => x
    case TOp(n, args) =>
      var args' := seq(|args|, k requires 0 <= k < |args| => ReplaceVars(args[k], x));
      assert !HasVar(t) ==> args' == args;
      TOp(n, args')
  }

  lemma {:induction false} ReplaceVarsBounded(t: Type, x: nat, n: nat)
    requires Bounded(t, n) && (HasVar(t) ==> x < n)
    ensures Bounded(ReplaceVars(t, TVar(x)), n)
    decreases t
  {
    match t
    case TVar(_) =>
    case TOp(_, args) =>
      forall k | 0 <= k < |args| ensures Bounded(ReplaceVars(args[k], TVar(x)), n) {
        if HasVar(args[k]) { assert HasVar(t); }
        ReplaceVarsBounded(args[k], x, n);
      }
  }

  /**
   * What `fresh` makes of a resolved type: with a generic specific set and a
   * new variable `m` drawn, every variable becomes that one variable;
   * otherwise the type is copied as it is.
   */
  function Instance(t: Type, generic: bool, m: Option<nat>): Type
  {
    if generic && m.Some? then ReplaceVars(t, TVar(m.value)) else t
  }

  /** Same operators, names and arities, with variables where the other has variables. */
  predicate SameShape(t: Type, u: Type)
  {
    match t
    case TVar(_) => u.TVar?
    case TOp(n, args) =>
      && u.TOp? && u.name == n && |u.args| == |args|
      && forall k :: 0 <= k < |args| ==> SameShape(args[k], u.args[k])
  }

  /** Replacing variables keeps every operator's name and arity. */
  lemma {:induction false} ReplaceVarsShape(t: Type, x: nat)
    ensures SameShape(t, ReplaceVars(t, TVar(x)))
    decreases t
  {
    match t
    case TVar(_) =>
    case TOp(n, args) =>
      forall k | 0 <= k < |args| ensures SameShape(args[k], ReplaceVars(t, TVar(x)).args[k]) {
        ReplaceVarsShape(args[k], x);
      }
  }

  /** After replacing every variable by `x`, `x` is the only variable left. */
  lemma {:induction false} ReplaceVarsOnly(t: Type, x: nat, v: nat)
    requires Mentions(ReplaceVars(t, TVar(x)), v)
    ensures v == x
    decreases t
  {
    match t
    case TVar(_) =>
    case TOp(n, args) =>
      var k :| 0 <= k < |args| && Mentions(ReplaceVars(t, TVar(x)).args[k], v);
      ReplaceVarsOnly(args[k], x, v);
  }

  lemma AllBoundedMono(ts: seq<Type>, n: nat, m: nat)
    requires AllBounded(ts, n) && n <= m
    ensures AllBounded(ts, m)
  {
    forall k | 0 <= k < |ts| ensures Bounded(ts[k], m) {
      BoundedMono(ts[k], n, m);
    }
  }
}
