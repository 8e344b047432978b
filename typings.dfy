/**
 * Typing derivations: what one successful run of `analyse` establishes,
 * rule by rule, about the sub-forms it analysed.
 *
 * A derivation records a form, the environment and the marking of the
 * specific set it was analysed in and the ones it left behind, the number
 * of type variables that existed when its analysis began, its type, the
 * auxiliary types its rule introduced, and the derivations of its
 * sub-forms in the order they were analysed. `Sound` says that every node
 * obeys the rule `analyse` applies to its form, where an equation between
 * two types is read through the current substitution. Unification only
 * refines the substitution, so a derivation once sound stays sound
 * (`SoundRefines`).
 */
module Typings {
  import opened Types
  import opened Graph
  import opened Syntax

  /** The branches of `analyse`. */
  datatype Rule = EmptyList | Data | Let | If | Lambda | Def | SetBang | Defn | LetStar | Dot | Quote | ListOf | Apply | Name

  /** The branch `analyse` takes for a form, tested in the order `analyse` checks them. */
  function RuleOf(e: Expr): Rule
  {
    var tag := Tag(e);
    if e == Node([]) then EmptyList
    else if tag == Some("data") then Data
    else if tag == Some("let") then Let
    else if tag == Some("if") then If
    else if tag == Some("lambda") then Lambda
    else if tag == Some("def") then Def
    else if tag == Some("set!") then SetBang
    else if tag == Some("defn") then Defn
    else if tag == Some("let*") then LetStar
    else if tag == Some(".") then Dot
    else if tag == Some("quote") then Quote
    else if tag == Some("list") then ListOf
    else if e.Node? then Apply
    else Name
  }

  /**
   * The part of `get_type` for a name the environment does not bind: a
   * number or `Int`, `Bool`, `Char` or a character literal (a string
   * starting with a backslash), `String`; anything else is a parse error.
   */
  function Literal(name: Expr): (r: Result<Type>)
    ensures r.Ok? <==>
      || name.Num?
      || name in {Sym("Int"), Sym("Bool"), Sym("Char"), Sym("String")}
      || (name.Sym? && |name.s| > 0 && name.s[0] == '\\')
    ensures r.Ok? ==> !HasVar(r.value) && r.value.args == []
    ensures r.Err? ==> r.error == ParseError
  {
    if name == Sym("Int") || name.Num? then Ok(Int)
    else if name == Sym("Bool") then Ok(Bool)
    else if name == Sym("Char") || (name.Sym? && |name.s| > 0 && name.s[0] == '\\') then Ok(Char)
    else if name == Sym("String") then Ok(String)
    else Err(ParseError)
  }

  /** The atoms of the tests: `4 :: Int` and `\c :: Char`; `#t` is not a literal but a binding of the base environment. */
  lemma LiteralExamples()
    ensures Literal(Num(4)) == Ok(Int)
    ensures Literal(Sym("\\c")) == Ok(Char)
    ensures Literal(Sym("#t")) == Err(ParseError)
  {
  }

  /**
   * The environment `m` with the parameters `ps` bound, in order, to the
   * variables `base`, `base + 1`, …; a later parameter with the same key
   * replaces an earlier one.
   */
  function BindVars(m: map<string, Type>, ps: seq<Expr>, base: nat): map<string, Type>
    decreases |ps|
  {
    if ps == [] then m
    else BindVars(m, ps[..|ps| - 1], base)[Key(ps[|ps| - 1]) := TVar(base + |ps| - 1)]
  }

  /**
   * Binding parameters binds every parameter's key to one of the new
   * variables, its own or a later parameter's, and leaves every other key
   * as it was.
   */
  lemma {:induction false} BindVarsSpec(m: map<string, Type>, ps: seq<Expr>, base: nat)
    ensures forall k :: 0 <= k < |ps| ==>
      var b := BindVars(m, ps, base);
      Key(ps[k]) in b && b[Key(ps[k])].TVar? && base + k <= b[Key(ps[k])].id < base + |ps|
    ensures forall x :: (forall k :: 0 <= k < |ps| ==> Key(ps[k]) != x) ==>
      var b := BindVars(m, ps, base);
      (x in b <==> x in m) && (x in m ==> b[x] == m[x])
    decreases |ps|
  {
    if ps != [] {
      var init := ps[..|ps| - 1];
      BindVarsSpec(m, init, base);
      assert forall k :: 0 <= k < |init| ==> init[k] == ps[k];
    }
  }

  /**
   * One analysed form: `env`/`spec` are the environment and the marking
   * of the specific set it was analysed with, `out`/`specOut` those it
   * left, `base` the number of variables before its analysis, `t` its
   * type, `vars` the types its rule introduced besides, `kids` the
   * derivations of the sub-forms it analysed.
   */
  datatype Typing = Typing(
    form: Expr,
    env: map<string, Type>, out: map<string, Type>,
    spec: bool, specOut: bool,
    base: nat, t: Type, vars: seq<Type>, kids: seq<Typing>)

  /** The types of a sequence of derivations. */
  function Ts(ks: seq<Typing>): (r: seq<Type>)
    ensures |r| == |ks| && forall k :: 0 <= k < |ks| ==> r[k] == ks[k].t
  {
    seq(|ks|, k requires 0 <= k < |ks| => ks[k].t)
  }

  /** The variables `base`, …, `base + n - 1`. */
  function Vars(base: nat, n: nat): (r: seq<Type>)
    ensures |r| == n && forall k :: 0 <= k < n ==> r[k] == TVar(base + k)
  {
    seq(n, k requires 0 <= k < n => TVar(base + k))
  }

  /** The derivations `ks` are those of the forms `fs`, in order. */
  predicate FormsAre(ks: seq<Typing>, fs: seq<Expr>)
  {
    |ks| == |fs| && forall k :: 0 <= k < |ks| ==> ks[k].form == fs[k]
  }

  /** Each of `ks` was analysed in what the one before left, the first in `env` and `spec`. */
  predicate Chained(env: map<string, Type>, spec: bool, ks: seq<Typing>)
  {
    && (|ks| > 0 ==> ks[0].env == env && ks[0].spec == spec)
    && forall j, k :: 0 <= j && k == j + 1 < |ks| ==> ks[k].env == ks[j].out && ks[k].spec == ks[j].specOut
  }

  /** The environment a chain of analyses starting in `env` leaves. */
  function EnvAfter(env: map<string, Type>, ks: seq<Typing>): map<string, Type>
  {
    if ks == [] then env else ks[|ks| - 1].out
  }

  /** The marking a chain of analyses starting with `spec` leaves. */
  function SpecAfter(spec: bool, ks: seq<Typing>): bool
  {
    if ks == [] then spec else ks[|ks| - 1].specOut
  }

  /** The environment of a `let` body: `m` with the name before the `j`-th value bound to `ts[j]`, in order. */
  function LetEnv(m: map<string, Type>, bs: seq<Expr>, ts: seq<Type>): map<string, Type>
    requires 2 * |ts| <= |bs|
    decreases |ts|
  {
    if ts == [] then m
    else LetEnv(m, bs, ts[..|ts| - 1])[Key(bs[2 * (|ts| - 1)]) := ts[|ts| - 1]]
  }

  /** `d` is a derivation of `e` from the given start to the given end. */
  predicate Records(d: Typing, e: Expr, env: map<string, Type>, out: map<string, Type>,
                    spec: bool, specOut: bool, base: nat, t: Type)
  {
    && d.form == e && d.env == env && d.out == out
    && d.spec == spec && d.specOut == specOut && d.base == base && d.t == t
  }

  /** Forms whose analysis only allocates variables: names, `()`, and a `lambda` whose body is one. */
  predicate Quiet(e: Expr)
  {
    || RuleOf(e) == Name || RuleOf(e) == EmptyList
    || (RuleOf(e) == Lambda && e.Node? && |e.xs| >= 3 && Quiet(e.xs[2]))
  }

  /** `x` and `y` lie in the arena and the substitution makes them equal. */
  ghost predicate Same(slots: Slots, rank: seq<nat>, x: Type, y: Type)
    requires Ranked(slots, rank)
  {
    Bounded(x, |slots|) && Bounded(y, |slots|) && Resolve(slots, rank, x) == Resolve(slots, rank, y)
  }

  lemma SameRefines(s1: Slots, r1: seq<nat>, s2: Slots, r2: seq<nat>, x: Type, y: Type)
    requires Refines(s1, r1, s2, r2) && Same(s1, r1, x, y)
    ensures Same(s2, r2, x, y)
  {
    RefinesKeepsEqual(s1, r1, s2, r2, x, y);
  }

  // ---------------------------------------------------------------------
  // The rules

  /**
   * `get_type`: a bound name's type is a copy of its binding resolved
   * (`vars[0]`), every variable replaced by one new variable unless the
   * specific set is marked; an unbound name is a literal.
   */
  ghost predicate NameOk(slots: Slots, rank: seq<nat>, d: Typing)
    requires Ranked(slots, rank)
  {
    var key := Key(d.form);
    && d.kids == [] && d.out == d.env && d.specOut == d.spec && Bounded(d.t, |slots|)
    && if key in d.env then
         && |d.vars| == 1 && Same(slots, rank, d.env[key], d.vars[0])
         && d.t == Instance(d.vars[0], !d.spec, if !d.spec && HasVar(d.vars[0]) then Some(d.base) else None)
       else
         Literal(d.form) == Ok(d.t)
  }

  /** `()`: a list of a new variable. */
  predicate EmptyOk(d: Typing)
  {
    d.kids == [] && d.out == d.env && d.specOut == d.spec && d.t == List(TVar(d.base))
  }

  /** Names, each analysed in `env` with the specific set marked as `spec`. */
  ghost predicate Leaves(slots: Slots, rank: seq<nat>, ks: seq<Typing>, env: map<string, Type>, spec: bool)
    requires Ranked(slots, rank)
  {
    forall j :: 0 <= j < |ks| ==> ks[j].env == env && ks[j].spec == spec && NameOk(slots, rank, ks[j])
  }

  /**
   * One constructor of a `data` form: its key is bound to a new variable,
   * the fields are names looked up after that, and the variable is a
   * function from the fields' types to the data type `defnt`.
   */
  ghost predicate CtorOk(slots: Slots, rank: seq<nat>, c: Typing, defnt: Type)
    requires Ranked(slots, rank)
  {
    var cs := Items(c.form);
    && c.t == TVar(c.base) && c.out == c.env[KeyAt(c.form, 0) := c.t] && c.specOut
    && FormsAre(c.kids, if |cs| == 0 then [] else cs[1..])
    && Leaves(slots, rank, c.kids, c.out, true)
    && Same(slots, rank, c.t, Fn(Ts(c.kids) + [defnt]))
  }

  /** Constructors of the data type `defnt`. */
  ghost predicate Ctors(slots: Slots, rank: seq<nat>, ks: seq<Typing>, defnt: Type)
    requires Ranked(slots, rank)
  {
    forall k :: 0 <= k < |ks| ==> CtorOk(slots, rank, ks[k], defnt)
  }

  /**
   * `data`: the name is bound to a new operator, the constructors are
   * analysed in turn, and the type is what the name is bound to afterwards.
   */
  ghost predicate DataOk(slots: Slots, rank: seq<nat>, d: Typing)
    requires Ranked(slots, rank)
  {
    var xs := Items(d.form);
    var name := KeyAt(d.form, 1);
    var start := d.env[name := TOp(name, [])];
    && |xs| >= 3 && FormsAre(d.kids, Items(xs[2]))
    && Chained(start, d.spec, d.kids)
    && Ctors(slots, rank, d.kids, TOp(name, []))
    && d.out == EnvAfter(start, d.kids) && d.specOut == SpecAfter(d.spec, d.kids)
    && name in d.out && d.t == d.out[name]
  }

  /** Every sub-derivation of `d` is sound. */
  ghost predicate KidsSound(slots: Slots, rank: seq<nat>, d: Typing)
    requires Ranked(slots, rank)
    decreases d, 0
  {
    forall k :: 0 <= k < |d.kids| ==> Sound(slots, rank, d.kids[k])
  }

  /**
   * `let`: the values, analysed in turn in the enclosing environment, are
   * bound to their names in a copy of it, where the body is analysed.
   */
  ghost predicate LetOk(slots: Slots, rank: seq<nat>, d: Typing)
    requires Ranked(slots, rank)
    decreases d, 1
  {
    var xs := Items(d.form);
    && KidsSound(slots, rank, d)
    && |xs| >= 3 && "hasOwnProperty" !in d.env
    && var bs := Items(xs[1]);
    && var m := |bs| / 2;
    && |d.kids| == m + 1
    && ValuesOf(d.kids[..m], bs)
    && Chained(d.env, d.spec, d.kids[..m])
    && d.kids[m].form == xs[2]
    && d.kids[m].env == LetEnv(d.env, bs, Ts(d.kids[..m]))
    && d.kids[m].spec == SpecAfter(d.spec, d.kids[..m])
    && d.out == EnvAfter(d.env, d.kids[..m]) && d.specOut == d.kids[m].specOut
    && d.t == d.kids[m].t
  }

  /** `if`: the condition is a `Bool`, both branches have the form's type. */
  ghost predicate IfOk(slots: Slots, rank: seq<nat>, d: Typing)
    requires Ranked(slots, rank)
    decreases d, 1
  {
    var xs := Items(d.form);
    && KidsSound(slots, rank, d)
    && |xs| >= 4 && FormsAre(d.kids, xs[1..4])
    && Chained(d.env, d.spec, d.kids)
    && d.out == d.kids[2].out && d.specOut == d.kids[2].specOut
    && Same(slots, rank, d.kids[0].t, Bool) && Same(slots, rank, d.kids[1].t, d.kids[2].t)
    && d.t == d.kids[1].t
  }

  /**
   * `lambda`: the body is analysed with each parameter bound to a new
   * variable, specific; the type is the function from those variables to
   * the body's type. The caller's environment and set are unchanged.
   */
  ghost predicate LambdaOk(slots: Slots, rank: seq<nat>, d: Typing)
    requires Ranked(slots, rank)
    decreases d, 1
  {
    var xs := Items(d.form);
    && KidsSound(slots, rank, d)
    && |xs| >= 3 && "hasOwnProperty" !in d.env
    && var ps := Items(xs[1]);
    && |d.kids| == 1 && d.kids[0].form == xs[2]
    && d.kids[0].env == BindVars(d.env, ps, d.base) && d.kids[0].spec == (d.spec || |ps| > 0)
    && d.kids[0].base == d.base + |ps|
    && d.out == d.env && d.specOut == d.spec
    && d.t == Fn(Vars(d.base, |ps|) + [d.kids[0].t])
  }

  /** `def`: the value is analysed with the name bound to a new variable, which equals the value's type. */
  ghost predicate DefOk(slots: Slots, rank: seq<nat>, d: Typing)
    requires Ranked(slots, rank)
    decreases d, 1
  {
    var xs := Items(d.form);
    var v := TVar(d.base);
    && KidsSound(slots, rank, d)
    && |xs| >= 3 && |d.kids| == 1 && d.kids[0].form == xs[2]
    && d.kids[0].env == d.env[KeyAt(d.form, 1) := v] && d.kids[0].spec && d.kids[0].base == d.base + 1
    && d.out == d.kids[0].out && d.specOut == d.kids[0].specOut
    && d.t == d.kids[0].t && Same(slots, rank, v, d.t)
  }

  /** `set!`: the name is bound, and its binding equals the new value's type. */
  ghost predicate SetOk(slots: Slots, rank: seq<nat>, d: Typing)
    requires Ranked(slots, rank)
    decreases d, 1
  {
    var xs := Items(d.form);
    var key := KeyAt(d.form, 1);
    && KidsSound(slots, rank, d)
    && key in d.env && |xs| >= 3 && |d.kids| == 1 && d.kids[0].form == xs[2]
    && d.kids[0].env == d.env && d.kids[0].spec == d.spec && d.kids[0].base == d.base
    && d.out == d.kids[0].out && d.specOut == d.kids[0].specOut
    && d.t == d.kids[0].t && Same(slots, rank, d.env[key], d.t)
  }

  /**
   * `defn`: the name is bound to a new variable, then the body is analysed
   * with each parameter bound to a further variable; the type is the
   * function from those to the body's type, and equals the name's variable.
   */
  ghost predicate DefnOk(slots: Slots, rank: seq<nat>, d: Typing)
    requires Ranked(slots, rank)
    decreases d, 1
  {
    var xs := Items(d.form);
    var v := TVar(d.base);
    var env1 := d.env[KeyAt(d.form, 1) := v];
    && KidsSound(slots, rank, d)
    && |xs| >= 4 && "hasOwnProperty" !in env1
    && var ps := Items(xs[2]);
    && |d.kids| == 1 && d.kids[0].form == xs[3]
    && d.kids[0].env == BindVars(env1, ps, d.base + 1) && d.kids[0].spec
    && d.kids[0].base == d.base + 1 + |ps|
    && d.out == env1 && d.specOut
    && d.t == Fn(Vars(d.base + 1, |ps|) + [d.kids[0].t]) && Same(slots, rank, v, d.t)
  }

  /**
   * One binding of `let*`: the `j`-th value `ks[j]` is analysed with its
   * name bound to a new specific variable `vs[j]` in what the binding
   * before left (`env` for the first), and the variable equals the
   * value's type.
   */
  ghost predicate StarBindingOk(slots: Slots, rank: seq<nat>, env: map<string, Type>, ks: seq<Typing>, vs: seq<Type>, bs: seq<Expr>, j: nat)
    requires Ranked(slots, rank)
    requires j < |ks| && j < |vs| && 2 * j + 1 < |bs|
  {
    && ks[j].form == bs[2 * j + 1]
    && vs[j].TVar? && ks[j].base == vs[j].id + 1
    && ks[j].env == (if j == 0 then env else ks[j - 1].out)[Key(bs[2 * j]) := vs[j]]
    && ks[j].spec
    && Same(slots, rank, vs[j], ks[j].t)
  }

  /** The bindings of a `let*` so far: `ks` the values' derivations, `vs` the names' variables. */
  ghost predicate StarBindings(slots: Slots, rank: seq<nat>, env: map<string, Type>, ks: seq<Typing>, vs: seq<Type>, bs: seq<Expr>)
    requires Ranked(slots, rank)
  {
    |ks| == |vs| && 2 * |ks| <= |bs| && forall j :: 0 <= j < |ks| ==> StarBindingOk(slots, rank, env, ks, vs, bs, j)
  }

  /**
   * `let*`: the bindings in turn, then the body in the environment they
   * leave but with the caller's specific set; the caller's environment is
   * unchanged.
   */
  ghost predicate StarOk(slots: Slots, rank: seq<nat>, d: Typing)
    requires Ranked(slots, rank)
    decreases d, 1
  {
    var xs := Items(d.form);
    && KidsSound(slots, rank, d)
    && |xs| >= 3 && "hasOwnProperty" !in d.env
    && var bs := Items(xs[1]);
    && var m := |bs| / 2;
    && |bs| % 2 == 0 && |d.kids| == m + 1 && |d.vars| == m
    && StarBindings(slots, rank, d.env, d.kids[..m], d.vars, bs)
    && d.kids[m].form == xs[2] && d.kids[m].env == EnvAfter(d.env, d.kids[..m]) && d.kids[m].spec == d.spec
    && d.out == d.env && d.specOut == d.kids[m].specOut && d.t == d.kids[m].t
  }

  /** `.`: a pair of both operands' types, each analysed with an empty specific set. */
  ghost predicate DotOk(slots: Slots, rank: seq<nat>, d: Typing)
    requires Ranked(slots, rank)
    decreases d, 1
  {
    var xs := Items(d.form);
    && KidsSound(slots, rank, d)
    && |xs| >= 3 && FormsAre(d.kids, xs[1..3])
    && d.kids[0].env == d.env && d.kids[1].env == d.kids[0].out
    && !d.kids[0].spec && !d.kids[1].spec
    && d.out == d.kids[1].out && d.specOut == d.spec
    && d.t == Pair(d.kids[0].t, d.kids[1].t)
  }

  /** `quote`: a `Symbol`, an `Int`, or the type of the `list` form of the quoted elements. */
  ghost predicate QuoteOk(slots: Slots, rank: seq<nat>, d: Typing)
    requires Ranked(slots, rank)
    decreases d, 1
  {
    var xs := Items(d.form);
    && KidsSound(slots, rank, d)
    && |xs| == 2
    && match xs[1]
       case Sym(_) => d.kids == [] && d.out == d.env && d.specOut == d.spec && d.t == Symbol
       case Num(_) => d.kids == [] && d.out == d.env && d.specOut == d.spec && d.t == Int
       case Node(ys) =>
         && |d.kids| == 1 && d.kids[0].form == Node([Sym("list")] + ys)
         && d.kids[0].env == d.env && d.kids[0].spec == d.spec && d.kids[0].base == d.base
         && d.out == d.kids[0].out && d.specOut == d.kids[0].specOut && d.t == d.kids[0].t
  }

  /**
   * The elements of a `list` so far: the first analysed in `env` with an
   * empty specific set, the second with the caller's set marked as `spec`,
   * each in the environment the one before left.
   */
  predicate ListChain(env: map<string, Type>, spec: bool, base: nat, ks: seq<Typing>)
  {
    && |ks| >= 1 && ks[0].env == env && ks[0].base == base && !ks[0].spec
    && (forall j, k :: 0 <= j && k == j + 1 < |ks| ==> ks[k].env == ks[j].out)
    && (|ks| > 1 ==> ks[1].spec == spec)
    && (forall j, k :: 1 <= j && k == j + 1 < |ks| ==> ks[k].spec == ks[j].specOut)
  }

  /** The types of `ks` all resolve alike. */
  ghost predicate Alike(slots: Slots, rank: seq<nat>, ks: seq<Typing>)
    requires Ranked(slots, rank) && |ks| >= 1
  {
    forall k :: 0 <= k < |ks| ==> Same(slots, rank, ks[k].t, ks[0].t)
  }

  /**
   * `list`: a list of a new variable when empty; otherwise the elements in
   * turn, the first with an empty specific set, all of one type, and the
   * type is a list of the last element's type.
   */
  ghost predicate ListOk(slots: Slots, rank: seq<nat>, d: Typing)
    requires Ranked(slots, rank)
    decreases d, 1
  {
    var xs := Items(d.form);
    var ks := d.kids;
    && KidsSound(slots, rank, d)
    && if |xs| <= 1 then ks == [] && d.out == d.env && d.specOut == d.spec && d.t == List(TVar(d.base))
       else
         && FormsAre(ks, xs[1..])
         && ListChain(d.env, d.spec, d.base, ks)
         && d.out == ks[|ks| - 1].out && d.specOut == (if |ks| == 1 then d.spec else ks[|ks| - 1].specOut)
         && Alike(slots, rank, ks)
         && d.t == List(ks[|ks| - 1].t)
  }

  /**
   * `copy` is the generic copy of `fr` that draws the variable `m`: every
   * variable of `fr` becomes `m`, and a type without variables is kept.
   */
  predicate CopyOf(fr: Type, copy: Type, m: nat)
  {
    copy == Instance(fr, true, if HasVar(fr) then Some(m) else None)
  }

  /**
   * Application: the head's type equals a function from the operands' types
   * to the form's type, a variable; `vars[0]` means what the head's type
   * means, and the head's key is rebound to the copy `vars[1]`, which is
   * `vars[0]` with every variable replaced by one variable `vars[2]` drawn
   * during this form, or `vars[0]` itself when it has no variable. The rule
   * does not say in which state `vars[0]` was resolved;
   * `Inference.AnalyseApply` states that it is the state before the
   * operands were analysed and the head unified.
   */
  ghost predicate ApplyOk(slots: Slots, rank: seq<nat>, d: Typing)
    requires Ranked(slots, rank)
    decreases d, 1
  {
    var xs := Items(d.form);
    var ks := d.kids;
    && KidsSound(slots, rank, d)
    && |xs| >= 1 && FormsAre(ks, xs) && Chained(d.env, d.spec, ks)
    && |d.vars| == 3 && Same(slots, rank, d.vars[0], ks[0].t)
    && d.vars[2].TVar? && d.base <= d.vars[2].id
    && CopyOf(d.vars[0], d.vars[1], d.vars[2].id)
    && d.out == ks[|ks| - 1].out[Key(xs[0]) := d.vars[1]] && d.specOut == ks[|ks| - 1].specOut
    && d.t.TVar? && Same(slots, rank, ks[0].t, Fn(Ts(ks[1..]) + [d.t]))
  }

  /** Every node of `d` obeys the rule of its form, and its type lies in the arena. */
  ghost predicate Sound(slots: Slots, rank: seq<nat>, d: Typing)
    requires Ranked(slots, rank)
    decreases d, 3
  {
    Bounded(d.t, |slots|) && Obeys(slots, rank, d, RuleOf(d.form))
  }

  /** `d` obeys the rule `r`. */
  ghost predicate Obeys(slots: Slots, rank: seq<nat>, d: Typing, r: Rule)
    requires Ranked(slots, rank)
    decreases d, 2
  {
    match r
    case Name => NameOk(slots, rank, d)
    case EmptyList => EmptyOk(d)
    case Data => DataOk(slots, rank, d)
    case Let => LetOk(slots, rank, d)
    case If => IfOk(slots, rank, d)
    case Lambda => LambdaOk(slots, rank, d)
    case Def => DefOk(slots, rank, d)
    case SetBang => SetOk(slots, rank, d)
    case Defn => DefnOk(slots, rank, d)
    case LetStar => StarOk(slots, rank, d)
    case Dot => DotOk(slots, rank, d)
    case Quote => QuoteOk(slots, rank, d)
    case ListOf => ListOk(slots, rank, d)
    case Apply => ApplyOk(slots, rank, d)
  }

  ghost predicate AllSound(slots: Slots, rank: seq<nat>, ks: seq<Typing>)
    requires Ranked(slots, rank)
  {
    forall k :: 0 <= k < |ks| ==> Sound(slots, rank, ks[k])
  }

  // ---------------------------------------------------------------------
  // Refining the substitution keeps a derivation sound

  lemma NameRefines(s1: Slots, r1: seq<nat>, s2: Slots, r2: seq<nat>, d: Typing)
    requires Refines(s1, r1, s2, r2) && NameOk(s1, r1, d)
    ensures NameOk(s2, r2, d)
  {
    BoundedMono(d.t, |s1|, |s2|);
    if Key(d.form) in d.env {
      SameRefines(s1, r1, s2, r2, d.env[Key(d.form)], d.vars[0]);
    }
  }

  lemma LeavesRefines(s1: Slots, r1: seq<nat>, s2: Slots, r2: seq<nat>, ks: seq<Typing>, env: map<string, Type>, spec: bool)
    requires Refines(s1, r1, s2, r2) && Leaves(s1, r1, ks, env, spec)
    ensures Leaves(s2, r2, ks, env, spec)
  {
    forall j | 0 <= j < |ks| ensures NameOk(s2, r2, ks[j]) {
      NameRefines(s1, r1, s2, r2, ks[j]);
    }
  }

  lemma CtorRefines(s1: Slots, r1: seq<nat>, s2: Slots, r2: seq<nat>, c: Typing, defnt: Type)
    requires Refines(s1, r1, s2, r2) && CtorOk(s1, r1, c, defnt)
    ensures CtorOk(s2, r2, c, defnt)
  {
    LeavesRefines(s1, r1, s2, r2, c.kids, c.out, true);
    SameRefines(s1, r1, s2, r2, c.t, Fn(Ts(c.kids) + [defnt]));
  }

  lemma DataRefines(s1: Slots, r1: seq<nat>, s2: Slots, r2: seq<nat>, d: Typing)
    requires Refines(s1, r1, s2, r2) && DataOk(s1, r1, d)
    ensures DataOk(s2, r2, d)
  {
    CtorsRefines(s1, r1, s2, r2, d.kids, TOp(KeyAt(d.form, 1), []));
  }

  lemma CtorsRefines(s1: Slots, r1: seq<nat>, s2: Slots, r2: seq<nat>, ks: seq<Typing>, defnt: Type)
    requires Refines(s1, r1, s2, r2) && Ctors(s1, r1, ks, defnt)
    ensures Ctors(s2, r2, ks, defnt)
  {
    forall k | 0 <= k < |ks| ensures CtorOk(s2, r2, ks[k], defnt) {
      CtorRefines(s1, r1, s2, r2, ks[k], defnt);
    }
  }

  lemma {:induction false} LetRefines(s1: Slots, r1: seq<nat>, s2: Slots, r2: seq<nat>, d: Typing)
    requires Refines(s1, r1, s2, r2) && RuleOf(d.form) == Let && Sound(s1, r1, d)
    ensures Sound(s2, r2, d)
    decreases d, 1
  {
    assert Obeys(s1, r1, d, Let);
    assert LetOk(s1, r1, d);
    BoundedMono(d.t, |s1|, |s2|);
    KidsRefines(s1, r1, s2, r2, d);
    assert LetOk(s2, r2, d);
    assert Obeys(s2, r2, d, Let);
  }
  lemma {:induction false} IfRefines(s1: Slots, r1: seq<nat>, s2: Slots, r2: seq<nat>, d: Typing)
    requires Refines(s1, r1, s2, r2) && RuleOf(d.form) == If && Sound(s1, r1, d)
    ensures Sound(s2, r2, d)
    decreases d, 1
  {
    assert Obeys(s1, r1, d, If);
    assert IfOk(s1, r1, d);
    BoundedMono(d.t, |s1|, |s2|);
    KidsRefines(s1, r1, s2, r2, d);
    SameRefines(s1, r1, s2, r2, d.kids[0].t, Bool);
    SameRefines(s1, r1, s2, r2, d.kids[1].t, d.kids[2].t);
    assert IfOk(s2, r2, d);
    assert Obeys(s2, r2, d, If);
  }
  lemma {:induction false} LambdaRefines(s1: Slots, r1: seq<nat>, s2: Slots, r2: seq<nat>, d: Typing)
    requires Refines(s1, r1, s2, r2) && RuleOf(d.form) == Lambda && Sound(s1, r1, d)
    ensures Sound(s2, r2, d)
    decreases d, 1
  {
    assert Obeys(s1, r1, d, Lambda);
    assert LambdaOk(s1, r1, d);
    BoundedMono(d.t, |s1|, |s2|);
    KidsRefines(s1, r1, s2, r2, d);
    assert LambdaOk(s2, r2, d);
    assert Obeys(s2, r2, d, Lambda);
  }
  lemma {:induction false} DefRefines(s1: Slots, r1: seq<nat>, s2: Slots, r2: seq<nat>, d: Typing)
    requires Refines(s1, r1, s2, r2) && RuleOf(d.form) == Def && Sound(s1, r1, d)
    ensures Sound(s2, r2, d)
    decreases d, 1
  {
    assert Obeys(s1, r1, d, Def);
    assert DefOk(s1, r1, d);
    BoundedMono(d.t, |s1|, |s2|);
    KidsRefines(s1, r1, s2, r2, d);
    SameRefines(s1, r1, s2, r2, TVar(d.base), d.t);
    assert DefOk(s2, r2, d);
    assert Obeys(s2, r2, d, Def);
  }
  lemma {:induction false} SetRefines(s1: Slots, r1: seq<nat>, s2: Slots, r2: seq<nat>, d: Typing)
    requires Refines(s1, r1, s2, r2) && RuleOf(d.form) == SetBang && Sound(s1, r1, d)
    ensures Sound(s2, r2, d)
    decreases d, 1
  {
    assert Obeys(s1, r1, d, SetBang);
    assert SetOk(s1, r1, d);
    BoundedMono(d.t, |s1|, |s2|);
    KidsRefines(s1, r1, s2, r2, d);
    SameRefines(s1, r1, s2, r2, d.env[KeyAt(d.form, 1)], d.t);
    assert SetOk(s2, r2, d);
    assert Obeys(s2, r2, d, SetBang);
  }
  lemma {:induction false} DefnRefines(s1: Slots, r1: seq<nat>, s2: Slots, r2: seq<nat>, d: Typing)
    requires Refines(s1, r1, s2, r2) && RuleOf(d.form) == Defn && Sound(s1, r1, d)
    ensures Sound(s2, r2, d)
    decreases d, 1
  {
    assert Obeys(s1, r1, d, Defn);
    assert DefnOk(s1, r1, d);
    BoundedMono(d.t, |s1|, |s2|);
    KidsRefines(s1, r1, s2, r2, d);
    SameRefines(s1, r1, s2, r2, TVar(d.base), d.t);
    assert DefnOk(s2, r2, d);
    assert Obeys(s2, r2, d, Defn);
  }
  lemma {:induction false} StarRefines(s1: Slots, r1: seq<nat>, s2: Slots, r2: seq<nat>, d: Typing)
    requires Refines(s1, r1, s2, r2) && RuleOf(d.form) == LetStar && Sound(s1, r1, d)
    ensures Sound(s2, r2, d)
    decreases d, 1
  {
    assert Obeys(s1, r1, d, LetStar);
    assert StarOk(s1, r1, d);
    BoundedMono(d.t, |s1|, |s2|);
    KidsRefines(s1, r1, s2, r2, d);
    var bs := Items(Items(d.form)[1]);
    StarBindingsRefines(s1, r1, s2, r2, d.env, d.kids[..|bs| / 2], d.vars, bs);
    assert StarOk(s2, r2, d);
    assert Obeys(s2, r2, d, LetStar);
  }
  lemma {:induction false} DotRefines(s1: Slots, r1: seq<nat>, s2: Slots, r2: seq<nat>, d: Typing)
    requires Refines(s1, r1, s2, r2) && RuleOf(d.form) == Dot && Sound(s1, r1, d)
    ensures Sound(s2, r2, d)
    decreases d, 1
  {
    assert Obeys(s1, r1, d, Dot);
    assert DotOk(s1, r1, d);
    BoundedMono(d.t, |s1|, |s2|);
    KidsRefines(s1, r1, s2, r2, d);
    assert DotOk(s2, r2, d);
    assert Obeys(s2, r2, d, Dot);
  }
  lemma {:induction false} QuoteRefines(s1: Slots, r1: seq<nat>, s2: Slots, r2: seq<nat>, d: Typing)
    requires Refines(s1, r1, s2, r2) && RuleOf(d.form) == Quote && Sound(s1, r1, d)
    ensures Sound(s2, r2, d)
    decreases d, 1
  {
    assert Obeys(s1, r1, d, Quote);
    assert QuoteOk(s1, r1, d);
    BoundedMono(d.t, |s1|, |s2|);
    KidsRefines(s1, r1, s2, r2, d);
    assert QuoteOk(s2, r2, d);
    assert Obeys(s2, r2, d, Quote);
  }
  lemma {:induction false} ListRefines(s1: Slots, r1: seq<nat>, s2: Slots, r2: seq<nat>, d: Typing)
    requires Refines(s1, r1, s2, r2) && RuleOf(d.form) == ListOf && Sound(s1, r1, d)
    ensures Sound(s2, r2, d)
    decreases d, 1
  {
    assert Obeys(s1, r1, d, ListOf);
    assert ListOk(s1, r1, d);
    BoundedMono(d.t, |s1|, |s2|);
    KidsRefines(s1, r1, s2, r2, d);
    if |Items(d.form)| > 1 {
      AlikeRefines(s1, r1, s2, r2, d.kids);
    }
    assert ListOk(s2, r2, d);
    assert Obeys(s2, r2, d, ListOf);
  }
  lemma {:induction false} ApplyRefines(s1: Slots, r1: seq<nat>, s2: Slots, r2: seq<nat>, d: Typing)
    requires Refines(s1, r1, s2, r2) && RuleOf(d.form) == Apply && Sound(s1, r1, d)
    ensures Sound(s2, r2, d)
    decreases d, 1
  {
    assert Obeys(s1, r1, d, Apply);
    assert ApplyOk(s1, r1, d);
    BoundedMono(d.t, |s1|, |s2|);
    KidsRefines(s1, r1, s2, r2, d);
    SameRefines(s1, r1, s2, r2, d.vars[0], d.kids[0].t);
    SameRefines(s1, r1, s2, r2, d.kids[0].t, Fn(Ts(d.kids[1..]) + [d.t]));
    assert ApplyOk(s2, r2, d);
    assert Obeys(s2, r2, d, Apply);
  }
  lemma {:induction false} KidsRefines(s1: Slots, r1: seq<nat>, s2: Slots, r2: seq<nat>, d: Typing)
    requires Refines(s1, r1, s2, r2) && KidsSound(s1, r1, d)
    ensures KidsSound(s2, r2, d)
    decreases d, 0
  {
    forall k | 0 <= k < |d.kids| ensures Sound(s2, r2, d.kids[k]) {
      SoundRefines(s1, r1, s2, r2, d.kids[k]);
    }
  }

  lemma {:induction false} SoundRefines(s1: Slots, r1: seq<nat>, s2: Slots, r2: seq<nat>, d: Typing)
    requires Refines(s1, r1, s2, r2) && Sound(s1, r1, d)
    ensures Sound(s2, r2, d)
    decreases d, 2
  {
    match RuleOf(d.form)
    case Name =>
      BoundedMono(d.t, |s1|, |s2|);
      assert Obeys(s1, r1, d, Name);
      NameRefines(s1, r1, s2, r2, d);
      assert Obeys(s2, r2, d, Name);
    case EmptyList =>
      BoundedMono(d.t, |s1|, |s2|);
      assert Obeys(s1, r1, d, EmptyList);
      assert Obeys(s2, r2, d, EmptyList);
    case Data =>
      BoundedMono(d.t, |s1|, |s2|);
      assert Obeys(s1, r1, d, Data);
      DataRefines(s1, r1, s2, r2, d);
      assert Obeys(s2, r2, d, Data);
    case Let => LetRefines(s1, r1, s2, r2, d);
    case If => IfRefines(s1, r1, s2, r2, d);
    case Lambda => LambdaRefines(s1, r1, s2, r2, d);
    case Def => DefRefines(s1, r1, s2, r2, d);
    case SetBang => SetRefines(s1, r1, s2, r2, d);
    case Defn => DefnRefines(s1, r1, s2, r2, d);
    case LetStar => StarRefines(s1, r1, s2, r2, d);
    case Dot => DotRefines(s1, r1, s2, r2, d);
    case Quote => QuoteRefines(s1, r1, s2, r2, d);
    case ListOf => ListRefines(s1, r1, s2, r2, d);
    case Apply => ApplyRefines(s1, r1, s2, r2, d);
  }

  lemma AllSoundRefines(s1: Slots, r1: seq<nat>, s2: Slots, r2: seq<nat>, ks: seq<Typing>)
    requires Refines(s1, r1, s2, r2) && AllSound(s1, r1, ks)
    ensures AllSound(s2, r2, ks)
  {
    forall k | 0 <= k < |ks| ensures Sound(s2, r2, ks[k]) {
      SoundRefines(s1, r1, s2, r2, ks[k]);
    }
  }

  // ---------------------------------------------------------------------
  // Growing a chain of derivations by one

  lemma TsNext(ks: seq<Typing>, k: Typing)
    ensures Ts(ks + [k]) == Ts(ks) + [k.t]
    ensures (ks + [k])[..|ks|] == ks
  {
  }

  lemma FormsNext(ks: seq<Typing>, xs: seq<Expr>, lo: nat, i: nat, k: Typing)
    requires lo <= i < |xs| && FormsAre(ks, xs[lo..i]) && k.form == xs[i]
    ensures FormsAre(ks + [k], xs[lo..i + 1])
  {
  }

  lemma ChainNext(env: map<string, Type>, spec: bool, ks: seq<Typing>, k: Typing)
    requires Chained(env, spec, ks) && k.env == EnvAfter(env, ks) && k.spec == SpecAfter(spec, ks)
    ensures Chained(env, spec, ks + [k])
    ensures EnvAfter(env, ks + [k]) == k.out && SpecAfter(spec, ks + [k]) == k.specOut
  {
  }

  lemma AllSoundNext(slots: Slots, rank: seq<nat>, ks: seq<Typing>, k: Typing)
    requires Ranked(slots, rank) && AllSound(slots, rank, ks) && Sound(slots, rank, k)
    ensures AllSound(slots, rank, ks + [k])
  {
  }

  lemma LeavesNext(slots: Slots, rank: seq<nat>, ks: seq<Typing>, env: map<string, Type>, spec: bool, k: Typing)
    requires Ranked(slots, rank) && Leaves(slots, rank, ks, env, spec)
    requires k.env == env && k.spec == spec && NameOk(slots, rank, k)
    ensures Leaves(slots, rank, ks + [k], env, spec)
  {
  }

  lemma CtorsNext(slots: Slots, rank: seq<nat>, ks: seq<Typing>, defnt: Type, k: Typing)
    requires Ranked(slots, rank) && Ctors(slots, rank, ks, defnt) && CtorOk(slots, rank, k, defnt)
    ensures Ctors(slots, rank, ks + [k], defnt)
  {
  }

  /** Every form but a name or a `.` is a list. */
  lemma RuleOfNode(e: Expr)
    ensures RuleOf(e) != Name && RuleOf(e) != Dot ==> e.Node?
  {
    if e.Sym? && |e.s| > 0 {
      assert Items(e)[0] == Sym([e.s[0]]);
    }
  }

  lemma StarBindingsRefines(s1: Slots, r1: seq<nat>, s2: Slots, r2: seq<nat>,
                            env: map<string, Type>, ks: seq<Typing>, vs: seq<Type>, bs: seq<Expr>)
    requires Refines(s1, r1, s2, r2) && StarBindings(s1, r1, env, ks, vs, bs)
    ensures StarBindings(s2, r2, env, ks, vs, bs)
  {
    forall j | 0 <= j < |ks| ensures StarBindingOk(s2, r2, env, ks, vs, bs, j) {
      assert StarBindingOk(s1, r1, env, ks, vs, bs, j);
      SameRefines(s1, r1, s2, r2, vs[j], ks[j].t);
    }
  }

  lemma StarBindingsNext(slots: Slots, rank: seq<nat>, env: map<string, Type>, ks: seq<Typing>, vs: seq<Type>, bs: seq<Expr>,
                         k: Typing, v: Type)
    requires Ranked(slots, rank) && StarBindings(slots, rank, env, ks, vs, bs) && 2 * |ks| + 1 < |bs|
    requires k.form == bs[2 * |ks| + 1] && v.TVar? && k.base == v.id + 1 && k.spec
    requires k.env == EnvAfter(env, ks)[Key(bs[2 * |ks|]) := v] && Same(slots, rank, v, k.t)
    ensures StarBindings(slots, rank, env, ks + [k], vs + [v], bs)
  {
    forall j | 0 <= j < |ks| + 1 ensures StarBindingOk(slots, rank, env, ks + [k], vs + [v], bs, j) {
      if j < |ks| {
        assert StarBindingOk(slots, rank, env, ks, vs, bs, j);
      }
    }
  }

  lemma AlikeRefines(s1: Slots, r1: seq<nat>, s2: Slots, r2: seq<nat>, ks: seq<Typing>)
    requires Refines(s1, r1, s2, r2) && |ks| >= 1 && Alike(s1, r1, ks)
    ensures Alike(s2, r2, ks)
  {
    forall k | 0 <= k < |ks| ensures Same(s2, r2, ks[k].t, ks[0].t) {
      SameRefines(s1, r1, s2, r2, ks[k].t, ks[0].t);
    }
  }

  lemma AlikeNext(slots: Slots, rank: seq<nat>, ks: seq<Typing>, k: Typing)
    requires Ranked(slots, rank) && |ks| >= 1 && Alike(slots, rank, ks) && Same(slots, rank, ks[|ks| - 1].t, k.t)
    ensures Alike(slots, rank, ks + [k])
  {
    assert Same(slots, rank, ks[|ks| - 1].t, ks[0].t);
  }

  lemma ListChainNext(env: map<string, Type>, spec: bool, base: nat, ks: seq<Typing>, k: Typing)
    requires ListChain(env, spec, base, ks) && k.env == ks[|ks| - 1].out
    requires k.spec == (if |ks| == 1 then spec else ks[|ks| - 1].specOut)
    ensures ListChain(env, spec, base, ks + [k])
  {
  }

  /** The derivations `ks` are those of the values of the `let` bindings `bs`, in order. */
  predicate ValuesOf(ks: seq<Typing>, bs: seq<Expr>)
  {
    2 * |ks| <= |bs| && forall j :: 0 <= j < |ks| ==> ks[j].form == bs[2 * j + 1]
  }

  lemma ValuesNext(ks: seq<Typing>, bs: seq<Expr>, k: Typing)
    requires ValuesOf(ks, bs) && 2 * |ks| + 1 < |bs| && k.form == bs[2 * |ks| + 1]
    ensures ValuesOf(ks + [k], bs)
  {
  }

  lemma LetEnvNext(m: map<string, Type>, bs: seq<Expr>, ks: seq<Typing>, k: Typing)
    requires 2 * |ks| + 2 <= |bs|
    ensures LetEnv(m, bs, Ts(ks + [k])) == LetEnv(m, bs, Ts(ks))[Key(bs[2 * |ks|]) := k.t]
  {
    var ts := Ts(ks + [k]);
    assert ts[..|ts| - 1] == Ts(ks);
  }

  // ---------------------------------------------------------------------
  // Building a derivation from its parts

  /** A `lambda` whose body has a sound derivation in the parameters' environment has one itself. */
  lemma LambdaIntro(slots: Slots, rank: seq<nat>, e: Expr, env: map<string, Type>, spec: bool, base: nat, db: Typing)
      returns (d: Typing)
    requires Ranked(slots, rank) && RuleOf(e) == Lambda
    requires |Items(e)| >= 3 && "hasOwnProperty" !in env
    requires db.form == Items(e)[2] && db.base == base + |Items(Items(e)[1])|
    requires db.env == BindVars(env, Items(Items(e)[1]), base) && db.spec == (spec || |Items(Items(e)[1])| > 0)
    requires Sound(slots, rank, db) && db.base <= |slots|
    ensures Records(d, e, env, env, spec, spec, base, Fn(Vars(base, |Items(Items(e)[1])|) + [db.t]))
    ensures Sound(slots, rank, d) && LambdaOk(slots, rank, d)
  {
    var ps := Items(Items(e)[1]);
    var ts := Vars(base, |ps|) + [db.t];
    d := Typing(e, env, env, spec, spec, base, Fn(ts), [], [db]);
    assert Bounded(d.t, |slots|) by {
      assert forall k :: 0 <= k < |ts| ==> Bounded(ts[k], |slots|);
    }
    assert LambdaOk(slots, rank, d);
    assert Obeys(slots, rank, d, Lambda);
  }

  /**
   * An application whose head and operands have sound derivations, chained
   * left to right, and whose head's type equals a function from the
   * operands' types to the variable `t`, has a sound derivation.
   */
  lemma ApplyIntro(s0: Slots, r0: seq<nat>, s1: Slots, r1: seq<nat>, slots: Slots, rank: seq<nat>,
                   e: Expr, base: nat, dh: Typing, ks: seq<Typing>, fr: Type, copy: Type, m: nat, t: Type)
      returns (d: Typing)
    requires Refines(s0, r0, slots, rank) && Refines(s1, r1, slots, rank)
    requires RuleOf(e) == Apply && |Items(e)| >= 1
    requires dh.form == Items(e)[0] && FormsAre(ks, Items(e)[1..]) && Chained(dh.out, dh.specOut, ks)
    requires Sound(s0, r0, dh) && Same(s0, r0, fr, dh.t) && AllSound(s1, r1, ks)
    requires base <= m && CopyOf(fr, copy, m)
    requires t.TVar? && Bounded(t, |slots|) && Same(slots, rank, dh.t, Fn(Ts(ks) + [t]))
    ensures Records(d, e, dh.env, EnvAfter(dh.out, ks)[Key(Items(e)[0]) := copy], dh.spec,
                    SpecAfter(dh.specOut, ks), base, t)
    ensures Sound(slots, rank, d) && ApplyOk(slots, rank, d)
    ensures d.kids[0] == dh && d.vars == [fr, copy, TVar(m)]
  {
    SameRefines(s0, r0, slots, rank, fr, dh.t);
    SoundRefines(s0, r0, slots, rank, dh);
    AllSoundRefines(s1, r1, slots, rank, ks);
    var kids := [dh] + ks;
    ConsChain(dh, ks);
    ConsForms(dh, ks, Items(e));
    ConsSound(slots, rank, dh, ks);
    d := Typing(e, dh.env, EnvAfter(dh.out, ks)[Key(Items(e)[0]) := copy], dh.spec,
                SpecAfter(dh.specOut, ks), base, t, [fr, copy, TVar(m)], kids);
    assert ApplyOk(slots, rank, d);
    assert Obeys(slots, rank, d, Apply);
  }

  lemma ConsChain(k: Typing, ks: seq<Typing>)
    requires Chained(k.out, k.specOut, ks)
    ensures Chained(k.env, k.spec, [k] + ks)
    ensures ([k] + ks)[1..] == ks && ([k] + ks)[|ks|] == if ks == [] then k else ks[|ks| - 1]
  {
    var kids := [k] + ks;
    forall j, i | 0 <= j && i == j + 1 < |kids|
      ensures kids[i].env == kids[j].out && kids[i].spec == kids[j].specOut
    {
      if j > 0 {
        assert kids[i] == ks[j] && kids[j] == ks[j - 1];
      }
    }
  }

  lemma ConsForms(k: Typing, ks: seq<Typing>, xs: seq<Expr>)
    requires |xs| >= 1 && k.form == xs[0] && FormsAre(ks, xs[1..])
    ensures FormsAre([k] + ks, xs)
  {
    var kids := [k] + ks;
    forall j | 0 <= j < |kids| ensures kids[j].form == xs[j] {
      if j > 0 {
        assert kids[j] == ks[j - 1] && xs[1..][j - 1] == xs[j];
      }
    }
  }

  lemma ConsSound(slots: Slots, rank: seq<nat>, k: Typing, ks: seq<Typing>)
    requires Ranked(slots, rank) && Sound(slots, rank, k) && AllSound(slots, rank, ks)
    ensures AllSound(slots, rank, [k] + ks)
  {
    var kids := [k] + ks;
    forall j | 0 <= j < |kids| ensures Sound(slots, rank, kids[j]) {
      if j > 0 {
        assert kids[j] == ks[j - 1];
      }
    }
  }

  /**
   * An `if` whose condition was a `Bool` in an earlier state and whose
   * branches have sound derivations of equal types has a sound derivation.
   */
  lemma IfIntro(s0: Slots, r0: seq<nat>, slots: Slots, rank: seq<nat>, e: Expr, base: nat, dc: Typing, dt: Typing, df: Typing)
      returns (d: Typing)
    requires Refines(s0, r0, slots, rank) && RuleOf(e) == If && |Items(e)| >= 4
    requires dc.form == Items(e)[1] && dt.form == Items(e)[2] && df.form == Items(e)[3]
    requires dt.env == dc.out && dt.spec == dc.specOut && df.env == dt.out && df.spec == dt.specOut
    requires Sound(s0, r0, dc) && Same(s0, r0, dc.t, Bool)
    requires Sound(slots, rank, dt) && Sound(slots, rank, df) && Same(slots, rank, dt.t, df.t)
    ensures Records(d, e, dc.env, df.out, dc.spec, df.specOut, base, dt.t)
    ensures Sound(slots, rank, d) && IfOk(slots, rank, d)
  {
    SoundRefines(s0, r0, slots, rank, dc);
    SameRefines(s0, r0, slots, rank, dc.t, Bool);
    d := Typing(e, dc.env, df.out, dc.spec, df.specOut, base, dt.t, [], [dc, dt, df]);
    assert FormsAre(d.kids, Items(e)[1..4]);
    assert IfOk(slots, rank, d);
    assert Obeys(slots, rank, d, If);
  }

  /** The elements `1 .. i - 1` of a `(list …)` form have been analysed into `ks`. */
  ghost predicate ListSoFar(slots: Slots, rank: seq<nat>, e: Expr, env: map<string, Type>, spec: bool, base: nat,
                            ks: seq<Typing>, i: nat)
  {
    && Ranked(slots, rank) && 2 <= i <= |Items(e)| && |ks| == i - 1
    && FormsAre(ks, Items(e)[1..i]) && ListChain(env, spec, base, ks)
    && AllSound(slots, rank, ks) && Alike(slots, rank, ks)
  }

  /** One more element, analysed after the others and unified with the one before, extends the list. */
  lemma ListGrow(sa: Slots, ka: seq<nat>, sb: Slots, kb: seq<nat>, slots: Slots, rank: seq<nat>,
                 e: Expr, env: map<string, Type>, spec: bool, base: nat, ks: seq<Typing>, i: nat, k: Typing)
    requires ListSoFar(sa, ka, e, env, spec, base, ks, i) && i < |Items(e)|
    requires Refines(sa, ka, slots, rank) && Refines(sb, kb, slots, rank)
    requires Sound(sb, kb, k) && Same(slots, rank, ks[|ks| - 1].t, k.t) && k.form == Items(e)[i]
    requires k.env == ks[|ks| - 1].out && k.spec == (if |ks| == 1 then spec else ks[|ks| - 1].specOut)
    ensures ListSoFar(slots, rank, e, env, spec, base, ks + [k], i + 1)
  {
    AllSoundRefines(sa, ka, slots, rank, ks);
    SoundRefines(sb, kb, slots, rank, k);
    AllSoundNext(slots, rank, ks, k);
    AlikeRefines(sa, ka, slots, rank, ks);
    AlikeNext(slots, rank, ks, k);
    ListChainNext(env, spec, base, ks, k);
    FormsNext(ks, Items(e), 1, i, k);
  }

  /** A `(list …)` form whose elements have all been analysed has a sound derivation. */
  lemma ListIntro(slots: Slots, rank: seq<nat>, e: Expr, env: map<string, Type>, spec: bool, base: nat, ks: seq<Typing>)
      returns (d: Typing)
    requires RuleOf(e) == ListOf && ListSoFar(slots, rank, e, env, spec, base, ks, |Items(e)|)
    ensures Records(d, e, env, ks[|ks| - 1].out, spec, if |ks| == 1 then spec else ks[|ks| - 1].specOut,
                    base, List(ks[|ks| - 1].t))
    ensures Sound(slots, rank, d) && ListOk(slots, rank, d)
  {
    d := Typing(e, env, ks[|ks| - 1].out, spec, if |ks| == 1 then spec else ks[|ks| - 1].specOut,
                base, List(ks[|ks| - 1].t), [], ks);
    ListBuilt(slots, rank, d);
    assert Obeys(slots, rank, d, ListOf);
  }

  /** A derivation whose elements make a finished list chain obeys the `list` rule. */
  lemma ListBuilt(slots: Slots, rank: seq<nat>, d: Typing)
    requires ListSoFar(slots, rank, d.form, d.env, d.spec, d.base, d.kids, |Items(d.form)|)
    requires d.out == d.kids[|d.kids| - 1].out && d.t == List(d.kids[|d.kids| - 1].t)
    requires d.specOut == if |d.kids| == 1 then d.spec else d.kids[|d.kids| - 1].specOut
    ensures ListOk(slots, rank, d)
  {
    assert Items(d.form)[1..|Items(d.form)|] == Items(d.form)[1..];
  }

  /** The first element of a `(list …)` form, analysed with an empty specific set, starts the list. */
  lemma ListStart(slots: Slots, rank: seq<nat>, e: Expr, env: map<string, Type>, spec: bool, base: nat, k: Typing)
    requires Ranked(slots, rank) && 2 <= |Items(e)| && k.form == Items(e)[1]
    requires Sound(slots, rank, k) && k.env == env && k.base == base && !k.spec
    ensures ListSoFar(slots, rank, e, env, spec, base, [k], 2)
  {
    assert Same(slots, rank, [k][0].t, [k][0].t);
  }

  /** `(list)` has a sound derivation: a list of a new variable. */
  lemma ListEmptyIntro(slots: Slots, rank: seq<nat>, e: Expr, env: map<string, Type>, spec: bool, base: nat)
      returns (d: Typing)
    requires Ranked(slots, rank) && RuleOf(e) == ListOf && |Items(e)| == 1 && base < |slots|
    ensures Records(d, e, env, env, spec, spec, base, List(TVar(base)))
    ensures Sound(slots, rank, d) && ListOk(slots, rank, d)
  {
    d := Typing(e, env, env, spec, spec, base, List(TVar(base)), [], []);
    assert ListOk(slots, rank, d);
    assert Obeys(slots, rank, d, ListOf);
  }

  /** The first `|ks|` values of a `let` form have been analysed, in turn, into `ks`. */
  ghost predicate LetSoFar(slots: Slots, rank: seq<nat>, e: Expr, env: map<string, Type>, spec: bool, ks: seq<Typing>)
  {
    && Ranked(slots, rank) && |Items(e)| >= 2
    && ValuesOf(ks, Items(Items(e)[1])) && Chained(env, spec, ks) && AllSound(slots, rank, ks)
  }

  /** One more value, analysed where the values before left off, extends the `let`. */
  lemma LetGrow(sa: Slots, ka: seq<nat>, slots: Slots, rank: seq<nat>,
                e: Expr, env: map<string, Type>, spec: bool, ks: seq<Typing>, k: Typing)
    requires LetSoFar(sa, ka, e, env, spec, ks) && Refines(sa, ka, slots, rank) && Sound(slots, rank, k)
    requires 2 * |ks| + 1 < |Items(Items(e)[1])| && k.form == Items(Items(e)[1])[2 * |ks| + 1]
    requires k.env == EnvAfter(env, ks) && k.spec == SpecAfter(spec, ks)
    ensures LetSoFar(slots, rank, e, env, spec, ks + [k])
    ensures EnvAfter(env, ks + [k]) == k.out && SpecAfter(spec, ks + [k]) == k.specOut
  {
    AllSoundRefines(sa, ka, slots, rank, ks);
    AllSoundNext(slots, rank, ks, k);
    ValuesNext(ks, Items(Items(e)[1]), k);
    ChainNext(env, spec, ks, k);
  }

  /** A `let` whose values and body have been analysed has a sound derivation. */
  lemma LetIntro(s0: Slots, r0: seq<nat>, slots: Slots, rank: seq<nat>, e: Expr, env: map<string, Type>, spec: bool,
                 base: nat, ks: seq<Typing>, db: Typing)
      returns (d: Typing)
    requires LetSoFar(s0, r0, e, env, spec, ks) && Refines(s0, r0, slots, rank)
    requires RuleOf(e) == Let && |Items(e)| >= 3 && "hasOwnProperty" !in env
    requires |ks| == |Items(Items(e)[1])| / 2
    requires Sound(slots, rank, db) && db.form == Items(e)[2]
    requires db.env == LetEnv(env, Items(Items(e)[1]), Ts(ks)) && db.spec == SpecAfter(spec, ks)
    ensures Records(d, e, env, EnvAfter(env, ks), spec, db.specOut, base, db.t)
    ensures Sound(slots, rank, d) && LetOk(slots, rank, d)
  {
    AllSoundRefines(s0, r0, slots, rank, ks);
    AllSoundNext(slots, rank, ks, db);
    TsNext(ks, db);
    d := Typing(e, env, EnvAfter(env, ks), spec, db.specOut, base, db.t, [], ks + [db]);
    assert LetOk(slots, rank, d);
    assert Obeys(slots, rank, d, Let);
  }

  /** The first `|ks|` bindings of a `let*` have been analysed, in turn, into `ks` and `vs`. */
  ghost predicate StarSoFar(slots: Slots, rank: seq<nat>, env: map<string, Type>, ks: seq<Typing>, vs: seq<Type>, bs: seq<Expr>)
  {
    Ranked(slots, rank) && AllSound(slots, rank, ks) && StarBindings(slots, rank, env, ks, vs, bs)
  }

  /** One more binding, analysed where the ones before left off, extends the `let*`. */
  lemma StarGrow(sa: Slots, ka: seq<nat>, slots: Slots, rank: seq<nat>, env: map<string, Type>,
                 ks: seq<Typing>, vs: seq<Type>, bs: seq<Expr>, k: Typing, v: Type)
    requires StarSoFar(sa, ka, env, ks, vs, bs) && Refines(sa, ka, slots, rank) && 2 * |ks| + 1 < |bs|
    requires Sound(slots, rank, k) && k.form == bs[2 * |ks| + 1] && v.TVar? && k.base == v.id + 1 && k.spec
    requires k.env == EnvAfter(env, ks)[Key(bs[2 * |ks|]) := v] && Same(slots, rank, v, k.t)
    ensures StarSoFar(slots, rank, env, ks + [k], vs + [v], bs)
    ensures EnvAfter(env, ks + [k]) == k.out
  {
    AllSoundRefines(sa, ka, slots, rank, ks);
    AllSoundNext(slots, rank, ks, k);
    StarBindingsRefines(sa, ka, slots, rank, env, ks, vs, bs);
    StarBindingsNext(slots, rank, env, ks, vs, bs, k, v);
  }

  /** A `let*` whose bindings and body have been analysed has a sound derivation. */
  lemma StarIntro(s0: Slots, r0: seq<nat>, slots: Slots, rank: seq<nat>, e: Expr, env: map<string, Type>, spec: bool,
                  base: nat, ks: seq<Typing>, vs: seq<Type>, db: Typing)
      returns (d: Typing)
    requires RuleOf(e) == LetStar && |Items(e)| >= 3 && "hasOwnProperty" !in env
    requires StarSoFar(s0, r0, env, ks, vs, Items(Items(e)[1])) && Refines(s0, r0, slots, rank)
    requires 2 * |ks| == |Items(Items(e)[1])|
    requires Sound(slots, rank, db) && db.form == Items(e)[2] && db.env == EnvAfter(env, ks) && db.spec == spec
    ensures Records(d, e, env, env, spec, db.specOut, base, db.t)
    ensures Sound(slots, rank, d) && StarOk(slots, rank, d)
  {
    AllSoundRefines(s0, r0, slots, rank, ks);
    AllSoundNext(slots, rank, ks, db);
    StarBindingsRefines(s0, r0, slots, rank, env, ks, vs, Items(Items(e)[1]));
    TsNext(ks, db);
    d := Typing(e, env, env, spec, db.specOut, base, db.t, vs, ks + [db]);
    assert StarOk(slots, rank, d);
    assert Obeys(slots, rank, d, LetStar);
  }

  /**
   * A `defn` whose body has a sound derivation with the parameters bound,
   * and whose function type equals the name's variable, has a sound
   * derivation.
   */
  lemma DefnIntro(s0: Slots, r0: seq<nat>, slots: Slots, rank: seq<nat>, e: Expr, env: map<string, Type>, spec: bool,
                  base: nat, db: Typing)
      returns (d: Typing)
    requires Refines(s0, r0, slots, rank) && RuleOf(e) == Defn && |Items(e)| >= 4
    requires var env1 := env[KeyAt(e, 1) := TVar(base)];
      && "hasOwnProperty" !in env1
      && db.form == Items(e)[3] && db.env == BindVars(env1, Items(Items(e)[2]), base + 1) && db.spec
      && db.base == base + 1 + |Items(Items(e)[2])|
    requires Sound(s0, r0, db) && db.base <= |s0|
    requires Same(slots, rank, TVar(base), Fn(Vars(base + 1, |Items(Items(e)[2])|) + [db.t]))
    ensures Records(d, e, env, env[KeyAt(e, 1) := TVar(base)], spec, true, base,
                    Fn(Vars(base + 1, |Items(Items(e)[2])|) + [db.t]))
    ensures Sound(slots, rank, d) && DefnOk(slots, rank, d)
  {
    SoundRefines(s0, r0, slots, rank, db);
    d := Typing(e, env, env[KeyAt(e, 1) := TVar(base)], spec, true, base,
                Fn(Vars(base + 1, |Items(Items(e)[2])|) + [db.t]), [], [db]);
    assert DefnOk(slots, rank, d);
    assert Obeys(slots, rank, d, Defn);
  }

  /** The first `|ks|` constructors `cs` of the data type `defnt` have been analysed, in turn, from `start` and `spec`. */
  ghost predicate DataSoFar(slots: Slots, rank: seq<nat>, start: map<string, Type>, spec: bool,
                            ks: seq<Typing>, cs: seq<Expr>, defnt: Type)
  {
    && Ranked(slots, rank) && |ks| <= |cs| && FormsAre(ks, cs[..|ks|])
    && Chained(start, spec, ks) && Ctors(slots, rank, ks, defnt)
  }

  /** One more constructor, analysed where the ones before left off, extends the `data` form. */
  lemma DataGrow(sa: Slots, ka: seq<nat>, slots: Slots, rank: seq<nat>, start: map<string, Type>, spec: bool,
                 ks: seq<Typing>, cs: seq<Expr>, defnt: Type, k: Typing)
    requires DataSoFar(sa, ka, start, spec, ks, cs, defnt) && Refines(sa, ka, slots, rank) && |ks| < |cs|
    requires k.form == cs[|ks|] && k.env == EnvAfter(start, ks) && k.spec == SpecAfter(spec, ks)
    requires CtorOk(slots, rank, k, defnt)
    ensures DataSoFar(slots, rank, start, spec, ks + [k], cs, defnt)
    ensures EnvAfter(start, ks + [k]) == k.out && SpecAfter(spec, ks + [k]) == k.specOut
  {
    CtorsRefines(sa, ka, slots, rank, ks, defnt);
    CtorsNext(slots, rank, ks, defnt, k);
    ChainNext(start, spec, ks, k);
    FormsNext(ks, cs, 0, |ks|, k);
    assert cs[0..|ks|] == cs[..|ks|];
  }

  /** The constructors before the `j`-th keep `name` bound, to what it was bound at the start when none is called `name`. */
  lemma {:induction false} DataKeeps(slots: Slots, rank: seq<nat>, start: map<string, Type>, spec: bool,
                                     ks: seq<Typing>, cs: seq<Expr>, defnt: Type, name: string, j: nat)
    requires DataSoFar(slots, rank, start, spec, ks, cs, defnt) && name in start && 0 < j <= |ks|
    ensures name in ks[j - 1].out
    ensures (forall k :: 0 <= k < j ==> KeyAt(cs[k], 0) != name) ==> ks[j - 1].out[name] == start[name]
    decreases j
  {
    var c := ks[j - 1];
    assert CtorOk(slots, rank, c, defnt);
    assert c.form == cs[..|ks|][j - 1] == cs[j - 1];
    if j > 1 {
      DataKeeps(slots, rank, start, spec, ks, cs, defnt, name, j - 1);
      assert c.env == ks[j - 2].out;
    }
  }

  /**
   * A `data` form all of whose constructors have been analysed has a sound
   * derivation; its type is what the name is bound to afterwards.
   */
  lemma DataIntro(slots: Slots, rank: seq<nat>, e: Expr, env: map<string, Type>, spec: bool,
                  base: nat, ks: seq<Typing>, t: Type)
      returns (d: Typing)
    requires RuleOf(e) == Data && |Items(e)| >= 3
    requires var name := KeyAt(e, 1);
      && DataSoFar(slots, rank, env[name := TOp(name, [])], spec, ks, Items(Items(e)[2]), TOp(name, []))
      && |ks| == |Items(Items(e)[2])|
      && name in EnvAfter(env[name := TOp(name, [])], ks) && EnvAfter(env[name := TOp(name, [])], ks)[name] == t
    requires Bounded(t, |slots|)
    ensures var start := env[KeyAt(e, 1) := TOp(KeyAt(e, 1), [])];
      Records(d, e, env, EnvAfter(start, ks), spec, SpecAfter(spec, ks), base, t)
    ensures Sound(slots, rank, d)
  {
    var name := KeyAt(e, 1);
    var start := env[name := TOp(name, [])];
    assert Items(Items(e)[2])[..|ks|] == Items(Items(e)[2]);
    d := Typing(e, env, EnvAfter(start, ks), spec, SpecAfter(spec, ks), base, t, [], ks);
    assert DataOk(slots, rank, d);
    assert Obeys(slots, rank, d, Data);
  }

  /** A `.` whose operands have sound derivations, the second analysed where the first left off, has one. */
  lemma PairIntro(s0: Slots, r0: seq<nat>, slots: Slots, rank: seq<nat>, e: Expr, spec: bool, base: nat,
                  d1: Typing, d2: Typing)
      returns (d: Typing)
    requires Refines(s0, r0, slots, rank) && RuleOf(e) == Dot && |Items(e)| >= 3
    requires Sound(s0, r0, d1) && Sound(slots, rank, d2)
    requires d1.form == Items(e)[1] && d2.form == Items(e)[2] && d2.env == d1.out && !d1.spec && !d2.spec
    ensures Records(d, e, d1.env, d2.out, spec, spec, base, Pair(d1.t, d2.t))
    ensures Sound(slots, rank, d) && DotOk(slots, rank, d)
  {
    SoundRefines(s0, r0, slots, rank, d1);
    d := Typing(e, d1.env, d2.out, spec, spec, base, Pair(d1.t, d2.t), [], [d1, d2]);
    assert DotOk(slots, rank, d);
    assert Obeys(slots, rank, d, Dot);
  }
}
