/**
 * What `evalS` computes, as functions over the environment chain seen as
 * data (`Scopes.Scope`): each evaluation yields a completion and the chain
 * it leaves behind. `Interpreter.Eval` performs the same evaluation in place
 * on `Frames.Frame` objects and is proved to agree with `Run`.
 *
 * The first-order forms are modelled; `lambda`, `defn`, `/`, `cons`, `car`
 * and `cdr` end in `Unmodelled`.
 */
module Evaluation {
  import opened Types
  import opened Syntax
  import opened Values
  import opened Scopes

  /** A completion and the environment chain after the evaluation. */
  datatype Step = Step(c: Completion, scope: Scope)

  /** The chain keeps its frames, and no frame loses a binding. */
  ghost predicate Grows(sc: Scope, sc': Scope)
  {
    |sc'| == |sc| && forall j :: 0 <= j < |sc| ==> sc[j].Keys <= sc'[j].Keys
  }

  /** No `def` or `set!` form occurs anywhere in `e`. */
  predicate Pure(e: Expr)
    decreases e
  {
    match e
    case Node(xs) =>
      && !(|xs| > 0 && (xs[0] == Sym("def") || xs[0] == Sym("set!")))
      && forall k :: 0 <= k < |xs| ==> Pure(xs[k])
    case _ => true
  }

  /** What evaluating (part of) `e` may do to the chain: grow it, and leave it alone when `e` is pure. */
  ghost predicate Conserves(e: Expr, sc: Scope, sc': Scope)
  {
    Grows(sc, sc') && (Pure(e) ==> sc' == sc)
  }

  lemma PureItem(x: Expr, k: nat)
    ensures Pure(x) && k < |Items(x)| ==> Pure(Items(x)[k])
  {
  }

  lemma GrowsTail(sc: Scope, sc': Scope)
    ensures |sc| >= 1 && Grows(sc, sc') ==> Grows(sc[1..], sc'[1..])
  {
    if |sc| >= 1 && Grows(sc, sc') {
      forall j | 0 <= j < |sc| - 1 ensures sc[1..][j].Keys <= sc'[1..][j].Keys {
        assert sc[1..][j] == sc[j + 1];
      }
    }
  }

  /** The chain with the innermost frame dropped when `started`. */
  function Outer(sc: Scope, started: bool): Scope
    requires |sc| >= 1
  {
    if started then sc[1..] else sc
  }

  /** The operator a compound form is dispatched on; "" matches no case. */
  function Head(e: Expr): string
  {
    if Tag(e).Some? then Tag(e).value else ""
  }

  /** `evalS(expr, env)` where `sc` is the chain of `env`. */
  function Run(e: Expr, sc: Scope): (r: Step)
    requires |sc| >= 1
    ensures Conserves(e, sc, r.scope)
    decreases ExprSize(e), 3
  {
    match e
    case Num(n) => Step(Normal(Number(n)), sc)
    case Sym(s) =>
      if s == "#t" || s == "#f" then Step(Normal(Text(s)), sc)
      else Step(Normal(Find(sc, s)), sc)
    case Node(_) => RunForm(e, sc)
  }

  /** The `switch` on `expr[0]`. */
  function RunForm(e: Expr, sc: Scope): (r: Step)
    requires e.Node? && |sc| >= 1
    ensures Conserves(e, sc, r.scope)
    decreases ExprSize(e), 2
  {
    var h := Head(e);
    if h == "nil" then Step(Normal(Null), sc)
    else if h == "=" then RunEqual(e, 1, sc)
    else if h in {"+", "-", "*"} then RunArith(e, sc)
    else if h == "#<undefined>" then Step(Abrupt(UndefinedForm), sc)
    else if h == "def" then RunDef(e, sc)
    else if h == "set!" then RunSet(e, sc)
    else if h == "begin" then RunBegin(e, 1, Undefined, sc)
    else if h == "." then RunPair(e, sc)
    else if h in {"<", ">", "<=", ">="} then RunCompare(e, sc)
    else if h == "!=" then RunDiffer(e, sc)
    else if h == "if" then RunIf(e, sc)
    else if h == "quote" then Step(Normal(if |e.xs| > 1 then Datum(e.xs[1]) else Undefined), sc)
    else if h == "let-one" then RunLetOne(e, sc)
    else if h == "let" then RunLet(e, sc)
    else if h == "let*" then RunLetStar(e, sc)
    else if h in {"/", "defn", "cons", "car", "cdr", "lambda"} then Step(Abrupt(Unmodelled), sc)
    else RunApply(e, 1, sc)
  }

  /** `evalS(expr[k], env)`; a missing element is `undefined`, and evaluating it throws. */
  function RunAt(e: Expr, k: nat, sc: Scope): (r: Step)
    requires e.Node? && |sc| >= 1
    ensures Conserves(e, sc, r.scope)
    decreases ExprSize(e), 0, 0
  {
    if k < |e.xs| then
      ItemSize(e, k);
      Run(e.xs[k], sc)
    else Step(Abrupt(TypeError), sc)
  }

  /** `evalS(expr[1], env)` then `evalS(expr[2], env)`, stopping at the first fault. */
  function RunOperands(e: Expr, sc: Scope): (r: (Step, Step))
    requires e.Node? && |sc| >= 1
    ensures |r.0.scope| >= 1 && Conserves(e, sc, r.0.scope) && Conserves(e, r.0.scope, r.1.scope)
    ensures r.0.c.Abrupt? ==> r.1 == r.0
    decreases ExprSize(e), 0, 1
  {
    var a := RunAt(e, 1, sc);
    if a.c.Abrupt? then (a, a) else (a, RunAt(e, 2, a.scope))
  }

  /** `arithmetic`: both operands must be numbers. */
  function RunArith(e: Expr, sc: Scope): (r: Step)
    requires e.Node? && |sc| >= 1 && Head(e) in {"+", "-", "*"}
    ensures Conserves(e, sc, r.scope)
    decreases ExprSize(e), 1
  {
    var (a, b) := RunOperands(e, sc);
    if b.c.Abrupt? then b
    else if a.c.value.Number? && b.c.value.Number? then
      Step(Normal(Number(Arith(Head(e), a.c.value.n, b.c.value.n))), b.scope)
    else Step(Abrupt(ArithmeticError), b.scope)
  }

  function RunCompare(e: Expr, sc: Scope): (r: Step)
    requires e.Node? && |sc| >= 1 && Head(e) in {"<", ">", "<=", ">="}
    ensures Conserves(e, sc, r.scope)
    decreases ExprSize(e), 1
  {
    var (a, b) := RunOperands(e, sc);
    if b.c.Abrupt? then b
    else match Compare(Head(e), a.c.value, b.c.value)
      case None => Step(Abrupt(Unmodelled), b.scope)
      case Some(t) => Step(Normal(Truth(t)), b.scope)
  }

  /** `!=` */
  function RunDiffer(e: Expr, sc: Scope): (r: Step)
    requires e.Node? && |sc| >= 1
    ensures Conserves(e, sc, r.scope)
    decreases ExprSize(e), 1
  {
    var (a, b) := RunOperands(e, sc);
    if b.c.Abrupt? then b
    else match StrictEquals(a.c.value, b.c.value)
      case None => Step(Abrupt(Unmodelled), b.scope)
      case Some(same) => Step(Normal(Truth(!same)), b.scope)
  }

  /** `.`: the array `[".", a, b]`. */
  function RunPair(e: Expr, sc: Scope): (r: Step)
    requires e.Node? && |sc| >= 1
    ensures Conserves(e, sc, r.scope)
    decreases ExprSize(e), 1
  {
    var (a, b) := RunOperands(e, sc);
    if b.c.Abrupt? then b
    else Step(Normal(Cells([Text("."), a.c.value, b.c.value])), b.scope)
  }

  /** `=`: the operands from `expr[i]` on, pair by pair, each evaluated afresh. */
  function RunEqual(e: Expr, i: nat, sc: Scope): (r: Step)
    requires e.Node? && |sc| >= 1
    ensures Conserves(e, sc, r.scope)
    decreases ExprSize(e), 0, |e.xs| - i
  {
    if i + 1 < |e.xs| then
      ItemSize(e, i);
      ItemSize(e, i + 1);
      var a := Run(e.xs[i], sc);
      if a.c.Abrupt? then a
      else
        var b := Run(e.xs[i + 1], a.scope);
        if b.c.Abrupt? then b
        else match StrictEquals(a.c.value, b.c.value)
          case None => Step(Abrupt(Unmodelled), b.scope)
          case Some(false) => Step(Normal(False), b.scope)
          case Some(true) => RunEqual(e, i + 1, b.scope)
    else Step(Normal(True), sc)
  }

  /** `begin`: the forms from `expr[i]` on; `last` is the value of the one before. */
  function RunBegin(e: Expr, i: nat, last: Value, sc: Scope): (r: Step)
    requires e.Node? && |sc| >= 1
    ensures Conserves(e, sc, r.scope)
    decreases ExprSize(e), 0, |e.xs| - i
  {
    if i < |e.xs| then
      ItemSize(e, i);
      var a := Run(e.xs[i], sc);
      if a.c.Abrupt? then a
      else RunBegin(e, i + 1, a.c.value, a.scope)
    else Step(Normal(last), sc)
  }

  /** `def` */
  function RunDef(e: Expr, sc: Scope): (r: Step)
    requires e.Node? && |sc| >= 1 && Head(e) == "def"
    ensures Conserves(e, sc, r.scope)
    decreases ExprSize(e), 1
  {
    var x := KeyAt(e, 1);
    if Find(sc, x) != Null then Step(Abrupt(AlreadyDefined), sc)
    else if |e.xs| != 3 then Step(Abrupt(TypeError), sc)
    else
      var a := RunAt(e, 2, sc);
      if a.c.Abrupt? then a
      else Step(Normal(Number(0)), Define(a.scope, x, a.c.value))
  }

  /** `set!` */
  function RunSet(e: Expr, sc: Scope): (r: Step)
    requires e.Node? && |sc| >= 1 && Head(e) == "set!"
    ensures Conserves(e, sc, r.scope)
    decreases ExprSize(e), 1
  {
    var x := KeyAt(e, 1);
    if Find(sc, x) == Null then Step(Abrupt(Unset), sc)
    else
      var a := RunAt(e, 2, sc);
      if a.c.Abrupt? then a
      else if Holder(a.scope, x) < |a.scope| then Step(Normal(Number(0)), Rebind(a.scope, x, a.c.value))
      else Step(Abrupt(UpdateError), a.scope)
  }

  /** `if`: the then-branch when the condition is `'#t'`, the else-branch otherwise. */
  function RunIf(e: Expr, sc: Scope): (r: Step)
    requires e.Node? && |sc| >= 1
    ensures Conserves(e, sc, r.scope)
    decreases ExprSize(e), 1
  {
    var a := RunAt(e, 1, sc);
    if a.c.Abrupt? then a
    else if a.c.value == True then RunAt(e, 2, a.scope)
    else RunAt(e, 3, a.scope)
  }

  /** `let-one`: one name, bound in a new frame around the body. */
  function RunLetOne(e: Expr, sc: Scope): (r: Step)
    requires e.Node? && |sc| >= 1
    ensures Conserves(e, sc, r.scope)
    decreases ExprSize(e), 1
  {
    var a := RunAt(e, 2, sc);
    if a.c.Abrupt? then a
    else
      var b := RunAt(e, 3, [map[KeyAt(e, 1) := a.c.value]] + a.scope);
      GrowsTail([map[KeyAt(e, 1) := a.c.value]] + a.scope, b.scope);
      Step(b.c, b.scope[1..])
  }

  /** The binding list of `let` and `let*` has an odd length (a number has none, and fails the check too). */
  predicate OddBindings(e: Expr)
    requires e.Node? && |e.xs| >= 2
  {
    e.xs[1].Num? || |Items(e.xs[1])| % 2 != 0
  }

  /** `let` */
  function RunLet(e: Expr, sc: Scope): (r: Step)
    requires e.Node? && |sc| >= 1
    ensures Conserves(e, sc, r.scope)
    decreases ExprSize(e), 1
  {
    if |e.xs| < 2 || OddBindings(e) then Step(Abrupt(TypeError), sc)
    else RunLetBindings(e, 0, map[], sc)
  }

  /** The `let` loop from the `i`-th binding on: every value in the outer chain, then the body in a new frame. */
  function RunLetBindings(e: Expr, i: nat, bind: map<string, Value>, sc: Scope): (r: Step)
    requires e.Node? && |e.xs| >= 2 && !OddBindings(e) && i % 2 == 0 && i <= |Items(e.xs[1])| && |sc| >= 1
    ensures Conserves(e, sc, r.scope)
    decreases ExprSize(e), 0, |Items(e.xs[1])| - i + 1
  {
    var bs := Items(e.xs[1]);
    if i < |bs| then
      ItemSize(e, 1);
      ItemSize(e.xs[1], i + 1);
      PureItem(e.xs[1], i + 1);
      var a := Run(bs[i + 1], sc);
      if a.c.Abrupt? then a
      else RunLetBindings(e, i + 2, bind[Key(bs[i]) := a.c.value], a.scope)
    else
      var b := RunAt(e, 2, [bind] + sc);
      GrowsTail([bind] + sc, b.scope);
      Step(b.c, b.scope[1..])
  }

  /** One turn of the `let` loop: `a` is what the value's form gave in `sc`, leaving the chain `sc1`. */
  lemma LetTurn(e: Expr, i: nat, bind: map<string, Value>, sc: Scope, a: Completion, sc1: Scope)
    requires e.Node? && |e.xs| >= 2 && !OddBindings(e) && i % 2 == 0 && i < |Items(e.xs[1])| && |sc| >= 1
    requires Step(a, sc1) == Run(Items(e.xs[1])[i + 1], sc)
    ensures |sc1| >= |sc| && i + 2 <= |Items(e.xs[1])|
    ensures RunLetBindings(e, i, bind, sc) ==
      if a.Abrupt? then Step(a, sc1)
      else RunLetBindings(e, i + 2, bind[Key(Items(e.xs[1])[i]) := a.value], sc1)
  {
  }

  /** `let*` */
  function RunLetStar(e: Expr, sc: Scope): (r: Step)
    requires e.Node? && |sc| >= 1
    ensures Conserves(e, sc, r.scope)
    decreases ExprSize(e), 1
  {
    if |e.xs| < 2 || OddBindings(e) then Step(Abrupt(TypeError), sc)
    else RunStarBindings(e, 0, sc, false)
  }

  /**
   * The `let*` loop from the `i`-th binding on. Until the first binding is
   * made, values are evaluated in the outer chain; from then on in a frame
   * holding the one binding map the loop writes every name into, whose
   * outer is the outer chain. The frame is dropped at the end.
   */
  function RunStarBindings(e: Expr, i: nat, st: Scope, started: bool): (r: Step)
    requires e.Node? && |e.xs| >= 2 && !OddBindings(e) && i % 2 == 0 && i <= |Items(e.xs[1])|
    requires |st| >= (if started then 2 else 1)
    ensures Conserves(e, Outer(st, started), r.scope)
    decreases ExprSize(e), 0, |Items(e.xs[1])| - i + 1
  {
    var bs := Items(e.xs[1]);
    if i < |bs| then
      ItemSize(e, 1);
      ItemSize(e.xs[1], i + 1);
      PureItem(e.xs[1], i + 1);
      var a := Run(bs[i + 1], st);
      GrowsTail(st, a.scope);
      if a.c.Abrupt? then Step(a.c, Outer(a.scope, started))
      else
        var x := Key(bs[i]);
        var st' := if started then Define(a.scope, x, a.c.value) else [map[x := a.c.value]] + a.scope;
        assert Outer(st', true) == Outer(a.scope, started);
        RunStarBindings(e, i + 2, st', true)
    else
      var b := RunAt(e, 2, st);
      GrowsTail(st, b.scope);
      Step(b.c, Outer(b.scope, started))
  }

  /**
   * One turn of the `let*` loop: `a` is what the value's form gave, leaving
   * the chain `st1`, and `st2` the chain after the name is bound to it.
   */
  lemma StarTurn(e: Expr, i: nat, st: Scope, started: bool, a: Completion, st1: Scope, st2: Scope)
    requires e.Node? && |e.xs| >= 2 && !OddBindings(e) && i % 2 == 0 && i < |Items(e.xs[1])|
    requires |st| >= (if started then 2 else 1)
    requires Step(a, st1) == Run(Items(e.xs[1])[i + 1], st)
    requires a.Normal? ==> st2 == if started then Define(st1, Key(Items(e.xs[1])[i]), a.value)
                                  else [map[Key(Items(e.xs[1])[i]) := a.value]] + st1
    ensures |st1| >= |st| && i + 2 <= |Items(e.xs[1])|
    ensures RunStarBindings(e, i, st, started) ==
      if a.Abrupt? then Step(a, Outer(st1, started)) else RunStarBindings(e, i + 2, st2, true)
  {
  }

  /**
   * Application: the operands from `expr[i]` on are evaluated, then the
   * value bound to the operator is called. No value of this model is a
   * function, so the call throws.
   */
  function RunApply(e: Expr, i: nat, sc: Scope): (r: Step)
    requires e.Node? && |sc| >= 1
    ensures Conserves(e, sc, r.scope)
    ensures r.c.Abrupt?
    decreases ExprSize(e), 0, |e.xs| - i
  {
    if i < |e.xs| then
      ItemSize(e, i);
      var a := Run(e.xs[i], sc);
      if a.c.Abrupt? then a
      else RunApply(e, i + 1, a.scope)
    else Step(Abrupt(TypeError), sc)
  }
}
