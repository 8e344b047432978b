/**
 * `evalS`: the evaluator of the interpreter, run in place on a chain of
 * `Frames.Frame` objects. Every method is proved to compute what the
 * corresponding function of `Evaluation` computes on the chain's binding
 * maps: the same completion, and the chain left in the same state.
 */
module Interpreter {
  import opened Syntax
  import opened Values
  import opened Scopes
  import opened Frames
  import opened Evaluation

  /** `evalS(expr, env)` */
  method Eval(e: Expr, env: Frame) returns (c: Completion)
    requires env.Valid()
    modifies env.Repr
    decreases ExprSize(e), 3
    ensures env.Valid()
    ensures Step(c, env.Scope()) == Run(e, old(env.Scope()))
  {
    match e
    case Num(n) =>
      c := Normal(Number(n));
    case Sym(s) =>
      if s == "#t" || s == "#f" {
        c := Normal(Text(s));
      } else {
        c := Normal(env.Lookup(s));
      }
    case Node(_) =>
      c := EvalForm(e, env);
  }

  /** The `switch` on `expr[0]`. */
  method EvalForm(e: Expr, env: Frame) returns (c: Completion)
    requires e.Node? && env.Valid()
    modifies env.Repr
    decreases ExprSize(e), 2
    ensures env.Valid()
    ensures Step(c, env.Scope()) == RunForm(e, old(env.Scope()))
  {
    var h := Head(e);
    if h == "nil" {
      c := Normal(Null);
    } else if h == "=" {
      c := EvalEqual(e, env);
    } else if h in {"+", "-", "*"} {
      c := EvalArith(e, env);
    } else if h == "#<undefined>" {
      c := Abrupt(UndefinedForm);
    } else if h == "def" {
      c := EvalDef(e, env);
    } else if h == "set!" {
      c := EvalSet(e, env);
    } else if h == "begin" {
      c := EvalBegin(e, env);
    } else if h == "." {
      c := EvalPair(e, env);
    } else if h in {"<", ">", "<=", ">="} {
      c := EvalCompare(e, env);
    } else if h == "!=" {
      c := EvalDiffer(e, env);
    } else if h == "if" {
      c := EvalIf(e, env);
    } else if h == "quote" {
      c := Normal(if |e.xs| > 1 then Datum(e.xs[1]) else Undefined);
    } else if h == "let-one" {
      c := EvalLetOne(e, env);
    } else if h == "let" {
      c := EvalLet(e, env);
    } else if h == "let*" {
      c := EvalLetStar(e, env);
    } else if h in {"/", "defn", "cons", "car", "cdr", "lambda"} {
      c := Abrupt(Unmodelled);
    } else {
      c := EvalApply(e, env);
    }
  }

  /** `evalS(expr[k], env)` */
  method EvalAt(e: Expr, k: nat, env: Frame) returns (c: Completion)
    requires e.Node? && env.Valid()
    modifies env.Repr
    decreases ExprSize(e), 0, 0
    ensures env.Valid()
    ensures Step(c, env.Scope()) == RunAt(e, k, old(env.Scope()))
  {
    if k < |e.xs| {
      ItemSize(e, k);
      c := Eval(e.xs[k], env);
    } else {
      c := Abrupt(TypeError);
    }
  }

  /** `evalS(expr[1], env)` and then `evalS(expr[2], env)`, unless the first throws. */
  method EvalOperands(e: Expr, env: Frame) returns (a: Completion, b: Completion, ghost mid: Scope)
    requires e.Node? && env.Valid()
    modifies env.Repr
    decreases ExprSize(e), 0, 1
    ensures env.Valid()
    ensures (Step(a, mid), Step(b, env.Scope())) == RunOperands(e, old(env.Scope()))
  {
    a := EvalAt(e, 1, env);
    mid := env.Scope();
    if a.Abrupt? {
      b := a;
    } else {
      b := EvalAt(e, 2, env);
    }
  }

  /** `arithmetic(f, expr, env)` for `+`, `-` and `*`. */
  method EvalArith(e: Expr, env: Frame) returns (c: Completion)
    requires e.Node? && env.Valid() && Head(e) in {"+", "-", "*"}
    modifies env.Repr
    decreases ExprSize(e), 1
    ensures env.Valid()
    ensures Step(c, env.Scope()) == RunArith(e, old(env.Scope()))
  {
    var x, y, _ := EvalOperands(e, env);
    if y.Abrupt? {
      c := y;
    } else if x.value.Number? && y.value.Number? {
      c := Normal(Number(Arith(Head(e), x.value.n, y.value.n)));
    } else {
      c := Abrupt(ArithmeticError);
    }
  }

  /** `<`, `>`, `<=` and `>=` */
  method EvalCompare(e: Expr, env: Frame) returns (c: Completion)
    requires e.Node? && env.Valid() && Head(e) in {"<", ">", "<=", ">="}
    modifies env.Repr
    decreases ExprSize(e), 1
    ensures env.Valid()
    ensures Step(c, env.Scope()) == RunCompare(e, old(env.Scope()))
  {
    var x, y, _ := EvalOperands(e, env);
    if y.Abrupt? {
      c := y;
    } else {
      var t := Compare(Head(e), x.value, y.value);
      c := if t.Some? then Normal(Truth(t.value)) else Abrupt(Unmodelled);
    }
  }

  /** `!=` */
  method EvalDiffer(e: Expr, env: Frame) returns (c: Completion)
    requires e.Node? && env.Valid()
    modifies env.Repr
    decreases ExprSize(e), 1
    ensures env.Valid()
    ensures Step(c, env.Scope()) == RunDiffer(e, old(env.Scope()))
  {
    var x, y, _ := EvalOperands(e, env);
    if y.Abrupt? {
      c := y;
    } else {
      var same := StrictEquals(x.value, y.value);
      c := if same.Some? then Normal(Truth(!same.value)) else Abrupt(Unmodelled);
    }
  }

  /** `.` */
  method EvalPair(e: Expr, env: Frame) returns (c: Completion)
    requires e.Node? && env.Valid()
    modifies env.Repr
    decreases ExprSize(e), 1
    ensures env.Valid()
    ensures Step(c, env.Scope()) == RunPair(e, old(env.Scope()))
  {
    var x, y, _ := EvalOperands(e, env);
    if y.Abrupt? {
      c := y;
    } else {
      c := Normal(Cells([Text("."), x.value, y.value]));
    }
  }

  /** `=`: stops at the first pair of consecutive operands that differ. */
  method EvalEqual(e: Expr, env: Frame) returns (c: Completion)
    requires e.Node? && env.Valid()
    modifies env.Repr
    decreases ExprSize(e), 1
    ensures env.Valid()
    ensures Step(c, env.Scope()) == RunEqual(e, 1, old(env.Scope()))
  {
    var i := 1;
    while i + 1 < |e.xs|
      invariant 1 <= i && env.Valid()
      invariant RunEqual(e, i, env.Scope()) == RunEqual(e, 1, old(env.Scope()))
      decreases |e.xs| - i
    {
      ItemSize(e, i);
      ItemSize(e, i + 1);
      var a := Eval(e.xs[i], env);
      if a.Abrupt? {
        return a;
      }
      var b := Eval(e.xs[i + 1], env);
      if b.Abrupt? {
        return b;
      }
      var same := StrictEquals(a.value, b.value);
      if same.None? {
        return Abrupt(Unmodelled);
      } else if !same.value {
        return Normal(False);
      }
      i := i + 1;
    }
    c := Normal(True);
  }

  /** `begin`: the value of the last form, `undefined` when there is none. */
  method EvalBegin(e: Expr, env: Frame) returns (c: Completion)
    requires e.Node? && env.Valid()
    modifies env.Repr
    decreases ExprSize(e), 1
    ensures env.Valid()
    ensures Step(c, env.Scope()) == RunBegin(e, 1, Undefined, old(env.Scope()))
  {
    var res := Undefined;
    var i := 1;
    while i < |e.xs|
      invariant 1 <= i && env.Valid()
      invariant RunBegin(e, i, res, env.Scope()) == RunBegin(e, 1, Undefined, old(env.Scope()))
      decreases |e.xs| - i
    {
      ItemSize(e, i);
      var a := Eval(e.xs[i], env);
      if a.Abrupt? {
        return a;
      }
      res := a.value;
      i := i + 1;
    }
    c := Normal(res);
  }

  /** `def`: binds the name in the current frame and returns 0. */
  method EvalDef(e: Expr, env: Frame) returns (c: Completion)
    requires e.Node? && env.Valid() && Head(e) == "def"
    modifies env.Repr
    decreases ExprSize(e), 1
    ensures env.Valid()
    ensures Step(c, env.Scope()) == RunDef(e, old(env.Scope()))
  {
    var x := KeyAt(e, 1);
    if env.Lookup(x) != Null {
      return Abrupt(AlreadyDefined);
    } else if |e.xs| != 3 {
      return Abrupt(TypeError);
    }
    var a := EvalAt(e, 2, env);
    if a.Abrupt? {
      return a;
    }
    var r := env.AddBinding(x, a.value);
    c := Normal(Number(r));
  }

  /** `set!`: rebinds the name where `lookup` finds it and returns 0. */
  method EvalSet(e: Expr, env: Frame) returns (c: Completion)
    requires e.Node? && env.Valid() && Head(e) == "set!"
    modifies env.Repr
    decreases ExprSize(e), 1
    ensures env.Valid()
    ensures Step(c, env.Scope()) == RunSet(e, old(env.Scope()))
  {
    var x := KeyAt(e, 1);
    if env.Lookup(x) == Null {
      return Abrupt(Unset);
    }
    var a := EvalAt(e, 2, env);
    if a.Abrupt? {
      return a;
    }
    var u := env.Update(x, a.value);
    c := if u.Abrupt? then u else Normal(Number(0));
  }

  /** `if` */
  method EvalIf(e: Expr, env: Frame) returns (c: Completion)
    requires e.Node? && env.Valid()
    modifies env.Repr
    decreases ExprSize(e), 1
    ensures env.Valid()
    ensures Step(c, env.Scope()) == RunIf(e, old(env.Scope()))
  {
    var test := EvalAt(e, 1, env);
    if test.Abrupt? {
      c := test;
    } else if test.value == True {
      c := EvalAt(e, 2, env);
    } else {
      c := EvalAt(e, 3, env);
    }
  }

  /** `let-one`: the body runs in `{bindings: {name: value}, outer: env}`. */
  method EvalLetOne(e: Expr, env: Frame) returns (c: Completion)
    requires e.Node? && env.Valid()
    modifies env.Repr
    decreases ExprSize(e), 1
    ensures env.Valid()
    ensures Step(c, env.Scope()) == RunLetOne(e, old(env.Scope()))
  {
    var a := EvalAt(e, 2, env);
    if a.Abrupt? {
      return a;
    }
    var newenv := new Frame.Extend(map[KeyAt(e, 1) := a.value], env);
    c := EvalAt(e, 3, newenv);
  }

  /** `let`: every value is evaluated in `env`; the body runs in a new frame holding them all. */
  method EvalLet(e: Expr, env: Frame) returns (c: Completion)
    requires e.Node? && env.Valid()
    modifies env.Repr
    decreases ExprSize(e), 1
    ensures env.Valid()
    ensures Step(c, env.Scope()) == RunLet(e, old(env.Scope()))
  {
    if |e.xs| < 2 || OddBindings(e) {
      return Abrupt(TypeError);
    }
    var a, bind := LetValues(e, env);
    if a.Abrupt? {
      return a;
    }
    var newenv := new Frame.Extend(bind, env);
    c := EvalAt(e, 2, newenv);
  }

  /** The `let` loop: the values in order, each in `env`, collected into one map. */
  method LetValues(e: Expr, env: Frame) returns (a: Completion, bind: map<string, Value>)
    requires e.Node? && |e.xs| >= 2 && !OddBindings(e) && env.Valid()
    modifies env.Repr
    decreases ExprSize(e), 0, 1
    ensures env.Valid()
    ensures RunLetBindings(e, 0, map[], old(env.Scope())) ==
      if a.Abrupt? then Step(a, env.Scope()) else RunLetBindings(e, |Items(e.xs[1])|, bind, env.Scope())
  {
    var bs := Items(e.xs[1]);
    bind := map[];
    a := Normal(Undefined);
    var i := 0;
    while i < |bs|
      invariant i % 2 == 0 && i <= |bs| && env.Valid() && a.Normal?
      invariant RunLetBindings(e, i, bind, env.Scope()) == RunLetBindings(e, 0, map[], old(env.Scope()))
      decreases |bs| - i
    {
      ghost var st, b0 := env.Scope(), bind;
      a, bind := LetBinding(e, i, bind, env);
      LetTurn(e, i, b0, st, a, env.Scope());
      if a.Abrupt? {
        return;
      }
      i := i + 2;
    }
  }

  /**
   * `let*`: the first value is evaluated in `env`, every later one in the
   * frame `{bindings: bind, outer: env}` over the one map `bind` the loop
   * writes each name into. The loop builds that frame afresh on every turn;
   * each new frame has the same map and the same outer environment.
   */
  method EvalLetStar(e: Expr, env: Frame) returns (c: Completion)
    requires e.Node? && env.Valid()
    modifies env.Repr
    decreases ExprSize(e), 1
    ensures env.Valid()
    ensures Step(c, env.Scope()) == RunLetStar(e, old(env.Scope()))
  {
    if |e.xs| < 2 || OddBindings(e) {
      return Abrupt(TypeError);
    }
    var a, newenv, started := StarValues(e, env);
    if a.Abrupt? {
      return a;
    }
    c := EvalAt(e, 2, newenv);
  }

  /** The `let*` loop; `newenv` is the environment the body is to run in. */
  method StarValues(e: Expr, env: Frame) returns (a: Completion, newenv: Frame, started: bool)
    requires e.Node? && |e.xs| >= 2 && !OddBindings(e) && env.Valid()
    modifies env.Repr
    decreases ExprSize(e), 0, 1
    ensures env.Valid() && newenv.Valid()
    ensures if started then fresh(newenv) && newenv.outer == env && newenv.Repr == {newenv} + env.Repr
      else newenv == env
    ensures RunStarBindings(e, 0, old(env.Scope()), false) ==
      if a.Abrupt? then Step(a, env.Scope())
      else RunStarBindings(e, |Items(e.xs[1])|, newenv.Scope(), started)
  {
    var bs := Items(e.xs[1]);
    newenv := env;
    started := false;
    a := Normal(Undefined);
    var i := 0;
    while i < |bs|
      invariant i % 2 == 0 && i <= |bs| && newenv.Valid() && a.Normal?
      invariant if started then fresh(newenv) && newenv.outer == env && newenv.Repr == {newenv} + env.Repr
        else newenv == env
      invariant RunStarBindings(e, i, newenv.Scope(), started) == RunStarBindings(e, 0, old(env.Scope()), false)
      decreases |bs| - i
    {
      var next;
      ghost var st := newenv.Scope();
      a, next := StarBinding(e, i, newenv, started, env, st);
      StarTurn(e, i, st, started, a, newenv.Scope(), next.Scope());
      if a.Abrupt? {
        return;
      }
      newenv := next;
      started := true;
      i := i + 2;
    }
  }

  /** One turn of the `let` loop: `bind[expr[1][i]] = evalS(expr[1][i + 1], env)`. */
  method LetBinding(e: Expr, i: nat, bind: map<string, Value>, env: Frame)
    returns (a: Completion, bind': map<string, Value>)
    requires e.Node? && |e.xs| >= 2 && !OddBindings(e) && i % 2 == 0 && i < |Items(e.xs[1])|
    requires env.Valid()
    modifies env.Repr
    decreases ExprSize(e), 0, 0
    ensures env.Valid()
    ensures Step(a, env.Scope()) == Run(Items(e.xs[1])[i + 1], old(env.Scope()))
    ensures bind' == if a.Abrupt? then bind else bind[Key(Items(e.xs[1])[i]) := a.value]
  {
    var bs := Items(e.xs[1]);
    ItemSize(e, 1);
    ItemSize(e.xs[1], i + 1);
    a := Eval(bs[i + 1], env);
    bind' := if a.Abrupt? then bind else bind[Key(bs[i]) := a.value];
  }

  /**
   * One turn of the `let*` loop: `bind[expr[1][i]] = evalS(expr[1][i + 1],
   * newenv)`, then `newenv = {bindings: bind, outer: env}`. Before the first
   * turn `newenv` is `env` and `bind` is empty; after it, `bind` is the map
   * of `newenv`.
   */
  method StarBinding(e: Expr, i: nat, newenv: Frame, started: bool, env: Frame, ghost st: Scope)
    returns (a: Completion, next: Frame)
    requires e.Node? && |e.xs| >= 2 && !OddBindings(e) && i % 2 == 0 && i < |Items(e.xs[1])|
    requires newenv.Valid() && (if started then newenv.outer == env else newenv == env)
    requires st == newenv.Scope() && |st| >= (if started then 2 else 1)
    modifies newenv.Repr
    decreases ExprSize(e), 0, 0
    ensures newenv.Valid() && env.Valid() && next.Valid()
    ensures a.Abrupt? ==> next == newenv
    ensures a.Normal? ==> fresh(next) && next.outer == env && next.Repr == {next} + env.Repr
    ensures Step(a, newenv.Scope()) == Run(Items(e.xs[1])[i + 1], st)
    ensures Outer(newenv.Scope(), started) == env.Scope()
    ensures a.Normal? ==>
      var x := Key(Items(e.xs[1])[i]);
      next.Scope() == if started then Define(newenv.Scope(), x, a.value) else [map[x := a.value]] + newenv.Scope()
  {
    var bs := Items(e.xs[1]);
    ItemSize(e, 1);
    ItemSize(e.xs[1], i + 1);
    a := Eval(bs[i + 1], newenv);
    if a.Abrupt? {
      next := newenv;
    } else {
      next := StarFrame(newenv, started, env, Key(bs[i]), a.value);
    }
  }

  /** The frame a turn of the `let*` loop leaves: `bind`, with `x` bound to `v`, over `env`. */
  method StarFrame(newenv: Frame, started: bool, env: Frame, x: string, v: Value) returns (next: Frame)
    requires newenv.Valid() && (if started then newenv.outer == env else newenv == env)
    ensures fresh(next) && next.Valid() && next.outer == env && next.Repr == {next} + env.Repr
    ensures next.Scope() == if started then Define(newenv.Scope(), x, v) else [map[x := v]] + newenv.Scope()
  {
    var bind := if started then newenv.bindings else map[];
    next := new Frame.Extend(bind[x := v], env);
    assert started ==> newenv.Scope() == [bind] + env.Scope();
  }

  /**
   * Application: the operands are evaluated in order, then the value bound
   * to the operator is called; no value of this model is a function, so the
   * call throws.
   */
  method EvalApply(e: Expr, env: Frame) returns (c: Completion)
    requires e.Node? && env.Valid()
    modifies env.Repr
    decreases ExprSize(e), 1
    ensures env.Valid()
    ensures Step(c, env.Scope()) == RunApply(e, 1, old(env.Scope()))
  {
    var i := 1;
    while i < |e.xs|
      invariant 1 <= i && env.Valid()
      invariant RunApply(e, i, env.Scope()) == RunApply(e, 1, old(env.Scope()))
      decreases |e.xs| - i
    {
      ItemSize(e, i);
      var a := Eval(e.xs[i], env);
      if a.Abrupt? {
        return a;
      }
      i := i + 1;
    }
    c := Abrupt(TypeError);
  }
}
