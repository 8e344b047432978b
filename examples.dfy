/**
 * Programs from the evaluator's own test suite, evaluated by the model in a
 * fresh global environment (one empty frame).
 */
module Examples {
  import opened Syntax
  import opened Values
  import opened Scopes
  import opened Evaluation

  const Global: Scope := [map[]]

  function Form2(a: Expr, b: Expr): Expr { Node([a, b]) }
  function Form3(a: Expr, b: Expr, c: Expr): Expr { Node([a, b, c]) }
  function Form4(a: Expr, b: Expr, c: Expr, d: Expr): Expr { Node([a, b, c, d]) }

  /** `(+ 41 1)` is 42 and `(+ x 42)` with `x` unbound is an arithmetic error. */
  lemma Arithmetic()
    ensures Run(Form3(Sym("+"), Num(41), Num(1)), Global).c == Normal(Number(42))
    ensures Run(Form3(Sym("+"), Sym("x"), Num(42)), Global).c == Abrupt(ArithmeticError)
  {
    assert Run(Form3(Sym("+"), Sym("x"), Num(42)), Global) == RunArith(Form3(Sym("+"), Sym("x"), Num(42)), Global);
  }

  /** `(begin (def x 42) x)` is 42. */
  lemma DefineThenLookup()
    ensures Run(Form3(Sym("begin"), Form3(Sym("def"), Sym("x"), Num(42)), Sym("x")), Global).c == Normal(Number(42))
  {
    var d := Form3(Sym("def"), Sym("x"), Num(42));
    var e := Form3(Sym("begin"), d, Sym("x"));
    var m := [map["x" := Number(42)]];
    assert Run(e, Global) == RunBegin(e, 1, Undefined, Global);
    assert Run(d, Global) == Step(Normal(Number(0)), m);
    assert RunBegin(e, 1, Undefined, Global) == RunBegin(e, 2, Number(0), m);
  }

  /** Defining `x` again in `{bindings: {x: 42}, outer: {}}` throws. */
  lemma Redefine()
    ensures Run(Form3(Sym("def"), Sym("x"), Num(42)), [map["x" := Number(42)], map[]]).c == Abrupt(AlreadyDefined)
  {
  }

  /** `(begin (def x 42) (set! x 0))` is 0. */
  lemma SetDefined()
    ensures Run(Form3(Sym("begin"), Form3(Sym("def"), Sym("x"), Num(42)), Form3(Sym("set!"), Sym("x"), Num(0))), Global).c
      == Normal(Number(0))
  {
    var d := Form3(Sym("def"), Sym("x"), Num(42));
    var e := Form3(Sym("begin"), d, Form3(Sym("set!"), Sym("x"), Num(0)));
    var m := [map["x" := Number(42)]];
    assert Run(e, Global) == RunBegin(e, 1, Undefined, Global);
    assert Run(d, Global) == Step(Normal(Number(0)), m);
    assert RunBegin(e, 1, Undefined, Global) == RunBegin(e, 2, Number(0), m);
    SetBound();
  }

  /** `(set! x 0)` where `x` is bound to 42 is 0. */
  lemma SetBound()
    ensures Run(Form3(Sym("set!"), Sym("x"), Num(0)), [map["x" := Number(42)]]).c == Normal(Number(0))
  {
    var e := Form3(Sym("set!"), Sym("x"), Num(0));
    var m := [map["x" := Number(42)]];
    assert Holder(m, "x") == 0;
    assert Run(e, m) == RunSet(e, m);
  }

  /** `(set! x 42)` on an unbound `x` throws. */
  lemma SetUnbound()
    ensures Run(Form3(Sym("set!"), Sym("x"), Num(42)), Global).c == Abrupt(Unset)
  {
  }

  /** `(if (= 4 4) #f #t)` is `'#f'`. */
  lemma IfTrue()
    ensures Run(Form4(Sym("if"), Form3(Sym("="), Num(4), Num(4)), Sym("#f"), Sym("#t")), Global).c == Normal(False)
  {
  }

  /** `(if (= 4 6) #f #t)` is `'#t'`. */
  lemma IfFalse()
    ensures Run(Form4(Sym("if"), Form3(Sym("="), Num(4), Num(6)), Sym("#f"), Sym("#t")), Global).c == Normal(True)
  {
  }

  /** `(= 5 5)` is `'#t'` and `(= 5 4)` is `'#f'`. */
  lemma Equality()
    ensures Run(Form3(Sym("="), Num(5), Num(5)), Global).c == Normal(True)
    ensures Run(Form3(Sym("="), Num(5), Num(4)), Global).c == Normal(False)
  {
  }

  /**
   * `(= 0 (def x 0) 0)` throws although both of its pairs are equal: the
   * middle operand is evaluated once for each pair, and its second `def`
   * finds `x` already defined.
   */
  lemma EqualTwice()
    ensures var e := Form4(Sym("="), Num(0), Form3(Sym("def"), Sym("x"), Num(0)), Num(0));
      Run(e, Global).c == Abrupt(AlreadyDefined)
  {
    var d := Form3(Sym("def"), Sym("x"), Num(0));
    var e := Form4(Sym("="), Num(0), d, Num(0));
    var m := [map["x" := Number(0)]];
    assert Run(e, Global) == RunEqual(e, 1, Global);
    assert Run(d, Global) == Step(Normal(Number(0)), m);
    assert RunEqual(e, 1, Global) == RunEqual(e, 2, m);
    assert Run(d, m).c == Abrupt(AlreadyDefined);
  }

  /** `(let-one x 2 (+ 40 x))` is 42. */
  lemma LetOne()
    ensures Run(Form4(Sym("let-one"), Sym("x"), Num(2), Form3(Sym("+"), Num(40), Sym("x"))), Global).c == Normal(Number(42))
  {
  }

  /** `(let (x 4) x)` is 4. */
  lemma LetSingle()
    ensures Run(Form3(Sym("let"), Node([Sym("x"), Num(4)]), Sym("x")), Global).c == Normal(Number(4))
  {
  }

  /** `(let (x 4 y (+ 1 1)) (+ x y))` is 6. */
  lemma LetParallel()
    ensures Run(Form3(Sym("let"), Node([Sym("x"), Num(4), Sym("y"), Form3(Sym("+"), Num(1), Num(1))]),
                      Form3(Sym("+"), Sym("x"), Sym("y"))), Global).c == Normal(Number(6))
  {
    var e := Form3(Sym("let"), Node([Sym("x"), Num(4), Sym("y"), Form3(Sym("+"), Num(1), Num(1))]),
                   Form3(Sym("+"), Sym("x"), Sym("y")));
    var m := map["x" := Number(4), "y" := Number(2)];
    assert Run(e, Global) == RunLetBindings(e, 0, map[], Global);
    assert RunLetBindings(e, 0, map[], Global) == RunLetBindings(e, 2, map["x" := Number(4)], Global);
    assert Run(Form3(Sym("+"), Num(1), Num(1)), Global).c == Normal(Number(2));
    assert RunLetBindings(e, 2, map["x" := Number(4)], Global) == RunLetBindings(e, 4, m, Global);
    assert Run(Form3(Sym("+"), Sym("x"), Sym("y")), [m] + Global).c == Normal(Number(6));
  }

  /** `let` evaluates every binding in the enclosing environment, so in `(let (x 4 y x) y)` the `x` is unbound and `y` is `null`. */
  lemma LetSeesOuter()
    ensures Run(Form3(Sym("let"), Node([Sym("x"), Num(4), Sym("y"), Sym("x")]), Sym("y")), Global).c == Normal(Null)
  {
    var e := Form3(Sym("let"), Node([Sym("x"), Num(4), Sym("y"), Sym("x")]), Sym("y"));
    assert Run(e, Global) == RunLetBindings(e, 0, map[], Global);
    assert RunLetBindings(e, 0, map[], Global) == RunLetBindings(e, 2, map["x" := Number(4)], Global);
    assert RunLetBindings(e, 2, map["x" := Number(4)], Global) == RunLetBindings(e, 4, map["x" := Number(4), "y" := Null], Global);
    assert Run(Sym("y"), [map["x" := Number(4), "y" := Null]] + Global).c == Normal(Null);
  }

  /** `let*` sees the earlier bindings, so `(let* (x 4 y x) (+ x y))` is 8. */
  lemma LetStarSeesEarlier()
    ensures Run(Form3(Sym("let*"), Node([Sym("x"), Num(4), Sym("y"), Sym("x")]),
                      Form3(Sym("+"), Sym("x"), Sym("y"))), Global).c == Normal(Number(8))
  {
    var s := Form3(Sym("let*"), Node([Sym("x"), Num(4), Sym("y"), Sym("x")]), Form3(Sym("+"), Sym("x"), Sym("y")));
    var m1 := [map["x" := Number(4)]] + Global;
    var m2 := [map["x" := Number(4), "y" := Number(4)]] + Global;
    assert Run(s, Global) == RunStarBindings(s, 0, Global, false);
    assert RunStarBindings(s, 0, Global, false) == RunStarBindings(s, 2, m1, true);
    assert Run(Sym("x"), m1).c == Normal(Number(4));
    assert Define(m1, "y", Number(4)) == m2;
    assert RunStarBindings(s, 2, m1, true) == RunStarBindings(s, 4, m2, true);
    assert Run(Form3(Sym("+"), Sym("x"), Sym("y")), m2).c == Normal(Number(8));
  }

  /** A binding list of odd length, `(let (x) x)`, throws. */
  lemma LetOdd()
    ensures Run(Form3(Sym("let"), Node([Sym("x")]), Sym("x")), Global).c == Abrupt(TypeError)
  {
  }
}
