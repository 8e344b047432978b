/**
 * Programs from the type checker's own test suite, typechecked by the
 * model in a new session. `Typecheck` promises its printed types only when
 * it succeeds, so each example states the text it prints when it does.
 */
module TypecheckExamples {
  import opened Types
  import opened Graph
  import opened GraphChanges
  import opened Syntax
  import opened Engine
  import opened Printing
  import opened Typings
  import opened Inference

  /** `(lambda (x y) y)` */
  function LambdaXY(): Expr
  {
    Node([Sym("lambda"), Node([Sym("x"), Sym("y")]), Sym("y")])
  }

  /** `(list n m)` for two numbers. */
  function IntPair(n: int, m: int): Expr
  {
    Node([Sym("list"), Num(n), Num(m)])
  }

  /** `(list (list 1 2) (list 3 4))` */
  function NestedList(): Expr
  {
    Node([Sym("list"), IntPair(1, 2), IntPair(3, 4)])
  }

  /** A sound derivation of a name the environment binds, analysed with a marked specific set, has the type it is bound to. */
  lemma SpecificName(slots: Slots, rank: seq<nat>, k: Typing)
    requires Ranked(slots, rank) && Sound(slots, rank, k) && RuleOf(k.form) == Name && Key(k.form) in k.env && k.spec
    ensures Same(slots, rank, k.t, k.env[Key(k.form)])
  {
    assert Obeys(slots, rank, k, Name);
  }

  /** Binding the parameters `(x y)` binds `y` to the second new variable. */
  lemma BindXY(m: map<string, Type>, b: nat)
    ensures "y" in BindVars(m, [Sym("x"), Sym("y")], b) && BindVars(m, [Sym("x"), Sym("y")], b)["y"] == TVar(b + 1)
  {
    assert [Sym("x"), Sym("y")][..1] == [Sym("x")];
  }

  /** A sound derivation of `(lambda (x y) y)`: a function of the two parameter variables to the body's type, which is the second's. */
  lemma LambdaXYParts(slots: Slots, rank: seq<nat>, d: Typing)
    requires Ranked(slots, rank) && Sound(slots, rank, d) && d.form == LambdaXY()
    ensures |d.kids| == 1 && d.t == Fn([TVar(d.base), TVar(d.base + 1), d.kids[0].t])
    ensures Same(slots, rank, d.kids[0].t, TVar(d.base + 1))
  {
    assert Obeys(slots, rank, d, Lambda);
    assert Items(Items(d.form)[1]) == [Sym("x"), Sym("y")];
    assert LambdaOk(slots, rank, d) && KidsSound(slots, rank, d);
    BindXY(d.env, d.base);
    assert RuleOf(Sym("y")) == Name;
    SpecificName(slots, rank, d.kids[0]);
  }

  /**
   * A sound derivation of `(lambda (x y) y)` whose analysis only allocated
   * variables has the type `x -> y -> y` over the two parameter variables,
   * both still unbound.
   */
  lemma LambdaXYType(s0: Slots, r0: seq<nat>, slots: Slots, rank: seq<nat>, d: Typing)
    requires Ranked(s0, r0) && Ranked(slots, rank) && Grown(s0, r0, slots, rank)
    requires d.form == LambdaXY() && d.base == |s0| && Sound(slots, rank, d)
    ensures Resolve(slots, rank, d.t) == Fn([TVar(|s0|), TVar(|s0| + 1), TVar(|s0| + 1)])
  {
    var b := |s0|;
    LambdaXYParts(slots, rank, d);
    ResolveOp(slots, rank, "->", d.t.args);
    ResolveFree(slots, rank, b);
    ResolveFree(slots, rank, b + 1);
  }

  /** What `typecheck` prints for `(lambda (x y) y)` alone, analysed in a session of five variables. */
  lemma LambdaXYPrinted(out: seq<string>, ds: seq<Typing>, sts: seq<Slots>, rks: seq<seq<nat>>,
                        ns: seq<map<nat, string>>)
    requires |out| == 1 && |ds| == 1 && |sts| == 2 && |rks| == 2 && |ns| == 2
    requires FormChecked([LambdaXY()], out, ds, sts, rks, ns, 0, 0)
    requires |sts[0]| == 5 && ns[0] == map[]
    ensures out == ["(a -> b -> b)"]
  {
    assert Quiet(LambdaXY());
    LambdaXYType(sts[0], rks[0], sts[1], rks[1], ds[0]);
    RenderArrowExample(5, 6);
  }

  /** `(lambda (x y) y)`, typechecked on its own, prints `(a -> b -> b)`. */
  method LambdaTwoParams() returns (res: Result<seq<string>>)
    ensures res.Ok? ==> res.value == ["(a -> b -> b)"]
  {
    var s := new Session();
    ghost var ds, sts, rks, ns;
    res, ds, sts, rks, ns := Typecheck(s, [LambdaXY()]);
    if res.Ok? {
      assert FormChecked([LambdaXY()], res.value, ds, sts, rks, ns, 0, 0);
      LambdaXYPrinted(res.value, ds, sts, rks, ns);
    }
  }

  /** A sound derivation of a number the environment does not bind has the type `Int` and leaves the environment alone. */
  lemma NumType(slots: Slots, rank: seq<nat>, k: Typing)
    requires Ranked(slots, rank) && Sound(slots, rank, k) && k.form.Num? && NumText(k.form.n) !in k.env
    ensures k.t == Int && k.out == k.env
  {
    assert Obeys(slots, rank, k, Name);
  }

  /** A sound derivation of a `list` form of two elements: the elements in turn, and a list of the second's type. */
  lemma ListOfTwo(slots: Slots, rank: seq<nat>, d: Typing, x: Expr, y: Expr)
    requires Ranked(slots, rank) && Sound(slots, rank, d) && d.form == Node([Sym("list"), x, y])
    ensures |d.kids| == 2 && d.kids[0].form == x && d.kids[1].form == y
    ensures Sound(slots, rank, d.kids[0]) && Sound(slots, rank, d.kids[1])
    ensures d.kids[0].env == d.env && d.kids[1].env == d.kids[0].out && d.out == d.kids[1].out
    ensures d.t == List(d.kids[1].t)
  {
    assert Obeys(slots, rank, d, ListOf) && ListOk(slots, rank, d) && KidsSound(slots, rank, d);
    assert Items(d.form)[1..] == [x, y];
  }

  /**
   * A sound derivation of `(list n m)`, in an environment that binds
   * neither number, leaves the environment as it was and has the type
   * `List Int`.
   */
  lemma IntPairType(slots: Slots, rank: seq<nat>, d: Typing, n: int, m: int)
    requires Ranked(slots, rank) && Sound(slots, rank, d) && d.form == IntPair(n, m)
    requires NumText(n) !in d.env && NumText(m) !in d.env
    ensures d.out == d.env && d.t == List(Int)
  {
    ListOfTwo(slots, rank, d, Num(n), Num(m));
    NumType(slots, rank, d.kids[0]);
    NumType(slots, rank, d.kids[1]);
  }

  /**
   * A sound derivation of `(list (list 1 2) (list 3 4))`, in an
   * environment that binds none of the four numbers, has the type
   * `List (List Int)`.
   */
  lemma NestedListType(slots: Slots, rank: seq<nat>, d: Typing)
    requires Ranked(slots, rank) && Sound(slots, rank, d) && d.form == NestedList()
    requires "1" !in d.env && "2" !in d.env && "3" !in d.env && "4" !in d.env
    ensures Resolve(slots, rank, d.t) == List(List(Int))
  {
    assert NumText(1) == "1" && NumText(2) == "2" && NumText(3) == "3" && NumText(4) == "4";
    ListOfTwo(slots, rank, d, IntPair(1, 2), IntPair(3, 4));
    IntPairType(slots, rank, d.kids[0], 1, 2);
    IntPairType(slots, rank, d.kids[1], 3, 4);
    GroundFixed(slots, rank, List(List(Int)));
  }

  /** What `typecheck` prints for `(list (list 1 2) (list 3 4))` alone, analysed in the base environment. */
  lemma NestedListPrinted(out: seq<string>, ds: seq<Typing>, sts: seq<Slots>, rks: seq<seq<nat>>,
                          ns: seq<map<nat, string>>, e1: Type, e2: Type, e3: Type)
    requires |out| == 1 && |ds| == 1 && |sts| == 2 && |rks| == 2 && |ns| == 2
    requires FormChecked([NestedList()], out, ds, sts, rks, ns, 0, 0)
    requires ds[0].env == BaseEnv(TVar(0), e1, e2, e3) && ns[0] == map[]
    ensures out == ["((Int))"]
  {
    NestedListType(sts[1], rks[1], ds[0]);
    RenderListExample();
  }

  /** `(list (list 1 2) (list 3 4))`, typechecked on its own, prints `((Int))`. */
  method NestedLists() returns (res: Result<seq<string>>)
    ensures res.Ok? ==> res.value == ["((Int))"]
  {
    var s := new Session();
    ghost var ds, sts, rks, ns;
    res, ds, sts, rks, ns := Typecheck(s, [NestedList()]);
    if res.Ok? {
      assert FormChecked([NestedList()], res.value, ds, sts, rks, ns, 0, 0);
      NestedListPrinted(res.value, ds, sts, rks, ns, TVar(2), TVar(3), TVar(4));
    }
  }
}
