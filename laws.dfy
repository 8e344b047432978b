/**
 * What the evaluator guarantees, stated over `Evaluation.Run` and so, by
 * the contracts of `Interpreter`, about `evalS` itself.
 */
module Laws {
  import opened Types
  import opened Syntax
  import opened Values
  import opened Scopes
  import opened Evaluation

  /**
   * `def` throws when `lookup` finds the name bound to anything but `null`,
   * and otherwise throws when the form does not have exactly a name and a
   * value. Otherwise it fails as its value does, or returns 0, and the name
   * then yields the value its form evaluated to. The binding is made in the
   * current frame, and the outer frames and every other name are left as the
   * value's evaluation left them.
   */
  lemma DefBinds(e: Expr, sc: Scope)
    requires e.Node? && Head(e) == "def" && |sc| >= 1
    ensures Find(sc, KeyAt(e, 1)) != Null ==> Run(e, sc) == Step(Abrupt(AlreadyDefined), sc)
    ensures Find(sc, KeyAt(e, 1)) == Null && |e.xs| != 3 ==> Run(e, sc) == Step(Abrupt(TypeError), sc)
    ensures Find(sc, KeyAt(e, 1)) == Null && |e.xs| == 3 ==>
      && (RunAt(e, 2, sc).c.Abrupt? ==> Run(e, sc) == RunAt(e, 2, sc))
      && (RunAt(e, 2, sc).c.Normal? ==> Run(e, sc).c == Normal(Number(0)))
    ensures Run(e, sc).c.Normal? ==>
      && Run(e, sc).c == Normal(Number(0))
      && RunAt(e, 2, sc).c == Normal(Find(Run(e, sc).scope, KeyAt(e, 1)))
      && KeyAt(e, 1) in Run(e, sc).scope[0]
      && Run(e, sc).scope[1..] == RunAt(e, 2, sc).scope[1..]
      && forall w :: w != KeyAt(e, 1) ==> Find(Run(e, sc).scope, w) == Find(RunAt(e, 2, sc).scope, w)
  {
    assert Run(e, sc) == RunDef(e, sc);
    var x := KeyAt(e, 1);
    var a := RunAt(e, 2, sc);
    if Run(e, sc).c.Normal? {
      forall w ensures Find(Define(a.scope, x, a.c.value), w) == if w == x then a.c.value else Find(a.scope, w) {
        FindDefine(a.scope, x, a.c.value, w);
      }
    }
  }

  /**
   * `set!` throws when `lookup` yields `null` for the name. Otherwise, once
   * the new value is computed, the update always finds a frame binding the
   * name, so `set!` itself never throws "update error": it returns 0, the
   * name then yields the new value, and only the innermost frame binding the
   * name has changed.
   */
  lemma SetRebinds(e: Expr, sc: Scope)
    requires e.Node? && Head(e) == "set!" && |sc| >= 1
    ensures Find(sc, KeyAt(e, 1)) == Null ==> Run(e, sc) == Step(Abrupt(Unset), sc)
    ensures Find(sc, KeyAt(e, 1)) != Null && RunAt(e, 2, sc).c.Normal? ==> Run(e, sc).c == Normal(Number(0))
    ensures Run(e, sc).c.Normal? ==>
      && Run(e, sc).c == Normal(Number(0))
      && RunAt(e, 2, sc).c == Normal(Find(Run(e, sc).scope, KeyAt(e, 1)))
      && forall j :: 0 <= j < |sc| && j != Holder(RunAt(e, 2, sc).scope, KeyAt(e, 1)) ==>
           Run(e, sc).scope[j] == RunAt(e, 2, sc).scope[j]
  {
    assert Run(e, sc) == RunSet(e, sc);
    var x := KeyAt(e, 1);
    var a := RunAt(e, 2, sc);
    if Find(sc, x) != Null && a.c.Normal? {
      var k := Holder(sc, x);
      assert k < |sc|;
      assert x in a.scope[k];
      assert Holder(a.scope, x) <= k;
      FindRebind(a.scope, x, a.c.value, x);
    }
  }

  /** `if` runs its then-branch exactly when the condition yields `'#t'`, and its else-branch otherwise. */
  lemma IfChooses(e: Expr, sc: Scope)
    requires e.Node? && Head(e) == "if" && |sc| >= 1
    ensures RunAt(e, 1, sc).c.Abrupt? ==> Run(e, sc) == RunAt(e, 1, sc)
    ensures RunAt(e, 1, sc).c.Normal? ==>
      Run(e, sc) == RunAt(e, if RunAt(e, 1, sc).c.value == True then 2 else 3, RunAt(e, 1, sc).scope)
  {
    assert Run(e, sc) == RunIf(e, sc);
  }

  /** The value of operand `k` of a form, evaluated on its own in `sc` (`undefined` when it throws). */
  function Operand(e: Expr, k: nat, sc: Scope): Value
    requires e.Node? && k < |e.xs| && |sc| >= 1
  {
    ItemSize(e, k);
    var c := Run(e.xs[k], sc).c;
    if c.Normal? then c.value else Undefined
  }

  /** The operands from `expr[i]` on are pure and each evaluates to a value. */
  ghost predicate Settled(e: Expr, i: nat, sc: Scope)
    requires e.Node? && |sc| >= 1
  {
    forall k :: i <= k < |e.xs| ==> Pure(e.xs[k]) && Run(e.xs[k], sc).c.Normal?
  }

  /** No two consecutive operands from `expr[i]` on are both arrays. */
  ghost predicate Comparable(e: Expr, i: nat, sc: Scope)
    requires e.Node? && |sc| >= 1
  {
    forall k :: i <= k && k + 1 < |e.xs| ==> StrictEquals(Operand(e, k, sc), Operand(e, k + 1, sc)).Some?
  }

  /** One turn of the `=` loop over two pure operands that evaluate to values. */
  lemma EqualStep(e: Expr, i: nat, sc: Scope)
    requires e.Node? && |sc| >= 1 && i + 1 < |e.xs|
    requires Pure(e.xs[i]) && Run(e.xs[i], sc).c.Normal? && Pure(e.xs[i + 1]) && Run(e.xs[i + 1], sc).c.Normal?
    ensures var r := StrictEquals(Operand(e, i, sc), Operand(e, i + 1, sc));
      RunEqual(e, i, sc) ==
        if r == Some(true) then RunEqual(e, i + 1, sc)
        else if r == Some(false) then Step(Normal(False), sc)
        else Step(Abrupt(Unmodelled), sc)
  {
    ItemSize(e, i);
    ItemSize(e, i + 1);
    assert Run(e.xs[i], sc).scope == sc;
  }

  /** Every consecutive pair of operands from `expr[i]` on is strictly equal. */
  ghost predicate PairsEqual(e: Expr, i: nat, sc: Scope)
    requires e.Node? && |sc| >= 1
    decreases |e.xs| - i
  {
    i + 1 < |e.xs| ==>
      StrictEquals(Operand(e, i, sc), Operand(e, i + 1, sc)) == Some(true) && PairsEqual(e, i + 1, sc)
  }

  lemma {:induction false} PairsEqualAll(e: Expr, i: nat, sc: Scope)
    requires e.Node? && |sc| >= 1
    ensures PairsEqual(e, i, sc) <==>
      forall k :: i <= k && k + 1 < |e.xs| ==> StrictEquals(Operand(e, k, sc), Operand(e, k + 1, sc)) == Some(true)
    decreases |e.xs| - i
  {
    if i + 1 < |e.xs| {
      PairsEqualAll(e, i + 1, sc);
    }
  }

  /** The `=` loop from `expr[i]` on yields `'#t'` exactly when every consecutive pair is strictly equal. */
  lemma {:induction false} EqualFrom(e: Expr, i: nat, sc: Scope)
    requires e.Node? && |sc| >= 1 && Settled(e, i, sc) && Comparable(e, i, sc)
    ensures RunEqual(e, i, sc) == Step(Normal(Truth(PairsEqual(e, i, sc))), sc)
    decreases |e.xs| - i
  {
    if i + 1 < |e.xs| {
      EqualStep(e, i, sc);
      if StrictEquals(Operand(e, i, sc), Operand(e, i + 1, sc)) == Some(true) {
        EqualFrom(e, i + 1, sc);
      }
    }
  }

  /**
   * `=` over pure operands that all evaluate to values, no two consecutive
   * ones arrays, yields `'#t'` exactly when every pair of consecutive
   * operands is strictly equal, and `'#f'` otherwise.
   */
  lemma EqualAllPairs(e: Expr, sc: Scope)
    requires e.Node? && Head(e) == "=" && |sc| >= 1 && Settled(e, 1, sc) && Comparable(e, 1, sc)
    ensures Run(e, sc) == Step(Normal(Truth(
      forall k :: 1 <= k && k + 1 < |e.xs| ==> StrictEquals(Operand(e, k, sc), Operand(e, k + 1, sc)) == Some(true))), sc)
  {
    assert Run(e, sc) == RunEqual(e, 1, sc);
    EqualFrom(e, 1, sc);
    PairsEqualAll(e, 1, sc);
  }

  /** The `begin` loop from `expr[i]` on yields the last form's value, or `last` when no form is left. */
  lemma {:induction false} BeginFrom(e: Expr, i: nat, last: Value, sc: Scope)
    requires e.Node? && |sc| >= 1 && Settled(e, i, sc)
    ensures RunBegin(e, i, last, sc) == Step(Normal(if i < |e.xs| then Operand(e, |e.xs| - 1, sc) else last), sc)
    decreases |e.xs| - i
  {
    if i < |e.xs| {
      BeginFrom(e, i + 1, Operand(e, i, sc), sc);
    }
  }

  /** `begin` over pure forms that all evaluate to values yields the last one's value, `undefined` when there is none. */
  lemma BeginPure(e: Expr, sc: Scope)
    requires e.Node? && Head(e) == "begin" && |sc| >= 1 && Settled(e, 1, sc)
    ensures Run(e, sc) == Step(Normal(if |e.xs| > 1 then Operand(e, |e.xs| - 1, sc) else Undefined), sc)
  {
    assert Run(e, sc) == RunBegin(e, 1, Undefined, sc);
    BeginFrom(e, 1, Undefined, sc);
  }

  /**
   * The forms `expr[i]`, …, `expr[j-1]` evaluated one after the other, each
   * in the chain the one before left, stopping at the first that throws.
   */
  function RunThrough(e: Expr, i: nat, j: nat, sc: Scope): (r: Step)
    requires e.Node? && i <= j <= |e.xs| && |sc| >= 1
    ensures |r.scope| == |sc|
    decreases j - i
  {
    if i == j then Step(Normal(Undefined), sc)
    else
      var a := Run(e.xs[i], sc);
      if a.c.Abrupt? then a else RunThrough(e, i + 1, j, a.scope)
  }

  /** The `begin` loop from `expr[i]` on: the forms before the last in turn, then the last in the chain they leave. */
  lemma {:induction false} BeginThrough(e: Expr, i: nat, last: Value, sc: Scope)
    requires e.Node? && |sc| >= 1 && 1 <= i < |e.xs|
    ensures var p := RunThrough(e, i, |e.xs| - 1, sc);
      RunBegin(e, i, last, sc) == if p.c.Abrupt? then p else Run(e.xs[|e.xs| - 1], p.scope)
    decreases |e.xs| - i
  {
    var a := Run(e.xs[i], sc);
    if i < |e.xs| - 1 && a.c.Normal? {
      BeginThrough(e, i + 1, a.c.value, a.scope);
    }
  }

  /**
   * `begin` evaluates its forms in turn, each in the chain the one before
   * left: the first that throws ends it, and otherwise its completion is
   * the last form's. With no forms it is `undefined`.
   */
  lemma BeginLast(e: Expr, sc: Scope)
    requires e.Node? && Head(e) == "begin" && |sc| >= 1
    ensures |e.xs| <= 1 ==> Run(e, sc) == Step(Normal(Undefined), sc)
    ensures |e.xs| >= 2 ==>
      var p := RunThrough(e, 1, |e.xs| - 1, sc);
      Run(e, sc) == if p.c.Abrupt? then p else Run(e.xs[|e.xs| - 1], p.scope)
  {
    assert Run(e, sc) == RunBegin(e, 1, Undefined, sc);
    if |e.xs| >= 2 {
      BeginThrough(e, 1, Undefined, sc);
    }
  }

  /** `let` and `let*` throw, before evaluating anything, when the binding list is missing or has an odd length. */
  lemma LetOddThrows(e: Expr, sc: Scope)
    requires e.Node? && (Head(e) == "let" || Head(e) == "let*") && |sc| >= 1
    ensures |e.xs| < 2 || OddBindings(e) ==> Run(e, sc) == Step(Abrupt(TypeError), sc)
  {
    assert Run(e, sc) == RunForm(e, sc);
  }

  /** What a binding's value form evaluates to in `sc`; `undefined` should it throw. */
  function ValueIn(x: Expr, sc: Scope): Value
    requires |sc| >= 1
  {
    var c := Run(x, sc).c;
    if c.Normal? then c.value else Undefined
  }

  /** The value forms of the bindings `bs` (every second element) are pure and evaluate to values in `sc`. */
  ghost predicate LetSettled(bs: seq<Expr>, sc: Scope)
    requires |sc| >= 1
  {
    forall k :: 0 <= k < |bs| && k % 2 == 1 ==> Pure(bs[k]) && Run(bs[k], sc).c.Normal?
  }

  /**
   * The frame of a `let` over the first `n` elements of the bindings `bs`:
   * each name bound to its value form evaluated in the enclosing chain
   * `sc`, a later binding of the same name winning.
   */
  function LetFrame(bs: seq<Expr>, n: nat, sc: Scope): map<string, Value>
    requires |sc| >= 1 && n % 2 == 0 && n <= |bs|
    decreases n
  {
    if n == 0 then map[] else LetFrame(bs, n - 2, sc)[Key(bs[n - 2]) := ValueIn(bs[n - 1], sc)]
  }

  /** A name bound by no later binding is bound, in the frame of a `let`, to its own value. */
  lemma {:induction false} LetFrameLast(bs: seq<Expr>, n: nat, sc: Scope, k: nat)
    requires |sc| >= 1 && n % 2 == 0 && n <= |bs| && k % 2 == 0 && k + 1 < n
    requires forall j :: k < j < n && j % 2 == 0 ==> Key(bs[j]) != Key(bs[k])
    ensures Key(bs[k]) in LetFrame(bs, n, sc) && LetFrame(bs, n, sc)[Key(bs[k])] == ValueIn(bs[k + 1], sc)
    decreases n
  {
    if k + 2 < n {
      LetFrameLast(bs, n - 2, sc, k);
      assert Key(bs[n - 2]) != Key(bs[k]);
    }
  }

  /** The `let` loop from the `i`-th binding on, over settled values: the values never see the new frame. */
  lemma {:induction false} LetFrom(e: Expr, i: nat, sc: Scope)
    requires e.Node? && |e.xs| >= 2 && !OddBindings(e) && |sc| >= 1
    requires i % 2 == 0 && i <= |Items(e.xs[1])| && LetSettled(Items(e.xs[1]), sc)
    ensures var bs := Items(e.xs[1]);
      var b := RunAt(e, 2, [LetFrame(bs, |bs|, sc)] + sc);
      RunLetBindings(e, i, LetFrame(bs, i, sc), sc) == Step(b.c, b.scope[1..])
    decreases |Items(e.xs[1])| - i
  {
    var bs := Items(e.xs[1]);
    if i < |bs| {
      assert Pure(bs[i + 1]) && Run(bs[i + 1], sc).c.Normal?;
      assert LetFrame(bs, i + 2, sc) == LetFrame(bs, i, sc)[Key(bs[i]) := ValueIn(bs[i + 1], sc)];
      LetFrom(e, i + 2, sc);
    }
  }

  /**
   * `let` whose value forms are pure and evaluate to values: every value is
   * evaluated in the enclosing chain, and the body in a new frame binding
   * each name to its value (the last binding of a name winning) around that
   * chain. The frame is dropped afterwards.
   */
  lemma LetValuesOuter(e: Expr, sc: Scope)
    requires e.Node? && Head(e) == "let" && |e.xs| >= 2 && !OddBindings(e) && |sc| >= 1
    requires LetSettled(Items(e.xs[1]), sc)
    ensures var bs := Items(e.xs[1]);
      var b := RunAt(e, 2, [LetFrame(bs, |bs|, sc)] + sc);
      Run(e, sc) == Step(b.c, b.scope[1..])
  {
    RunIsLet(e, sc);
    LetFrom(e, 0, sc);
  }

  /**
   * The chain `let*` evaluates the value of the binding at `i` in: the
   * enclosing chain for the first binding, and afterwards a frame of the
   * bindings before it around the enclosing chain.
   */
  function StarScope(bs: seq<Expr>, i: nat, sc: Scope): (r: Scope)
    requires |sc| >= 1 && i % 2 == 0 && i <= |bs|
    ensures |r| >= 1
    decreases i, 1
  {
    if i == 0 then sc else [StarFrame(bs, i, sc)] + sc
  }

  /**
   * The frame of a `let*` over the first `n` elements of the bindings `bs`:
   * each name bound to its value form evaluated where the bindings before it
   * are visible, a later binding of the same name winning.
   */
  function StarFrame(bs: seq<Expr>, n: nat, sc: Scope): map<string, Value>
    requires |sc| >= 1 && n % 2 == 0 && n <= |bs|
    decreases n, 0
  {
    if n == 0 then map[] else StarFrame(bs, n - 2, sc)[Key(bs[n - 2]) := ValueIn(bs[n - 1], StarScope(bs, n - 2, sc))]
  }

  /**
   * The value forms of a `let*`'s bindings `bs` from the `i`-th binding on
   * are pure and evaluate to values, each in the chain it sees.
   */
  ghost predicate StarSettled(bs: seq<Expr>, i: nat, sc: Scope)
    requires |sc| >= 1 && i % 2 == 0 && i <= |bs|
    decreases |bs| - i
  {
    i + 1 >= |bs| || (StarSettled(bs, i + 2, sc) && Pure(bs[i + 1]) && Run(bs[i + 1], StarScope(bs, i, sc)).c.Normal?)
  }

  /** The `let*` loop of `e` has made its frame and is at the `i`-th binding, the values from there on settled. */
  ghost predicate StarReady(e: Expr, i: nat, sc: Scope)
  {
    && e.Node? && |e.xs| >= 2 && !OddBindings(e) && |sc| >= 1
    && 2 <= i && i % 2 == 0 && i <= |Items(e.xs[1])| && StarSettled(Items(e.xs[1]), i, sc)
  }

  /** The `let*` loop from the `i`-th binding on, once the frame exists, over settled values. */
  lemma {:induction false} StarFrom(e: Expr, i: nat, sc: Scope)
    requires StarReady(e, i, sc)
    ensures var bs := Items(e.xs[1]);
      var b := RunAt(e, 2, [StarFrame(bs, |bs|, sc)] + sc);
      RunStarBindings(e, i, [StarFrame(bs, i, sc)] + sc, true) == Step(b.c, b.scope[1..])
    decreases |Items(e.xs[1])| - i
  {
    if i < |Items(e.xs[1])| {
      StarStep(e, i, sc);
      StarFrom(e, i + 2, sc);
    } else {
      StarEnd(e, [StarFrame(Items(e.xs[1]), i, sc)] + sc);
    }
  }

  /** The end of the `let*` loop: the body in the frame, which is then dropped. */
  lemma StarEnd(e: Expr, st: Scope)
    requires e.Node? && |e.xs| >= 2 && !OddBindings(e) && |st| >= 2
    ensures var b := RunAt(e, 2, st);
      RunStarBindings(e, |Items(e.xs[1])|, st, true) == Step(b.c, b.scope[1..])
  {
  }

  /** `let*` dispatches to its loop, or throws on an odd binding list. */
  lemma RunIsLetStar(e: Expr, sc: Scope)
    requires e.Node? && Head(e) == "let*" && |sc| >= 1
    ensures Run(e, sc) == RunLetStar(e, sc)
  {
    assert Run(e, sc) == RunForm(e, sc);
  }

  /** `let` dispatches to its loop, or throws on an odd binding list. */
  lemma RunIsLet(e: Expr, sc: Scope)
    requires e.Node? && Head(e) == "let" && |sc| >= 1
    ensures Run(e, sc) == RunLet(e, sc)
  {
    assert Run(e, sc) == RunForm(e, sc);
  }

  /** The first turn of the `let*` loop over a settled value creates the frame with its binding. */
  lemma StarFirst(e: Expr, sc: Scope)
    requires e.Node? && |e.xs| >= 2 && !OddBindings(e) && |sc| >= 1
    requires 0 < |Items(e.xs[1])| && StarSettled(Items(e.xs[1]), 0, sc)
    ensures StarReady(e, 2, sc)
    ensures RunStarBindings(e, 0, sc, false) == RunStarBindings(e, 2, [StarFrame(Items(e.xs[1]), 2, sc)] + sc, true)
  {
    var bs := Items(e.xs[1]);
    var a := Run(bs[1], sc);
    var st2 := [map[Key(bs[0]) := a.c.value]] + a.scope;
    StarTurn(e, 0, sc, false, a.c, a.scope, st2);
    assert StarFrame(bs, 2, sc) == map[Key(bs[0]) := ValueIn(bs[1], sc)];
  }

  /** One turn of the `let*` loop over a settled value adds its binding to the frame. */
  lemma StarStep(e: Expr, i: nat, sc: Scope)
    requires StarReady(e, i, sc) && i < |Items(e.xs[1])|
    ensures StarReady(e, i + 2, sc)
    ensures var bs := Items(e.xs[1]);
      RunStarBindings(e, i, [StarFrame(bs, i, sc)] + sc, true)
      == RunStarBindings(e, i + 2, [StarFrame(bs, i + 2, sc)] + sc, true)
  {
    var bs := Items(e.xs[1]);
    var st := [StarFrame(bs, i, sc)] + sc;
    var a := StarValue(bs, i, sc);
    StarTurn(e, i, st, true, a.c, a.scope, [StarFrame(bs, i + 2, sc)] + sc);
  }

  /** A settled value form leaves the frame as it is, and binding its value extends the frame by one binding. */
  lemma StarValue(bs: seq<Expr>, i: nat, sc: Scope) returns (a: Step)
    requires |sc| >= 1 && 2 <= i && i % 2 == 0 && i + 1 < |bs| && StarSettled(bs, i, sc)
    ensures i + 2 <= |bs| && StarSettled(bs, i + 2, sc)
    ensures a == Run(bs[i + 1], [StarFrame(bs, i, sc)] + sc)
    ensures a.scope == [StarFrame(bs, i, sc)] + sc && a.c.Normal?
    ensures Define(a.scope, Key(bs[i]), a.c.value) == [StarFrame(bs, i + 2, sc)] + sc
  {
    var st := [StarFrame(bs, i, sc)] + sc;
    assert StarScope(bs, i, sc) == st;
    a := Run(bs[i + 1], st);
    assert a.scope == st;
  }

  /**
   * `let*` whose value forms are pure and evaluate to values: each value is
   * evaluated where the bindings before it are visible, and the body in a
   * frame holding all of them (the last binding of a name winning) around
   * the enclosing chain; the frame is dropped afterwards. With no bindings
   * the body is evaluated in the enclosing chain itself.
   */
  lemma StarSeesEarlier(e: Expr, sc: Scope)
    requires e.Node? && Head(e) == "let*" && |e.xs| >= 2 && !OddBindings(e) && |sc| >= 1
    requires StarSettled(Items(e.xs[1]), 0, sc)
    ensures |Items(e.xs[1])| == 0 ==> Run(e, sc) == RunAt(e, 2, sc)
    ensures |Items(e.xs[1])| > 0 ==>
      var bs := Items(e.xs[1]);
      var b := RunAt(e, 2, [StarFrame(bs, |bs|, sc)] + sc);
      Run(e, sc) == Step(b.c, b.scope[1..])
  {
    RunIsLetStar(e, sc);
    if |Items(e.xs[1])| > 0 {
      StarFirst(e, sc);
      StarFrom(e, 2, sc);
    }
  }
}
