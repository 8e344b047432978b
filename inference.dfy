/**
 * `analyse`: the inference rule of every form, and `typecheck`, which runs
 * it over a program and prints each form's type.
 *
 * Every rule works on the session's type graph in place, on an environment
 * and on a specific set. Besides its type, every rule returns a ghost
 * derivation (`Typings.Typing`) of the form: on success the derivation
 * records the environments and markings the analysis started from and
 * left, and it is `Sound` in the final state, so each rule's equations
 * hold about the sub-forms it analysed. Every rule also only refines the
 * substitution, never unbinds a variable, leaves the display names alone
 * and keeps the environment inside the arena. An error of any rule aborts
 * the whole program, so the state an error leaves behind is not described.
 */
module Inference {
  import opened Types
  import opened Graph
  import opened GraphChanges
  import opened Syntax
  import opened Environment
  import opened Engine
  import opened Printing
  import opened Naming
  import opened Typings

  /** A placeholder for the derivation of an analysis that failed. */
  function NoTyping(e: Expr): Typing
  {
    Typing(e, map[], map[], false, false, 0, Int, [], [])
  }

  /**
   * `get_type`: a bound name gives a fresh copy of its binding, generic
   * unless the specific set is marked; a name bound to an inherited
   * function makes `prune` fail; any other name is a literal.
   */
  method GetType(s: Session, name: Expr, env: Env, spec: SpecificSet) returns (res: Result<Type>, ghost d: Typing)
      requires s.Valid() && env.Fits(|s.slots|)
      modifies s
      ensures s.Valid() && Advanced(old(s.slots), old(s.rank), s.slots, s.rank)
      ensures Grown(old(s.slots), old(s.rank), s.slots, s.rank)
      ensures s.names == old(s.names) && s.counter == old(s.counter) && s.drawn == old(s.drawn)
      ensures env.Fits(|s.slots|)
      ensures res.Ok? ==> Bounded(res.value, |s.slots|)
      ensures env.Get(Key(name)).Foreign? ==> res == Err(PruneError)
      ensures env.Get(Key(name)).Missing? ==> res == Literal(name)
      ensures env.Get(Key(name)).Bound? ==>
        var R := Resolve(old(s.slots), old(s.rank), env.bindings[Key(name)]);
        var g := spec.IsGeneric();
        res == Ok(Instance(R, g, if g && HasVar(R) then Some(|old(s.slots)|) else None))
      ensures res.Ok? ==>
        && Records(d, name, env.bindings, env.bindings, spec.marked, spec.marked, |old(s.slots)|, res.value)
        && NameOk(s.slots, s.rank, d)
  {
    d := NoTyping(name);
    var found := env.Get(Key(name));
    if found.Bound? {
      ghost var R := Resolve(s.slots, s.rank, found.t);
      ResolveIdempotent(s.slots, s.rank, found.t);
      var f := s.Fresh(found.t, spec.IsGeneric());
      PreservesAdvanced(old(s.slots), old(s.rank), s.slots, s.rank);
      env.FitsGrow(|old(s.slots)|, |s.slots|);
      BoundedMono(R, |old(s.slots)|, |s.slots|);
      res := Ok(f);
      d := Typing(name, env.bindings, env.bindings, spec.marked, spec.marked, |old(s.slots)|, f, [R], []);
    } else if found.Foreign? {
      res := Err(PruneError);
      GrownRefl(s.slots, s.rank);
      PreservesAdvanced(s.slots, s.rank, s.slots, s.rank);
    } else {
      res := Literal(name);
      GrownRefl(s.slots, s.rank);
      PreservesAdvanced(s.slots, s.rank, s.slots, s.rank);
      if res.Ok? {
        d := Typing(name, env.bindings, env.bindings, spec.marked, spec.marked, |old(s.slots)|, res.value, [], []);
      }
    }
  }

  /** `analyse(expr[k], …)`; a missing element cannot be indexed into. */
  method AnalyseAt(s: Session, e: Expr, k: nat, env: Env, spec: SpecificSet) returns (res: Result<Type>, ghost d: Typing)
      requires s.Valid() && env.Fits(|s.slots|)
      requires e.Node? || k >= 1
      modifies s, env, spec
      ensures s.Valid() && Advanced(old(s.slots), old(s.rank), s.slots, s.rank)
      ensures s.names == old(s.names) && s.counter == old(s.counter) && s.drawn == old(s.drawn)
      ensures env.Fits(|s.slots|)
      ensures res.Ok? ==> Bounded(res.value, |s.slots|)
      ensures old(spec.marked) ==> spec.marked
      ensures k >= |Items(e)| ==> res == Err(Malformed)
      ensures res.Ok? ==>
        && k < |Items(e)|
        && Records(d, Items(e)[k], old(env.bindings), env.bindings, old(spec.marked), spec.marked, |old(s.slots)|, res.value)
        && Sound(s.slots, s.rank, d)
        && (Quiet(Items(e)[k]) ==> Grown(old(s.slots), old(s.rank), s.slots, s.rank))
      decreases ExprSize(e), 0
  {
    if k < |Items(e)| {
      ItemSize(e, k);
      res, d := Analyse(s, Items(e)[k], env, spec);
    } else {
      PreservesRefl(s.slots, s.rank);
      res, d := Err(Malformed), NoTyping(e);
    }
  }

  /** `analyse`: dispatch on the form. */
  method Analyse(s: Session, e: Expr, env: Env, spec: SpecificSet) returns (res: Result<Type>, ghost d: Typing)
      requires s.Valid() && env.Fits(|s.slots|)
      modifies s, env, spec
      ensures s.Valid() && Advanced(old(s.slots), old(s.rank), s.slots, s.rank)
      ensures s.names == old(s.names) && s.counter == old(s.counter) && s.drawn == old(s.drawn)
      ensures env.Fits(|s.slots|)
      ensures res.Ok? ==> Bounded(res.value, |s.slots|)
      ensures old(spec.marked) ==> spec.marked
      ensures e == Node([]) || e == Node([Sym("list")]) ==> res == Ok(List(TVar(|old(s.slots)|)))
      ensures res.Ok? ==>
        && Records(d, e, old(env.bindings), env.bindings, old(spec.marked), spec.marked, |old(s.slots)|, res.value)
        && Sound(s.slots, s.rank, d)
        && (Quiet(e) ==> Grown(old(s.slots), old(s.rank), s.slots, s.rank))
      decreases ExprSize(e), 5
  {
    RuleOfNode(e);
    match RuleOf(e) {
      case EmptyList =>
        var v := s.NewVar();
        PreservesAdvanced(old(s.slots), old(s.rank), s.slots, s.rank);
        env.FitsGrow(|old(s.slots)|, |s.slots|);
        res := Ok(List(v));
        d := Typing(e, env.bindings, env.bindings, spec.marked, spec.marked, |old(s.slots)|, List(v), [], []);
      case Lambda =>
        res, d := AnalyseLambda(s, e, env, spec);
        env.FitsGrow(|old(s.slots)|, |s.slots|);
      case Name => res, d := GetType(s, e, env, spec);
      case _ => res, d := AnalyseForm(s, e, env, spec);
    }
  }

  /** The forms other than names, `()` and `lambda`. */
  method AnalyseForm(s: Session, e: Expr, env: Env, spec: SpecificSet) returns (res: Result<Type>, ghost d: Typing)
      requires s.Valid() && env.Fits(|s.slots|)
      requires RuleOf(e) != Name && RuleOf(e) != EmptyList && RuleOf(e) != Lambda
      modifies s, env, spec
      ensures s.Valid() && Advanced(old(s.slots), old(s.rank), s.slots, s.rank)
      ensures s.names == old(s.names) && s.counter == old(s.counter) && s.drawn == old(s.drawn)
      ensures env.Fits(|s.slots|)
      ensures res.Ok? ==> Bounded(res.value, |s.slots|)
      ensures old(spec.marked) ==> spec.marked
      ensures e == Node([Sym("list")]) ==> res == Ok(List(TVar(|old(s.slots)|)))
      ensures res.Ok? ==>
        && Records(d, e, old(env.bindings), env.bindings, old(spec.marked), spec.marked, |old(s.slots)|, res.value)
        && Sound(s.slots, s.rank, d)
      decreases ExprSize(e), 4
  {
    RuleOfNode(e);
    match RuleOf(e) {
      case Data => res, d := AnalyseData(s, e, env, spec);
      case Let => res, d := AnalyseLet(s, e, env, spec);
      case If => res, d := AnalyseIf(s, e, env, spec);
      case Def => res, d := AnalyseDef(s, e, env, spec);
      case SetBang => res, d := AnalyseSet(s, e, env, spec);
      case Defn => res, d := AnalyseDefn(s, e, env, spec);
      case LetStar =>
        res, d := AnalyseLetStar(s, e, env, spec);
        env.FitsGrow(|old(s.slots)|, |s.slots|);
      case Dot => res, d := AnalysePair(s, e, env, spec.marked);
      case Quote => res, d := AnalyseQuote(s, e, env, spec);
      case ListOf => res, d := AnalyseList(s, e, env, spec);
      case Apply => ghost var sa, ka; res, d, sa, ka := AnalyseApply(s, e, env, spec);
    }
  }

  /**
   * `data`: the type's name is bound to a new operator without
   * constituents, then every constructor in turn; the result is what the
   * type's name is bound to afterwards, which is that operator unless a
   * constructor has the type's own name.
   */
  method AnalyseData(s: Session, e: Expr, env: Env, spec: SpecificSet) returns (res: Result<Type>, ghost d: Typing)
      requires s.Valid() && env.Fits(|s.slots|)
      requires RuleOf(e) == Data
      modifies s, env, spec
      ensures s.Valid() && Advanced(old(s.slots), old(s.rank), s.slots, s.rank)
      ensures s.names == old(s.names) && s.counter == old(s.counter) && s.drawn == old(s.drawn)
      ensures env.Fits(|s.slots|)
      ensures res.Ok? ==> Bounded(res.value, |s.slots|)
      ensures old(spec.marked) ==> spec.marked
      ensures |Items(e)| < 3 ==> res == Err(Malformed)
      ensures res.Ok? ==>
        && Records(d, e, old(env.bindings), env.bindings, old(spec.marked), spec.marked, |old(s.slots)|, res.value)
        && Sound(s.slots, s.rank, d)
      ensures res.Ok? ==>
        var cs := Items(Items(e)[2]);
        (forall k :: 0 <= k < |cs| ==> KeyAt(cs[k], 0) != KeyAt(e, 1)) ==> res.value == TOp(KeyAt(e, 1), [])
      decreases ExprSize(e), 2
  {
    d := NoTyping(e);
    PreservesAdvanced(s.slots, s.rank, s.slots, s.rank) by { PreservesRefl(s.slots, s.rank); }
    var name := KeyAt(e, 1);
    var defnt := TOp(name, []);
    env.Set(name, defnt);
    if |Items(e)| < 3 {
      return Err(Malformed), d;
    }
    ghost var start, sa, ka := env.bindings, s.slots, s.rank;
    var ok;
    ghost var ks;
    ok, ks := DataRest(s, Items(Items(e)[2]), name, env, spec);
    AdvancedTrans(old(s.slots), old(s.rank), sa, ka, s.slots, s.rank);
    if ok.Err? {
      return Err(ok.error), d;
    }
    res := Ok(env.bindings[name]);
    d := DataIntro(s.slots, s.rank, e, old(env.bindings), old(spec.marked), |old(s.slots)|, ks, res.value);
  }

  /** The constructors `cs` of the data type `name`, analysed in turn into `ks`. */
  method DataRest(s: Session, cs: seq<Expr>, name: string, env: Env, spec: SpecificSet)
      returns (res: Result<()>, ghost ks: seq<Typing>)
      requires s.Valid() && env.Fits(|s.slots|) && name in env.bindings && env.bindings[name] == TOp(name, [])
      modifies s, env, spec
      ensures s.Valid() && Advanced(old(s.slots), old(s.rank), s.slots, s.rank)
      ensures s.names == old(s.names) && s.counter == old(s.counter) && s.drawn == old(s.drawn)
      ensures env.Fits(|s.slots|)
      ensures old(spec.marked) ==> spec.marked
      ensures res.Ok? ==>
        && name in env.bindings && |ks| == |cs| && DataSoFar(s.slots, s.rank, old(env.bindings), old(spec.marked), ks, cs, TOp(name, []))
        && env.bindings == EnvAfter(old(env.bindings), ks) && spec.marked == SpecAfter(old(spec.marked), ks)
      ensures res.Ok? && (forall k :: 0 <= k < |cs| ==> KeyAt(cs[k], 0) != name) ==> env.bindings[name] == TOp(name, [])
  {
    PreservesAdvanced(s.slots, s.rank, s.slots, s.rank) by { PreservesRefl(s.slots, s.rank); }
    var defnt := TOp(name, []);
    ks := [];
    var i := 0;
    while i < |cs|
      invariant i <= |cs| && |ks| == i
      invariant s.Valid() && Advanced(old(s.slots), old(s.rank), s.slots, s.rank)
      invariant s.names == old(s.names) && s.counter == old(s.counter) && s.drawn == old(s.drawn)
      invariant env.Fits(|s.slots|)
      invariant old(spec.marked) ==> spec.marked
      invariant DataSoFar(s.slots, s.rank, old(env.bindings), old(spec.marked), ks, cs, defnt)
      invariant env.bindings == EnvAfter(old(env.bindings), ks) && spec.marked == SpecAfter(old(spec.marked), ks)
    {
      ghost var sa, ka := s.slots, s.rank;
      var f;
      ghost var c;
      f, c := DataStep(s, cs, i, name, env, spec, old(env.bindings), old(spec.marked), ks);
      AdvancedTrans(old(s.slots), old(s.rank), sa, ka, s.slots, s.rank);
      if f.Err? {
        return Err(f.error), ks;
      }
      ks := ks + [c];
      i := i + 1;
    }
    if ks != [] {
      DataKeeps(s.slots, s.rank, old(env.bindings), old(spec.marked), ks, cs, defnt, name, |ks|);
    }
    res := Ok(());
  }

  /** The `i`-th constructor of a `data` form, analysed where the ones before left off. */
  method DataStep(s: Session, cs: seq<Expr>, i: nat, name: string, env: Env, spec: SpecificSet,
                  ghost env0: map<string, Type>, ghost spec0: bool, ghost ks: seq<Typing>)
      returns (res: Result<Type>, ghost c: Typing)
      requires s.Valid() && env.Fits(|s.slots|) && i == |ks| < |cs|
      requires DataSoFar(s.slots, s.rank, env0, spec0, ks, cs, TOp(name, []))
      requires env.bindings == EnvAfter(env0, ks) && spec.marked == SpecAfter(spec0, ks)
      modifies s, env, spec
      ensures s.Valid() && Advanced(old(s.slots), old(s.rank), s.slots, s.rank)
      ensures s.names == old(s.names) && s.counter == old(s.counter) && s.drawn == old(s.drawn)
      ensures env.Fits(|s.slots|) && (old(spec.marked) ==> spec.marked)
      ensures res.Ok? ==>
        && DataSoFar(s.slots, s.rank, env0, spec0, ks + [c], cs, TOp(name, []))
        && env.bindings == EnvAfter(env0, ks + [c]) && spec.marked == SpecAfter(spec0, ks + [c])
        && env.bindings == old(env.bindings)[KeyAt(cs[i], 0) := res.value]
  {
    ghost var sa, ka := s.slots, s.rank;
    res, c := DataConstructor(s, cs[i], TOp(name, []), env, spec);
    if res.Ok? {
      DataGrow(sa, ka, s.slots, s.rank, env0, spec0, ks, cs, TOp(name, []), c);
    }
  }

  /**
   * One constructor of a `data` form: a new variable, bound under the
   * constructor's name and made specific, is unified with a function from
   * the types of the fields to the data type.
   */
  method DataConstructor(s: Session, c: Expr, defnt: Type, env: Env, spec: SpecificSet) returns (res: Result<Type>, ghost dc: Typing)
      requires s.Valid() && env.Fits(|s.slots|)
      requires defnt.TOp? && defnt.args == []
      modifies s, env, spec
      ensures s.Valid() && Advanced(old(s.slots), old(s.rank), s.slots, s.rank)
      ensures s.names == old(s.names) && s.counter == old(s.counter) && s.drawn == old(s.drawn)
      ensures env.Fits(|s.slots|)
      ensures res.Ok? ==> Bounded(res.value, |s.slots|)
      ensures spec.marked
      ensures res.Ok? ==> res == Ok(TVar(|old(s.slots)|)) && env.bindings == old(env.bindings)[KeyAt(c, 0) := res.value]
      ensures res.Ok? ==>
        && Records(dc, c, old(env.bindings), env.bindings, old(spec.marked), spec.marked, |old(s.slots)|, res.value)
        && CtorOk(s.slots, s.rank, dc, defnt)
  {
    dc := NoTyping(c);
    var funt := BindName(s, env, spec, KeyAt(c, 0));
    ghost var sa, ka := s.slots, s.rank;
    var fields, leaves := FieldTypes(s, c, env, spec);
    AdvancedTrans(old(s.slots), old(s.rank), sa, ka, s.slots, s.rank);
    if fields.Err? {
      return Err(fields.error), dc;
    }
    var args := fields.value + [defnt];
    assert AllBounded(args, |s.slots|);
    ghost var sb, kb := s.slots, s.rank;
    var u := s.Unify(funt, Fn(args));
    AdvancedTrans(old(s.slots), old(s.rank), sb, kb, s.slots, s.rank);
    if u.Fail? {
      return Err(u.error), dc;
    }
    LeavesRefines(sb, kb, s.slots, s.rank, leaves, env.bindings, true);
    res := Ok(funt);
    dc := Typing(c, old(env.bindings), env.bindings, old(spec.marked), spec.marked, |old(s.slots)|, funt, [], leaves);
  }

  /**
   * `funt = new TypeVariable(); env[key] = funt; specific[funt] = true`:
   * the opening of `def`, `defn` and of a `data` constructor.
   */
  method BindName(s: Session, env: Env, spec: SpecificSet, key: string) returns (v: Type)
      requires s.Valid() && env.Fits(|s.slots|)
      modifies s, env, spec
      ensures s.Valid() && Advanced(old(s.slots), old(s.rank), s.slots, s.rank)
      ensures s.names == old(s.names) && s.counter == old(s.counter) && s.drawn == old(s.drawn)
      ensures v == TVar(|old(s.slots)|) && |s.slots| == |old(s.slots)| + 1
      ensures env.bindings == old(env.bindings)[key := v] && env.Fits(|s.slots|) && spec.marked
  {
    v := s.NewVar();
    PreservesAdvanced(old(s.slots), old(s.rank), s.slots, s.rank);
    env.FitsGrow(|old(s.slots)|, |s.slots|);
    env.Set(key, v);
    spec.Mark();
  }

  /**
   * The types of a constructor's fields: `get_type` of each element after
   * the first, left to right, in the current environment and specific set.
   */
  method FieldTypes(s: Session, c: Expr, env: Env, spec: SpecificSet) returns (res: Result<seq<Type>>, ghost ls: seq<Typing>)
      requires s.Valid() && env.Fits(|s.slots|)
      modifies s
      ensures s.Valid() && Advanced(old(s.slots), old(s.rank), s.slots, s.rank)
      ensures s.names == old(s.names) && s.counter == old(s.counter) && s.drawn == old(s.drawn)
      ensures env.Fits(|s.slots|)
      ensures res.Ok? ==> AllBounded(res.value, |s.slots|)
      ensures res.Ok? ==>
        && res.value == Ts(ls) && FormsAre(ls, if |Items(c)| == 0 then [] else Items(c)[1..])
        && Leaves(s.slots, s.rank, ls, env.bindings, spec.marked)
  {
    PreservesAdvanced(s.slots, s.rank, s.slots, s.rank) by { PreservesRefl(s.slots, s.rank); }
    var fields := Items(c);
    ls := [];
    if |fields| == 0 {
      return Ok([]), ls;
    }
    var args := [];
    var j := 1;
    while j < |fields|
      invariant 1 <= j <= |fields| && |args| == j - 1
      invariant s.Valid() && Advanced(old(s.slots), old(s.rank), s.slots, s.rank)
      invariant s.names == old(s.names) && s.counter == old(s.counter) && s.drawn == old(s.drawn)
      invariant env.Fits(|s.slots|) && AllBounded(args, |s.slots|)
      invariant args == Ts(ls) && FormsAre(ls, fields[1..j])
      invariant Leaves(s.slots, s.rank, ls, env.bindings, spec.marked)
    {
      ghost var sa, ka := s.slots, s.rank;
      var a, leaf := GetType(s, fields[j], env, spec);
      AdvancedTrans(old(s.slots), old(s.rank), sa, ka, s.slots, s.rank);
      if a.Err? {
        return Err(a.error), ls;
      }
      AllBoundedMono(args, |sa|, |s.slots|);
      LeavesRefines(sa, ka, s.slots, s.rank, ls, env.bindings, spec.marked);
      LeavesNext(s.slots, s.rank, ls, env.bindings, spec.marked, leaf);
      FormsNext(ls, fields, 1, j, leaf);
      TsNext(ls, leaf);
      args := args + [a.value];
      ls := ls + [leaf];
      j := j + 1;
    }
    res := Ok(args);
  }

  /**
   * `let`: every value is analysed in the enclosing environment and bound
   * in a copy of it taken beforehand; the body is analysed in the copy. An
   * odd trailing name is ignored.
   */
  method AnalyseLet(s: Session, e: Expr, env: Env, spec: SpecificSet) returns (res: Result<Type>, ghost d: Typing)
      requires s.Valid() && env.Fits(|s.slots|)
      requires RuleOf(e) == Let && e.Node?
      modifies s, env, spec
      ensures s.Valid() && Advanced(old(s.slots), old(s.rank), s.slots, s.rank)
      ensures s.names == old(s.names) && s.counter == old(s.counter) && s.drawn == old(s.drawn)
      ensures env.Fits(|s.slots|)
      ensures res.Ok? ==> Bounded(res.value, |s.slots|)
      ensures old(spec.marked) ==> spec.marked
      ensures "hasOwnProperty" in old(env.bindings) || |Items(e)| < 2 ==> res == Err(Malformed)
      ensures res.Ok? ==>
        && Records(d, e, old(env.bindings), env.bindings, old(spec.marked), spec.marked, |old(s.slots)|, res.value)
        && Sound(s.slots, s.rank, d)
      decreases ExprSize(e), 3
  {
    d := NoTyping(e);
    PreservesAdvanced(s.slots, s.rank, s.slots, s.rank) by { PreservesRefl(s.slots, s.rank); }
    var copy := env.Clone();
    if copy.Err? || |Items(e)| < 2 {
      return Err(Malformed), d;
    }
    var newEnv := copy.value;
    ghost var ks;
    var ok;
    ok, ks := LetValues(s, e, env, newEnv, spec);
    if ok.Err? {
      return Err(ok.error), d;
    }
    ghost var sb, kb := s.slots, s.rank;
    var b, db := AnalyseAt(s, e, 2, newEnv, spec);
    AdvancedTrans(old(s.slots), old(s.rank), sb, kb, s.slots, s.rank);
    env.FitsGrow(|sb|, |s.slots|);
    if b.Err? {
      return b, d;
    }
    res := b;
    d := LetIntro(sb, kb, s.slots, s.rank, e, old(env.bindings), old(spec.marked), |old(s.slots)|, ks, db);
  }

  /**
   * The values of a `let`, analysed in turn in the enclosing environment
   * and bound to their names in `newEnv`, a copy of it.
   */
  method LetValues(s: Session, e: Expr, env: Env, newEnv: Env, spec: SpecificSet) returns (res: Result<()>, ghost ks: seq<Typing>)
      requires s.Valid() && env.Fits(|s.slots|) && newEnv.bindings == env.bindings && env != newEnv
      requires e.Node? && |Items(e)| >= 2
      modifies s, env, spec, newEnv
      ensures s.Valid() && Advanced(old(s.slots), old(s.rank), s.slots, s.rank)
      ensures s.names == old(s.names) && s.counter == old(s.counter) && s.drawn == old(s.drawn)
      ensures env.Fits(|s.slots|) && newEnv.Fits(|s.slots|) && (old(spec.marked) ==> spec.marked)
      ensures res.Ok? ==>
        && LetSoFar(s.slots, s.rank, e, old(env.bindings), old(spec.marked), ks)
        && |ks| == |Items(Items(e)[1])| / 2
        && env.bindings == EnvAfter(old(env.bindings), ks) && spec.marked == SpecAfter(old(spec.marked), ks)
        && newEnv.bindings == LetEnv(old(env.bindings), Items(Items(e)[1]), Ts(ks))
      decreases ExprSize(e), 2
  {
    PreservesAdvanced(s.slots, s.rank, s.slots, s.rank) by { PreservesRefl(s.slots, s.rank); }
    var bs := Items(Items(e)[1]);
    ks := [];
    var i := 1;
    while i < |bs|
      invariant i == 2 * |ks| + 1 && i <= |bs| + 1
      invariant s.Valid() && Advanced(old(s.slots), old(s.rank), s.slots, s.rank)
      invariant s.names == old(s.names) && s.counter == old(s.counter) && s.drawn == old(s.drawn)
      invariant env.Fits(|s.slots|) && newEnv.Fits(|s.slots|)
      invariant old(spec.marked) ==> spec.marked
      invariant LetSoFar(s.slots, s.rank, e, old(env.bindings), old(spec.marked), ks)
      invariant env.bindings == EnvAfter(old(env.bindings), ks) && spec.marked == SpecAfter(old(spec.marked), ks)
      invariant newEnv.bindings == LetEnv(old(env.bindings), bs, Ts(ks))
    {
      ghost var sa, ka := s.slots, s.rank;
      var ok;
      ghost var dv;
      ok, dv := LetStep(s, e, i, env, newEnv, spec, old(env.bindings), old(spec.marked), ks);
      AdvancedTrans(old(s.slots), old(s.rank), sa, ka, s.slots, s.rank);
      if ok.Err? {
        return Err(ok.error), ks;
      }
      ks := ks + [dv];
      i := i + 2;
    }
    res := Ok(());
  }

  /** One binding of a `let`: its value analysed in the enclosing environment, bound in the copy. */
  method LetStep(s: Session, e: Expr, i: nat, env: Env, newEnv: Env, spec: SpecificSet,
                 ghost env0: map<string, Type>, ghost spec0: bool, ghost ks: seq<Typing>)
      returns (res: Result<Type>, ghost k: Typing)
      requires s.Valid() && env.Fits(|s.slots|) && newEnv.Fits(|s.slots|) && env != newEnv && e.Node?
      requires LetSoFar(s.slots, s.rank, e, env0, spec0, ks)
      requires i == 2 * |ks| + 1 && i < |Items(Items(e)[1])|
      requires env.bindings == EnvAfter(env0, ks) && spec.marked == SpecAfter(spec0, ks)
      requires newEnv.bindings == LetEnv(env0, Items(Items(e)[1]), Ts(ks))
      modifies s, env, spec, newEnv
      ensures s.Valid() && Advanced(old(s.slots), old(s.rank), s.slots, s.rank)
      ensures s.names == old(s.names) && s.counter == old(s.counter) && s.drawn == old(s.drawn)
      ensures env.Fits(|s.slots|) && newEnv.Fits(|s.slots|) && (old(spec.marked) ==> spec.marked)
      ensures res.Ok? ==>
        && LetSoFar(s.slots, s.rank, e, env0, spec0, ks + [k])
        && env.bindings == EnvAfter(env0, ks + [k]) && spec.marked == SpecAfter(spec0, ks + [k])
        && newEnv.bindings == LetEnv(env0, Items(Items(e)[1]), Ts(ks + [k]))
      decreases ExprSize(e), 1
  {
    ItemSize(e, 1);
    var bs := Items(Items(e)[1]);
    ItemSize(Items(e)[1], i);
    res, k := Analyse(s, bs[i], env, spec);
    newEnv.FitsGrow(|old(s.slots)|, |s.slots|);
    if res.Err? {
      return;
    }
    LetGrow(old(s.slots), old(s.rank), s.slots, s.rank, e, env0, spec0, ks, k);
    newEnv.Set(Key(bs[i - 1]), res.value);
    LetEnvNext(env0, bs, ks, k);
  }

  /**
   * `if`: the condition's type is unified with `Bool` and the two
   * branches' types with each other; the result is the first branch's type.
   */
  method AnalyseIf(s: Session, e: Expr, env: Env, spec: SpecificSet) returns (res: Result<Type>, ghost d: Typing)
      requires s.Valid() && env.Fits(|s.slots|)
      requires RuleOf(e) == If && e.Node?
      modifies s, env, spec
      ensures s.Valid() && Advanced(old(s.slots), old(s.rank), s.slots, s.rank)
      ensures s.names == old(s.names) && s.counter == old(s.counter) && s.drawn == old(s.drawn)
      ensures env.Fits(|s.slots|)
      ensures res.Ok? ==> Bounded(res.value, |s.slots|)
      ensures old(spec.marked) ==> spec.marked
      ensures |Items(e)| < 4 ==> res.Err?
      ensures res.Ok? ==>
        && Records(d, e, old(env.bindings), env.bindings, old(spec.marked), spec.marked, |old(s.slots)|, res.value)
        && Sound(s.slots, s.rank, d) && IfOk(s.slots, s.rank, d)
      decreases ExprSize(e), 2
  {
    d := NoTyping(e);
    var c, dc := IfCondition(s, e, env, spec);
    if c.Err? {
      return c, d;
    }
    ghost var sc, kc := s.slots, s.rank;
    ghost var dt, df;
    res, dt, df := IfBranches(s, e, env, spec);
    AdvancedTrans(old(s.slots), old(s.rank), sc, kc, s.slots, s.rank);
    if res.Ok? {
      d := IfIntro(sc, kc, s.slots, s.rank, e, |old(s.slots)|, dc, dt, df);
    }
  }

  /** The condition of an `if`, analysed and unified with `Bool`. */
  method IfCondition(s: Session, e: Expr, env: Env, spec: SpecificSet) returns (res: Result<Type>, ghost dc: Typing)
      requires s.Valid() && env.Fits(|s.slots|)
      requires e.Node?
      modifies s, env, spec
      ensures s.Valid() && Advanced(old(s.slots), old(s.rank), s.slots, s.rank)
      ensures s.names == old(s.names) && s.counter == old(s.counter) && s.drawn == old(s.drawn)
      ensures env.Fits(|s.slots|)
      ensures old(spec.marked) ==> spec.marked
      ensures |Items(e)| < 2 ==> res.Err?
      ensures res.Ok? ==>
        && Records(dc, Items(e)[1], old(env.bindings), env.bindings, old(spec.marked), spec.marked, |old(s.slots)|, res.value)
        && Sound(s.slots, s.rank, dc) && Same(s.slots, s.rank, res.value, Bool)
      decreases ExprSize(e), 1
  {
    res, dc := AnalyseAt(s, e, 1, env, spec);
    if res.Err? {
      return;
    }
    ghost var sb, kb := s.slots, s.rank;
    GroundFixed(sb, kb, Bool);
    var u := s.Unify(res.value, Bool);
    AdvancedTrans(old(s.slots), old(s.rank), sb, kb, s.slots, s.rank);
    if u.Fail? {
      return Err(u.error), dc;
    }
    GroundFixed(s.slots, s.rank, Bool);
    SoundRefines(sb, kb, s.slots, s.rank, dc);
  }

  /** The two branches of an `if`, analysed in turn and unified with each other. */
  method IfBranches(s: Session, e: Expr, env: Env, spec: SpecificSet) returns (res: Result<Type>, ghost dt: Typing, ghost df: Typing)
      requires s.Valid() && env.Fits(|s.slots|)
      requires e.Node?
      modifies s, env, spec
      ensures s.Valid() && Advanced(old(s.slots), old(s.rank), s.slots, s.rank)
      ensures s.names == old(s.names) && s.counter == old(s.counter) && s.drawn == old(s.drawn)
      ensures env.Fits(|s.slots|)
      ensures res.Ok? ==> Bounded(res.value, |s.slots|)
      ensures old(spec.marked) ==> spec.marked
      ensures |Items(e)| < 4 ==> res.Err?
      ensures res.Ok? ==>
        && |Items(e)| >= 4 && res.value == dt.t
        && Records(dt, Items(e)[2], old(env.bindings), dt.out, old(spec.marked), dt.specOut, |old(s.slots)|, dt.t)
        && Records(df, Items(e)[3], dt.out, env.bindings, dt.specOut, spec.marked, df.base, df.t)
        && Sound(s.slots, s.rank, dt) && Sound(s.slots, s.rank, df) && Same(s.slots, s.rank, dt.t, df.t)
      decreases ExprSize(e), 1
  {
    var t, f;
    t, dt := AnalyseAt(s, e, 2, env, spec);
    df := dt;
    if t.Err? {
      return t, dt, df;
    }
    ghost var sd, kd := s.slots, s.rank;
    f, df := AnalyseAt(s, e, 3, env, spec);
    AdvancedTrans(old(s.slots), old(s.rank), sd, kd, s.slots, s.rank);
    if f.Err? {
      return f, dt, df;
    }
    BoundedMono(t.value, |sd|, |s.slots|);
    ghost var se, ke := s.slots, s.rank;
    var u := s.Unify(t.value, f.value);
    AdvancedTrans(old(s.slots), old(s.rank), se, ke, s.slots, s.rank);
    if u.Fail? {
      return Err(u.error), dt, df;
    }
    AdvancedTrans(sd, kd, se, ke, s.slots, s.rank);
    SoundRefines(sd, kd, s.slots, s.rank, dt);
    SoundRefines(se, ke, s.slots, s.rank, df);
    res := t;
  }

  /**
   * `lambda`: each parameter is bound to a new variable, made specific, in
   * copies of the environment and the specific set; the result is a
   * function from those variables to the body's type. The caller's
   * environment and specific set are left as they were.
   */
  method AnalyseLambda(s: Session, e: Expr, env: Env, spec: SpecificSet) returns (res: Result<Type>, ghost d: Typing)
      requires s.Valid() && env.Fits(|s.slots|)
      requires RuleOf(e) == Lambda && e.Node?
      modifies s
      ensures s.Valid() && Advanced(old(s.slots), old(s.rank), s.slots, s.rank)
      ensures s.names == old(s.names) && s.counter == old(s.counter) && s.drawn == old(s.drawn)
      ensures env.Fits(|s.slots|)
      ensures res.Ok? ==> Bounded(res.value, |s.slots|)
      ensures "hasOwnProperty" in env.bindings || |Items(e)| < 3 ==> res == Err(Malformed)
      ensures res.Ok? ==>
        && Records(d, e, env.bindings, env.bindings, spec.marked, spec.marked, |old(s.slots)|, res.value)
        && Sound(s.slots, s.rank, d) && LambdaOk(s.slots, s.rank, d)
        && (Quiet(Items(e)[2]) ==> Grown(old(s.slots), old(s.rank), s.slots, s.rank))
      decreases ExprSize(e), 2
  {
    d := NoTyping(e);
    ghost var db;
    res, db := FunctionBody(s, e, 2, env, spec, true);
    if res.Ok? {
      d := LambdaIntro(s.slots, s.rank, e, env.bindings, spec.marked, |old(s.slots)|, db);
    }
  }

  /**
   * What `lambda` and `defn` share: in copies of the environment and the
   * specific set, the parameters (the list at `k - 1`) are bound to new
   * variables, specific when `mark`, and the body at `k` is analysed there;
   * the result is the function from those variables to the body's type.
   */
  method FunctionBody(s: Session, e: Expr, k: nat, env: Env, spec: SpecificSet, mark: bool)
      returns (res: Result<Type>, ghost db: Typing)
      requires s.Valid() && env.Fits(|s.slots|) && e.Node? && k >= 1
      modifies s
      ensures s.Valid() && Advanced(old(s.slots), old(s.rank), s.slots, s.rank)
      ensures s.names == old(s.names) && s.counter == old(s.counter) && s.drawn == old(s.drawn)
      ensures env.Fits(|s.slots|)
      ensures "hasOwnProperty" in env.bindings || |Items(e)| <= k ==> res == Err(Malformed)
      ensures res.Ok? ==>
        var ps := Items(Items(e)[k - 1]);
        && k < |Items(e)| && "hasOwnProperty" !in env.bindings
        && res.value == Fn(Vars(|old(s.slots)|, |ps|) + [db.t]) && Bounded(res.value, |s.slots|)
        && Records(db, Items(e)[k], BindVars(env.bindings, ps, |old(s.slots)|), db.out,
                   spec.marked || (mark && |ps| > 0), db.specOut, |old(s.slots)| + |ps|, db.t)
        && Sound(s.slots, s.rank, db) && db.base <= |s.slots|
        && (Quiet(Items(e)[k]) ==> Grown(old(s.slots), old(s.rank), s.slots, s.rank))
      decreases ExprSize(e), 1
  {
    db := NoTyping(e);
    if |Items(e)| <= k {
      PreservesAdvanced(s.slots, s.rank, s.slots, s.rank) by { PreservesRefl(s.slots, s.rank); }
      return Err(Malformed), db;
    }
    var ps := Items(Items(e)[k - 1]);
    var scope, newSpec, args := ParamScope(s, env, spec, ps, mark);
    if scope.Err? {
      return Err(Malformed), db;
    }
    var newEnv := scope.value;
    ghost var sb, kb := s.slots, s.rank;
    var body;
    body, db := AnalyseAt(s, e, k, newEnv, newSpec);
    AdvancedTrans(old(s.slots), old(s.rank), sb, kb, s.slots, s.rank);
    env.FitsGrow(|sb|, |s.slots|);
    if body.Err? {
      return body, db;
    }
    if Quiet(Items(e)[k]) {
      GrownTrans(old(s.slots), old(s.rank), sb, kb, s.slots, s.rank);
    }
    assert AllBounded(args + [body.value], |s.slots|);
    res := Ok(Fn(args + [body.value]));
  }

  /**
   * The scope of a function's body: copies of the environment and the
   * specific set with the parameters `ps` bound to new variables `args`,
   * specific when `mark`. Copying fails on an own `hasOwnProperty`.
   */
  method ParamScope(s: Session, env: Env, spec: SpecificSet, ps: seq<Expr>, mark: bool)
      returns (res: Result<Env>, newSpec: SpecificSet, args: seq<Type>)
      requires s.Valid() && env.Fits(|s.slots|)
      modifies s
      ensures s.Valid() && Advanced(old(s.slots), old(s.rank), s.slots, s.rank)
      ensures Grown(old(s.slots), old(s.rank), s.slots, s.rank)
      ensures s.names == old(s.names) && s.counter == old(s.counter) && s.drawn == old(s.drawn)
      ensures env.Fits(|s.slots|)
      ensures res.Ok? <==> "hasOwnProperty" !in env.bindings
      ensures res.Ok? ==>
        && fresh(res.value) && fresh(newSpec) && res.value.Fits(|s.slots|)
        && |s.slots| == |old(s.slots)| + |ps| && args == Vars(|old(s.slots)|, |ps|)
        && res.value.bindings == BindVars(env.bindings, ps, |old(s.slots)|)
        && newSpec.marked == (spec.marked || (mark && |ps| > 0))
  {
    newSpec := spec.Clone();
    args := [];
    res := env.Clone();
    if res.Err? {
      PreservesAdvanced(s.slots, s.rank, s.slots, s.rank) by { PreservesRefl(s.slots, s.rank); }
      GrownRefl(s.slots, s.rank);
      return;
    }
    args := BindParams(s, ps, res.value, newSpec, mark);
    env.FitsGrow(|old(s.slots)|, |s.slots|);
  }

  /**
   * The parameter loop of `lambda` and `defn`: a new variable per
   * parameter, bound under the parameter's key in `newEnv`, and for
   * `lambda` (`mark`) made specific in `newSpec`.
   */
  method BindParams(s: Session, ps: seq<Expr>, newEnv: Env, newSpec: SpecificSet, mark: bool) returns (args: seq<Type>)
      requires s.Valid() && newEnv.Fits(|s.slots|)
      modifies s, newEnv, newSpec
      ensures s.Valid() && Advanced(old(s.slots), old(s.rank), s.slots, s.rank)
      ensures Grown(old(s.slots), old(s.rank), s.slots, s.rank)
      ensures s.names == old(s.names) && s.counter == old(s.counter) && s.drawn == old(s.drawn)
      ensures |s.slots| == |old(s.slots)| + |ps| && newEnv.Fits(|s.slots|)
      ensures |args| == |ps| && forall k :: 0 <= k < |ps| ==> args[k] == TVar(|old(s.slots)| + k)
      ensures newEnv.bindings == BindVars(old(newEnv.bindings), ps, |old(s.slots)|)
      ensures newSpec.marked == (old(newSpec.marked) || (mark && |ps| > 0))
  {
    PreservesAdvanced(s.slots, s.rank, s.slots, s.rank) by { PreservesRefl(s.slots, s.rank); }
    GrownRefl(s.slots, s.rank);
    args := [];
    var j := 0;
    while j < |ps|
      invariant j <= |ps| && |args| == j && |s.slots| == |old(s.slots)| + j
      invariant s.Valid() && Advanced(old(s.slots), old(s.rank), s.slots, s.rank)
      invariant Grown(old(s.slots), old(s.rank), s.slots, s.rank)
      invariant s.names == old(s.names) && s.counter == old(s.counter) && s.drawn == old(s.drawn)
      invariant newEnv.Fits(|s.slots|)
      invariant forall k :: 0 <= k < j ==> args[k] == TVar(|old(s.slots)| + k)
      invariant newEnv.bindings == BindVars(old(newEnv.bindings), ps[..j], |old(s.slots)|)
      invariant newSpec.marked == (old(newSpec.marked) || (mark && j > 0))
    {
      ghost var sa, ka := s.slots, s.rank;
      var v := s.NewVar();
      PreservesAdvanced(sa, ka, s.slots, s.rank);
      AdvancedTrans(old(s.slots), old(s.rank), sa, ka, s.slots, s.rank);
      GrownTrans(old(s.slots), old(s.rank), sa, ka, s.slots, s.rank);
      newEnv.FitsGrow(|sa|, |s.slots|);
      newEnv.Set(Key(ps[j]), v);
      if mark {
        newSpec.Mark();
      }
      assert ps[..j + 1][..j] == ps[..j];
      args := args + [v];
      j := j + 1;
    }
    assert ps[..j] == ps;
  }

  /**
   * `def`: the name is bound to a new variable, made specific, before the
   * value is analysed, so the value may refer to it; the variable is then
   * unified with the value's type, which is the result.
   */
  method AnalyseDef(s: Session, e: Expr, env: Env, spec: SpecificSet) returns (res: Result<Type>, ghost d: Typing)
      requires s.Valid() && env.Fits(|s.slots|)
      requires RuleOf(e) == Def && e.Node?
      modifies s, env, spec
      ensures s.Valid() && Advanced(old(s.slots), old(s.rank), s.slots, s.rank)
      ensures s.names == old(s.names) && s.counter == old(s.counter) && s.drawn == old(s.drawn)
      ensures env.Fits(|s.slots|)
      ensures res.Ok? ==> Bounded(res.value, |s.slots|)
      ensures spec.marked
      ensures |Items(e)| < 3 ==> res == Err(Malformed)
      ensures res.Ok? ==>
        && Records(d, e, old(env.bindings), env.bindings, old(spec.marked), spec.marked, |old(s.slots)|, res.value)
        && Sound(s.slots, s.rank, d) && DefOk(s.slots, s.rank, d)
      decreases ExprSize(e), 2
  {
    d := NoTyping(e);
    var funt := BindName(s, env, spec, KeyAt(e, 1));
    ghost var sa, ka := s.slots, s.rank;
    var v, dv := AnalyseAt(s, e, 2, env, spec);
    AdvancedTrans(old(s.slots), old(s.rank), sa, ka, s.slots, s.rank);
    if v.Err? {
      return v, d;
    }
    ghost var sb, kb := s.slots, s.rank;
    var u := s.Unify(funt, v.value);
    AdvancedTrans(old(s.slots), old(s.rank), sb, kb, s.slots, s.rank);
    if u.Fail? {
      return Err(u.error), d;
    }
    SoundRefines(sb, kb, s.slots, s.rank, dv);
    res := v;
    d := Typing(e, old(env.bindings), env.bindings, old(spec.marked), spec.marked, |old(s.slots)|, v.value, [], [dv]);
    assert DefOk(s.slots, s.rank, d);
    assert Obeys(s.slots, s.rank, d, Def);
  }

  /**
   * `set!`: a name with no binding is an error; otherwise the binding is
   * unified with the new value's type, which is the result. A name that
   * only the prototype supplies makes `prune` fail.
   */
  method AnalyseSet(s: Session, e: Expr, env: Env, spec: SpecificSet) returns (res: Result<Type>, ghost d: Typing)
      requires s.Valid() && env.Fits(|s.slots|)
      requires RuleOf(e) == SetBang && e.Node?
      modifies s, env, spec
      ensures s.Valid() && Advanced(old(s.slots), old(s.rank), s.slots, s.rank)
      ensures s.names == old(s.names) && s.counter == old(s.counter) && s.drawn == old(s.drawn)
      ensures env.Fits(|s.slots|)
      ensures res.Ok? ==> Bounded(res.value, |s.slots|)
      ensures old(spec.marked) ==> spec.marked
      ensures old(env.Get(KeyAt(e, 1))).Missing? ==> res == Err(SetError)
      ensures old(env.Get(KeyAt(e, 1))).Foreign? ==> res.Err?
      ensures res.Ok? ==>
        && Records(d, e, old(env.bindings), env.bindings, old(spec.marked), spec.marked, |old(s.slots)|, res.value)
        && Sound(s.slots, s.rank, d) && SetOk(s.slots, s.rank, d)
      decreases ExprSize(e), 2
  {
    d := NoTyping(e);
    var found := env.Get(KeyAt(e, 1));
    if found.Missing? {
      PreservesAdvanced(s.slots, s.rank, s.slots, s.rank) by { PreservesRefl(s.slots, s.rank); }
      return Err(SetError), d;
    }
    var v, dv := AnalyseAt(s, e, 2, env, spec);
    if v.Err? {
      return v, d;
    }
    if found.Foreign? {
      return Err(PruneError), d;
    }
    BoundedMono(found.t, |old(s.slots)|, |s.slots|);
    ghost var sb, kb := s.slots, s.rank;
    var u := s.Unify(found.t, v.value);
    AdvancedTrans(old(s.slots), old(s.rank), sb, kb, s.slots, s.rank);
    if u.Fail? {
      return Err(u.error), d;
    }
    SoundRefines(sb, kb, s.slots, s.rank, dv);
    res := v;
    d := Typing(e, old(env.bindings), env.bindings, old(spec.marked), spec.marked, |old(s.slots)|, v.value, [], [dv]);
    assert SetOk(s.slots, s.rank, d);
    assert Obeys(s.slots, s.rank, d, SetBang);
  }

  /**
   * `defn`: the name is bound to a new variable, made specific; the
   * parameters get new variables in copies of the environment and the
   * specific set, and the function type from them to the body's type is
   * unified with the name's variable and returned. The source marks
   * `args[j]` with `j` undefined, which stores the key "undefined" and
   * makes no variable specific; the copied set is already marked anyway.
   */
  method AnalyseDefn(s: Session, e: Expr, env: Env, spec: SpecificSet) returns (res: Result<Type>, ghost d: Typing)
      requires s.Valid() && env.Fits(|s.slots|)
      requires RuleOf(e) == Defn && e.Node?
      modifies s, env, spec
      ensures s.Valid() && Advanced(old(s.slots), old(s.rank), s.slots, s.rank)
      ensures s.names == old(s.names) && s.counter == old(s.counter) && s.drawn == old(s.drawn)
      ensures env.Fits(|s.slots|)
      ensures res.Ok? ==> Bounded(res.value, |s.slots|)
      ensures spec.marked
      ensures "hasOwnProperty" in old(env.bindings) || KeyAt(e, 1) == "hasOwnProperty" || |Items(e)| < 4 ==>
        res == Err(Malformed)
      ensures res.Ok? ==>
        && Records(d, e, old(env.bindings), env.bindings, old(spec.marked), spec.marked, |old(s.slots)|, res.value)
        && Sound(s.slots, s.rank, d) && DefnOk(s.slots, s.rank, d)
      decreases ExprSize(e), 3
  {
    d := NoTyping(e);
    var funt := BindName(s, env, spec, KeyAt(e, 1));
    ghost var sa, ka := s.slots, s.rank;
    res, d := DefnRest(s, e, env, spec, funt, old(env.bindings), old(spec.marked));
    AdvancedTrans(old(s.slots), old(s.rank), sa, ka, s.slots, s.rank);
  }

  /** A `defn` after its name is bound to `funt`: the function's type, unified with `funt`. */
  method DefnRest(s: Session, e: Expr, env: Env, spec: SpecificSet, funt: Type,
                  ghost env0: map<string, Type>, ghost spec0: bool)
      returns (res: Result<Type>, ghost d: Typing)
      requires s.Valid() && env.Fits(|s.slots|) && RuleOf(e) == Defn && e.Node?
      requires |s.slots| >= 1 && funt == TVar(|s.slots| - 1) && env.bindings == env0[KeyAt(e, 1) := funt] && spec.marked
      modifies s
      ensures s.Valid() && Advanced(old(s.slots), old(s.rank), s.slots, s.rank)
      ensures s.names == old(s.names) && s.counter == old(s.counter) && s.drawn == old(s.drawn)
      ensures env.Fits(|s.slots|)
      ensures res.Ok? ==> Bounded(res.value, |s.slots|)
      ensures "hasOwnProperty" in env.bindings || |Items(e)| < 4 ==> res == Err(Malformed)
      ensures res.Ok? ==>
        && Records(d, e, env0, env.bindings, spec0, spec.marked, |old(s.slots)| - 1, res.value)
        && Sound(s.slots, s.rank, d) && DefnOk(s.slots, s.rank, d)
      decreases ExprSize(e), 2
  {
    d := NoTyping(e);
    ghost var db;
    res, db := FunctionBody(s, e, 3, env, spec, false);
    if res.Err? {
      return;
    }
    ghost var sc, kc := s.slots, s.rank;
    BoundedMono(funt, |old(s.slots)|, |s.slots|);
    res, d := DefnUnify(s, e, funt.id, res.value, env0, spec0, db);
    AdvancedTrans(old(s.slots), old(s.rank), sc, kc, s.slots, s.rank);
  }

  /** The end of a `defn`: the function's type `t`, built around the body's derivation `db`, unified with the name's variable. */
  method DefnUnify(s: Session, e: Expr, base: nat, t: Type, ghost env0: map<string, Type>, ghost spec0: bool, ghost db: Typing)
      returns (res: Result<Type>, ghost d: Typing)
    requires s.Valid() && RuleOf(e) == Defn && |Items(e)| >= 4 && base < |s.slots| && Bounded(t, |s.slots|)
    requires var env1 := env0[KeyAt(e, 1) := TVar(base)];
      && "hasOwnProperty" !in env1
      && db.form == Items(e)[3] && db.env == BindVars(env1, Items(Items(e)[2]), base + 1) && db.spec
      && db.base == base + 1 + |Items(Items(e)[2])|
    requires Sound(s.slots, s.rank, db) && db.base <= |s.slots|
    requires t == Fn(Vars(base + 1, |Items(Items(e)[2])|) + [db.t])
    modifies s
    ensures s.Valid() && Advanced(old(s.slots), old(s.rank), s.slots, s.rank) && |s.slots| == |old(s.slots)|
    ensures s.names == old(s.names) && s.counter == old(s.counter) && s.drawn == old(s.drawn)
    ensures res.Ok? ==>
      && res.value == t
      && Records(d, e, env0, env0[KeyAt(e, 1) := TVar(base)], spec0, true, base, t)
      && Sound(s.slots, s.rank, d) && DefnOk(s.slots, s.rank, d)
  {
    d := NoTyping(e);
    var u := s.Unify(TVar(base), t);
    if u.Fail? {
      return Err(u.error), d;
    }
    res := Ok(t);
    d := DefnIntro(old(s.slots), old(s.rank), s.slots, s.rank, e, env0, spec0, base, db);
  }

  /**
   * `let*`: in copies of the environment and the specific set, each name
   * is bound to a new specific variable before its value is analysed, so
   * later values (and the value itself) see earlier names. The body is
   * analysed in the extended environment but with the caller's specific
   * set. The caller's environment is left as it was.
   */
  method AnalyseLetStar(s: Session, e: Expr, env: Env, spec: SpecificSet) returns (res: Result<Type>, ghost d: Typing)
      requires s.Valid() && env.Fits(|s.slots|)
      requires RuleOf(e) == LetStar && e.Node?
      modifies s, spec
      ensures s.Valid() && Advanced(old(s.slots), old(s.rank), s.slots, s.rank)
      ensures s.names == old(s.names) && s.counter == old(s.counter) && s.drawn == old(s.drawn)
      ensures env.Fits(|s.slots|)
      ensures res.Ok? ==> Bounded(res.value, |s.slots|)
      ensures old(spec.marked) ==> spec.marked
      ensures "hasOwnProperty" in env.bindings || |Items(e)| < 2 ==> res == Err(Malformed)
      ensures |Items(e)| >= 2 && |Items(Items(e)[1])| % 2 == 1 ==> res.Err?
      ensures res.Ok? ==>
        && Records(d, e, env.bindings, env.bindings, old(spec.marked), spec.marked, |old(s.slots)|, res.value)
        && Sound(s.slots, s.rank, d) && StarOk(s.slots, s.rank, d)
      decreases ExprSize(e), 3
  {
    d := NoTyping(e);
    var copy := env.Clone();
    if copy.Err? || |Items(e)| < 2 {
      PreservesAdvanced(s.slots, s.rank, s.slots, s.rank) by { PreservesRefl(s.slots, s.rank); }
      return Err(Malformed), d;
    }
    var newEnv := copy.value;
    var newSpec := spec.Clone();
    ghost var ks, vs;
    var ok;
    ok, ks, vs := StarValues(s, e, newEnv, newSpec, env.bindings);
    if ok.Err? {
      env.FitsGrow(|old(s.slots)|, |s.slots|);
      return Err(ok.error), d;
    }
    ghost var sd, kd := s.slots, s.rank;
    var b, db := AnalyseAt(s, e, 2, newEnv, spec);
    AdvancedTrans(old(s.slots), old(s.rank), sd, kd, s.slots, s.rank);
    env.FitsGrow(|old(s.slots)|, |s.slots|);
    if b.Err? {
      return b, d;
    }
    res := b;
    d := StarIntro(sd, kd, s.slots, s.rank, e, env.bindings, old(spec.marked), |old(s.slots)|, ks, vs, db);
  }

  /**
   * The bindings of a `let*`, in turn, in `newEnv` and `newSpec`, copies
   * of the caller's environment `env0` and specific set.
   */
  method StarValues(s: Session, e: Expr, newEnv: Env, newSpec: SpecificSet, ghost env0: map<string, Type>)
      returns (res: Result<()>, ghost ks: seq<Typing>, ghost vs: seq<Type>)
      requires s.Valid() && newEnv.Fits(|s.slots|) && newEnv.bindings == env0
      requires e.Node? && |Items(e)| >= 2
      modifies s, newEnv, newSpec
      ensures s.Valid() && Advanced(old(s.slots), old(s.rank), s.slots, s.rank)
      ensures s.names == old(s.names) && s.counter == old(s.counter) && s.drawn == old(s.drawn)
      ensures newEnv.Fits(|s.slots|)
      ensures |Items(Items(e)[1])| % 2 == 1 ==> res.Err?
      ensures res.Ok? ==>
        && StarSoFar(s.slots, s.rank, env0, ks, vs, Items(Items(e)[1])) && 2 * |ks| == |Items(Items(e)[1])|
        && newEnv.bindings == EnvAfter(env0, ks)
      decreases ExprSize(e), 2
  {
    ItemSize(e, 1);
    var bs := Items(Items(e)[1]);
    ks, vs := [], [];
    var i := 0;
    PreservesAdvanced(s.slots, s.rank, s.slots, s.rank) by { PreservesRefl(s.slots, s.rank); }
    while i < |bs|
      invariant i == 2 * |ks| && |vs| == |ks| && i <= |bs|
      invariant s.Valid() && Advanced(old(s.slots), old(s.rank), s.slots, s.rank)
      invariant s.names == old(s.names) && s.counter == old(s.counter) && s.drawn == old(s.drawn)
      invariant newEnv.Fits(|s.slots|)
      invariant newEnv.bindings == EnvAfter(env0, ks)
      invariant StarSoFar(s.slots, s.rank, env0, ks, vs, bs)
    {
      ghost var sa, ka := s.slots, s.rank;
      var r, dv, v := LetStarBinding(s, Items(e)[1], i, newEnv, newSpec);
      AdvancedTrans(old(s.slots), old(s.rank), sa, ka, s.slots, s.rank);
      if r.Err? {
        return Err(r.error), ks, vs;
      }
      StarGrow(sa, ka, s.slots, s.rank, env0, ks, vs, bs, dv, v);
      ks := ks + [dv];
      vs := vs + [v];
      i := i + 2;
    }
    res := Ok(());
  }

  /**
   * One binding of `let*`, the name at `i` and the value after it: the
   * name is bound to a new variable `v` in `newEnv` and made specific in
   * `newSpec`; the value is analysed there and its type unified with the
   * variable. A name without a value cannot be indexed into.
   */
  method LetStarBinding(s: Session, bs: Expr, i: nat, newEnv: Env, newSpec: SpecificSet)
    returns (res: Result<Type>, ghost dv: Typing, ghost v: Type)
      requires s.Valid() && newEnv.Fits(|s.slots|) && i < |Items(bs)|
      modifies s, newEnv, newSpec
      ensures s.Valid() && Advanced(old(s.slots), old(s.rank), s.slots, s.rank)
      ensures s.names == old(s.names) && s.counter == old(s.counter) && s.drawn == old(s.drawn)
      ensures newEnv.Fits(|s.slots|) && newSpec.marked
      ensures res.Ok? ==> Bounded(res.value, |s.slots|)
      ensures i + 1 == |Items(bs)| ==> res == Err(Malformed)
      ensures res.Ok? ==>
        && i + 1 < |Items(bs)| && v == TVar(|old(s.slots)|)
        && Records(dv, Items(bs)[i + 1], old(newEnv.bindings)[Key(Items(bs)[i]) := v], newEnv.bindings,
                   true, newSpec.marked, |old(s.slots)| + 1, res.value)
        && Sound(s.slots, s.rank, dv) && Same(s.slots, s.rank, v, dv.t)
      decreases ExprSize(bs), 1
  {
    dv := NoTyping(bs);
    var funt := s.NewVar();
    v := funt;
    PreservesAdvanced(old(s.slots), old(s.rank), s.slots, s.rank);
    newEnv.FitsGrow(|old(s.slots)|, |s.slots|);
    newEnv.Set(Key(Items(bs)[i]), funt);
    newSpec.Mark();
    ghost var sb, kb := s.slots, s.rank;
    var r, dr := AnalyseAt(s, bs, i + 1, newEnv, newSpec);
    AdvancedTrans(old(s.slots), old(s.rank), sb, kb, s.slots, s.rank);
    if r.Err? {
      return r, dv, v;
    }
    ghost var sc, kc := s.slots, s.rank;
    var u := s.Unify(funt, r.value);
    AdvancedTrans(old(s.slots), old(s.rank), sc, kc, s.slots, s.rank);
    if u.Fail? {
      return Err(u.error), dv, v;
    }
    SoundRefines(sc, kc, s.slots, s.rank, dr);
    res, dv := r, dr;
  }

  /**
   * `.`: a pair of the types of both operands, each analysed with a new,
   * empty specific set; the caller's set, marked or not as `marked` says,
   * is not touched.
   */
  method AnalysePair(s: Session, e: Expr, env: Env, ghost marked: bool) returns (res: Result<Type>, ghost d: Typing)
      requires s.Valid() && env.Fits(|s.slots|)
      requires RuleOf(e) == Dot
      modifies s, env
      ensures s.Valid() && Advanced(old(s.slots), old(s.rank), s.slots, s.rank)
      ensures s.names == old(s.names) && s.counter == old(s.counter) && s.drawn == old(s.drawn)
      ensures env.Fits(|s.slots|)
      ensures res.Ok? ==> Bounded(res.value, |s.slots|)
      ensures |Items(e)| < 3 ==> res.Err?
      ensures res.Ok? ==>
        && Records(d, e, old(env.bindings), env.bindings, marked, marked, |old(s.slots)|, res.value)
        && Sound(s.slots, s.rank, d) && DotOk(s.slots, s.rank, d)
      decreases ExprSize(e), 2
  {
    d := NoTyping(e);
    var spec1 := new SpecificSet();
    var t1, d1 := AnalyseAt(s, e, 1, env, spec1);
    if t1.Err? {
      return t1, d;
    }
    ghost var sa, ka := s.slots, s.rank;
    var spec2 := new SpecificSet();
    var t2, d2 := AnalyseAt(s, e, 2, env, spec2);
    AdvancedTrans(old(s.slots), old(s.rank), sa, ka, s.slots, s.rank);
    if t2.Err? {
      return t2, d;
    }
    res := Ok(Pair(t1.value, t2.value));
    d := PairIntro(sa, ka, s.slots, s.rank, e, marked, |old(s.slots)|, d1, d2);
  }

  /**
   * `quote`: more than one operand is an error; a quoted name is a
   * `Symbol`, a quoted number an `Int`, and a quoted list is analysed as
   * the `list` form of its elements.
   */
  method AnalyseQuote(s: Session, e: Expr, env: Env, spec: SpecificSet) returns (res: Result<Type>, ghost d: Typing)
      requires s.Valid() && env.Fits(|s.slots|)
      requires RuleOf(e) == Quote && e.Node?
      modifies s, env, spec
      ensures s.Valid() && Advanced(old(s.slots), old(s.rank), s.slots, s.rank)
      ensures s.names == old(s.names) && s.counter == old(s.counter) && s.drawn == old(s.drawn)
      ensures env.Fits(|s.slots|)
      ensures res.Ok? ==> Bounded(res.value, |s.slots|)
      ensures old(spec.marked) ==> spec.marked
      ensures |Items(e)| > 2 ==> res == Err(QuoteError)
      ensures |Items(e)| < 2 ==> res == Err(Malformed)
      ensures |Items(e)| == 2 && Items(e)[1].Sym? ==> res == Ok(Symbol)
      ensures |Items(e)| == 2 && Items(e)[1].Num? ==> res == Ok(Int)
      ensures |Items(e)| == 2 && Items(e)[1] == Node([]) ==> res == Ok(List(TVar(|old(s.slots)|)))
      ensures res.Ok? ==>
        && Records(d, e, old(env.bindings), env.bindings, old(spec.marked), spec.marked, |old(s.slots)|, res.value)
        && Sound(s.slots, s.rank, d) && QuoteOk(s.slots, s.rank, d)
      decreases ExprSize(e), 2
  {
    d := NoTyping(e);
    PreservesAdvanced(s.slots, s.rank, s.slots, s.rank) by { PreservesRefl(s.slots, s.rank); }
    var xs := Items(e);
    if |xs| > 2 {
      return Err(QuoteError), d;
    } else if |xs| < 2 {
      return Err(Malformed), d;
    }
    match xs[1] {
      case Sym(_) =>
        res := Ok(Symbol);
        d := Typing(e, env.bindings, env.bindings, spec.marked, spec.marked, |s.slots|, Symbol, [], []);
      case Num(_) =>
        res := Ok(Int);
        d := Typing(e, env.bindings, env.bindings, spec.marked, spec.marked, |s.slots|, Int, [], []);
      case Node(ys) =>
        QuotedSize(e);
        if ys == [] {
          assert [Sym("list")] + ys == [Sym("list")];
        }
        ghost var dl;
        res, dl := Analyse(s, Node([Sym("list")] + ys), env, spec);
        if res.Ok? {
          d := Typing(e, old(env.bindings), env.bindings, old(spec.marked), spec.marked, |old(s.slots)|, res.value, [], [dl]);
        }
    }
    if res.Ok? {
      assert QuoteOk(s.slots, s.rank, d);
      assert Obeys(s.slots, s.rank, d, Quote);
    }
  }

  /**
   * `list`: with no elements, a list of a new variable; otherwise the first
   * element is analysed with a new, empty specific set and every later one
   * with the caller's, each unified with the one before it. The result is a
   * list of the last element's type, and all the element types resolve alike.
   */
  method AnalyseList(s: Session, e: Expr, env: Env, spec: SpecificSet) returns (res: Result<Type>, ghost d: Typing)
      requires s.Valid() && env.Fits(|s.slots|)
      requires RuleOf(e) == ListOf && e.Node?
      modifies s, env, spec
      ensures s.Valid() && Advanced(old(s.slots), old(s.rank), s.slots, s.rank)
      ensures s.names == old(s.names) && s.counter == old(s.counter) && s.drawn == old(s.drawn)
      ensures env.Fits(|s.slots|)
      ensures res.Ok? ==> Bounded(res.value, |s.slots|)
      ensures old(spec.marked) ==> spec.marked
      ensures |Items(e)| == 1 ==> res == Ok(List(TVar(|old(s.slots)|)))
      ensures res.Ok? ==>
        && Records(d, e, old(env.bindings), env.bindings, old(spec.marked), spec.marked, |old(s.slots)|, res.value)
        && Sound(s.slots, s.rank, d) && ListOk(s.slots, s.rank, d)
      decreases ExprSize(e), 3
  {
    d := NoTyping(e);
    if |Items(e)| == 1 {
      var v := s.NewVar();
      PreservesAdvanced(old(s.slots), old(s.rank), s.slots, s.rank);
      env.FitsGrow(|old(s.slots)|, |s.slots|);
      res := Ok(List(v));
      d := ListEmptyIntro(s.slots, s.rank, e, env.bindings, spec.marked, |old(s.slots)|);
      return;
    }
    var first := new SpecificSet();
    var t1, d1 := AnalyseAt(s, e, 1, env, first);
    if t1.Err? {
      return t1, d;
    }
    ListStart(s.slots, s.rank, e, old(env.bindings), old(spec.marked), |old(s.slots)|, d1);
    ghost var sa, ka := s.slots, s.rank;
    ghost var ks;
    res, ks := ListRest(s, e, env, spec, t1.value, old(env.bindings), old(spec.marked), |old(s.slots)|, [d1]);
    AdvancedTrans(old(s.slots), old(s.rank), sa, ka, s.slots, s.rank);
    if res.Ok? {
      res := Ok(List(res.value));
      d := ListIntro(s.slots, s.rank, e, old(env.bindings), old(spec.marked), |old(s.slots)|, ks);
    }
  }

  /**
   * The elements of a `(list …)` form after the first, each unified with
   * the one before; the result is the last element's type.
   */
  method ListRest(s: Session, e: Expr, env: Env, spec: SpecificSet, t1: Type,
                  ghost env0: map<string, Type>, ghost spec0: bool, ghost base: nat, ghost ks0: seq<Typing>)
      returns (res: Result<Type>, ghost ks: seq<Typing>)
      requires s.Valid() && env.Fits(|s.slots|) && e.Node?
      requires ListSoFar(s.slots, s.rank, e, env0, spec0, base, ks0, 2)
      requires t1 == ks0[0].t && env.bindings == ks0[0].out && spec.marked == spec0
      modifies s, env, spec
      ensures s.Valid() && Advanced(old(s.slots), old(s.rank), s.slots, s.rank)
      ensures s.names == old(s.names) && s.counter == old(s.counter) && s.drawn == old(s.drawn)
      ensures env.Fits(|s.slots|) && (old(spec.marked) ==> spec.marked)
      ensures res.Ok? ==>
        && ListSoFar(s.slots, s.rank, e, env0, spec0, base, ks, |Items(e)|)
        && res.value == ks[|ks| - 1].t && Bounded(res.value, |s.slots|)
        && env.bindings == ks[|ks| - 1].out
        && spec.marked == (if |ks| == 1 then spec0 else ks[|ks| - 1].specOut)
      decreases ExprSize(e), 2
  {
    PreservesAdvanced(s.slots, s.rank, s.slots, s.rank) by { PreservesRefl(s.slots, s.rank); }
    res := Ok(t1);
    ks := ks0;
    var i := 2;
    while i < |Items(e)|
      invariant s.Valid() && Advanced(old(s.slots), old(s.rank), s.slots, s.rank)
      invariant s.names == old(s.names) && s.counter == old(s.counter) && s.drawn == old(s.drawn)
      invariant env.Fits(|s.slots|)
      invariant old(spec.marked) ==> spec.marked
      invariant ListSoFar(s.slots, s.rank, e, env0, spec0, base, ks, i)
      invariant res.Ok? && res.value == ks[|ks| - 1].t
      invariant env.bindings == ks[|ks| - 1].out
      invariant spec.marked == (if |ks| == 1 then spec0 else ks[|ks| - 1].specOut)
    {
      ghost var sa, ka := s.slots, s.rank;
      var t2;
      ghost var d2;
      t2, d2 := ListStep(s, e, i, env, spec, res.value, env0, spec0, base, ks);
      AdvancedTrans(old(s.slots), old(s.rank), sa, ka, s.slots, s.rank);
      if t2.Err? {
        return t2, ks;
      }
      ks := ks + [d2];
      res := t2;
      i := i + 1;
    }
    assert Sound(s.slots, s.rank, ks[|ks| - 1]);
  }

  /** One more element of a `(list …)` form, analysed and unified with the one before. */
  method ListStep(s: Session, e: Expr, i: nat, env: Env, spec: SpecificSet, prev: Type,
                  ghost env0: map<string, Type>, ghost spec0: bool, ghost base: nat, ghost ks: seq<Typing>)
      returns (res: Result<Type>, ghost k: Typing)
      requires s.Valid() && env.Fits(|s.slots|) && e.Node?
      requires ListSoFar(s.slots, s.rank, e, env0, spec0, base, ks, i) && i < |Items(e)|
      requires prev == ks[|ks| - 1].t && env.bindings == ks[|ks| - 1].out
      requires spec.marked == (if |ks| == 1 then spec0 else ks[|ks| - 1].specOut)
      modifies s, env, spec
      ensures s.Valid() && Advanced(old(s.slots), old(s.rank), s.slots, s.rank)
      ensures s.names == old(s.names) && s.counter == old(s.counter) && s.drawn == old(s.drawn)
      ensures env.Fits(|s.slots|) && (old(spec.marked) ==> spec.marked)
      ensures res.Ok? ==>
        && ListSoFar(s.slots, s.rank, e, env0, spec0, base, ks + [k], i + 1)
        && res.value == k.t && env.bindings == k.out && spec.marked == k.specOut
      decreases ExprSize(e), 1
  {
    res, k := AnalyseAt(s, e, i, env, spec);
    if res.Err? {
      return;
    }
    ghost var sb, kb := s.slots, s.rank;
    BoundedMono(prev, |old(s.slots)|, |sb|);
    var u := s.Unify(prev, res.value);
    AdvancedTrans(old(s.slots), old(s.rank), sb, kb, s.slots, s.rank);
    if u.Fail? {
      return Err(u.error), k;
    }
    ListGrow(old(s.slots), old(s.rank), sb, kb, s.slots, s.rank, e, env0, spec0, base, ks, i, k);
  }

  /**
   * Application: the head's type is analysed and a generic copy of it kept;
   * the head's type is unified with a function from the operands' types to
   * a new variable, which is the result; finally the head's key is rebound
   * to the copy.
   */
  method AnalyseApply(s: Session, e: Expr, env: Env, spec: SpecificSet)
      returns (res: Result<Type>, ghost d: Typing, ghost sa: Slots, ghost ka: seq<nat>)
      requires s.Valid() && env.Fits(|s.slots|)
      requires RuleOf(e) == Apply && e.Node?
      modifies s, env, spec
      ensures s.Valid() && Advanced(old(s.slots), old(s.rank), s.slots, s.rank)
      ensures s.names == old(s.names) && s.counter == old(s.counter) && s.drawn == old(s.drawn)
      ensures env.Fits(|s.slots|)
      ensures res.Ok? ==> Bounded(res.value, |s.slots|)
      ensures old(spec.marked) ==> spec.marked
      ensures res.Ok? ==>
        && Records(d, e, old(env.bindings), env.bindings, old(spec.marked), spec.marked, |old(s.slots)|, res.value)
        && Sound(s.slots, s.rank, d) && ApplyOk(s.slots, s.rank, d)
        && Ranked(sa, ka) && Refines(sa, ka, s.slots, s.rank) && |old(s.slots)| <= |sa|
        && |d.kids| >= 1 && Bounded(d.kids[0].t, |sa|) && d.vars[0] == Resolve(sa, ka, d.kids[0].t) && d.vars[2] == TVar(|sa|)
      decreases ExprSize(e), 3
  {
    d := NoTyping(e);
    ItemSize(e, 0);
    var f, dh := Analyse(s, Items(e)[0], env, spec);
    sa, ka := s.slots, s.rank;
    if f.Err? {
      res := f;
      return;
    }
    var copy, fr := CopyHead(s, env, f.value, dh);
    AdvancedTrans(old(s.slots), old(s.rank), sa, ka, s.slots, s.rank);
    ghost var sb, kb := s.slots, s.rank;
    res, d := ApplyRest(s, e, env, spec, f.value, copy, |old(s.slots)|, |sa|, dh, fr);
    AdvancedTrans(old(s.slots), old(s.rank), sb, kb, s.slots, s.rank);
    AdvancedTrans(sa, ka, sb, kb, s.slots, s.rank);
  }

  /**
   * The copy of an application's head type that its key is rebound to: a
   * generic copy of the resolved type `fr`, where every variable becomes
   * the one new variable drawn for it, and `fr` itself when it has none.
   */
  method CopyHead(s: Session, env: Env, fn: Type, ghost dh: Typing) returns (copy: Type, ghost fr: Type)
      requires s.Valid() && env.Fits(|s.slots|) && Bounded(fn, |s.slots|)
      requires Sound(s.slots, s.rank, dh)
      modifies s
      ensures s.Valid() && Advanced(old(s.slots), old(s.rank), s.slots, s.rank)
      ensures s.names == old(s.names) && s.counter == old(s.counter) && s.drawn == old(s.drawn)
      ensures env.Fits(|s.slots|) && Bounded(copy, |s.slots|) && Sound(s.slots, s.rank, dh)
      ensures fr == Resolve(old(s.slots), old(s.rank), fn)
      ensures Same(s.slots, s.rank, fr, fn) && SameShape(fr, copy) && (!HasVar(fr) ==> copy == fr)
      ensures HasVar(fr) ==> copy == ReplaceVars(fr, TVar(|old(s.slots)|))
      ensures copy == Instance(fr, true, if HasVar(fr) then Some(|old(s.slots)|) else None)
  {
    fr := Resolve(s.slots, s.rank, fn);
    ResolveIdempotent(s.slots, s.rank, fn);
    copy := s.Fresh(fn, true);
    ReplaceVarsShape(fr, |old(s.slots)|);
    PreservesAdvanced(old(s.slots), old(s.rank), s.slots, s.rank);
    env.FitsGrow(|old(s.slots)|, |s.slots|);
    BoundedMono(fn, |old(s.slots)|, |s.slots|);
    SameRefines(old(s.slots), old(s.rank), s.slots, s.rank, fr, fn);
    SoundRefines(old(s.slots), old(s.rank), s.slots, s.rank, dh);
  }

  /** An application after its head: the operands, then the head's unification and rebinding. */
  method ApplyRest(s: Session, e: Expr, env: Env, spec: SpecificSet, fn: Type, copy: Type,
                   ghost base: nat, ghost m: nat, ghost dh: Typing, ghost fr: Type)
      returns (res: Result<Type>, ghost d: Typing)
      requires s.Valid() && env.Fits(|s.slots|)
      requires RuleOf(e) == Apply && e.Node? && |Items(e)| >= 1
      requires dh.form == Items(e)[0] && dh.out == env.bindings && dh.specOut == spec.marked && dh.t == fn
      requires Sound(s.slots, s.rank, dh) && Bounded(copy, |s.slots|)
      requires Same(s.slots, s.rank, fr, fn) && base <= m
      requires CopyOf(fr, copy, m)
      modifies s, env, spec
      ensures s.Valid() && Advanced(old(s.slots), old(s.rank), s.slots, s.rank)
      ensures s.names == old(s.names) && s.counter == old(s.counter) && s.drawn == old(s.drawn)
      ensures env.Fits(|s.slots|)
      ensures res.Ok? ==> Bounded(res.value, |s.slots|)
      ensures old(spec.marked) ==> spec.marked
      ensures res.Ok? ==>
        && Records(d, e, dh.env, env.bindings, dh.spec, spec.marked, base, res.value)
        && Sound(s.slots, s.rank, d) && ApplyOk(s.slots, s.rank, d)
        && d.kids[0] == dh && d.vars == [fr, copy, TVar(m)]
      decreases ExprSize(e), 2
  {
    d := NoTyping(e);
    var args, ks := AnalyseOperands(s, e, env, spec);
    if args.Err? {
      return Err(args.error), d;
    }
    BoundedMono(fn, |old(s.slots)|, |s.slots|);
    BoundedMono(copy, |old(s.slots)|, |s.slots|);
    ghost var sc, kc := s.slots, s.rank;
    res := ApplyHead(s, env, fn, args.value, Key(Items(e)[0]), copy);
    AdvancedTrans(old(s.slots), old(s.rank), sc, kc, s.slots, s.rank);
    if res.Err? {
      return res, d;
    }
    d := ApplyIntro(old(s.slots), old(s.rank), sc, kc, s.slots, s.rank, e, base, dh, ks, fr, copy, m, res.value);
  }

  /**
   * The end of an application: the head's type `fn` is unified with a
   * function from the operands' types to a new variable, which is the
   * result, and the head's key is rebound to the copy `bk`.
   */
  method ApplyHead(s: Session, env: Env, fn: Type, args: seq<Type>, key: string, bk: Type) returns (res: Result<Type>)
      requires s.Valid() && env.Fits(|s.slots|)
      requires Bounded(fn, |s.slots|) && AllBounded(args, |s.slots|) && Bounded(bk, |s.slots|)
      modifies s, env
      ensures s.Valid() && Advanced(old(s.slots), old(s.rank), s.slots, s.rank)
      ensures s.names == old(s.names) && s.counter == old(s.counter) && s.drawn == old(s.drawn)
      ensures env.Fits(|s.slots|)
      ensures res.Ok? ==> Bounded(res.value, |s.slots|)
      ensures res.Ok? ==>
        && res == Ok(TVar(|old(s.slots)|)) && env.bindings == old(env.bindings)[key := bk]
        && Same(s.slots, s.rank, fn, Fn(args + [res.value]))
  {
    var r := s.NewVar();
    PreservesAdvanced(old(s.slots), old(s.rank), s.slots, s.rank);
    env.FitsGrow(|old(s.slots)|, |s.slots|);
    AllBoundedMono(args, |old(s.slots)|, |s.slots|);
    BoundedMono(fn, |old(s.slots)|, |s.slots|);
    BoundedMono(bk, |old(s.slots)|, |s.slots|);
    assert AllBounded(args + [r], |s.slots|);
    ghost var sa, ka := s.slots, s.rank;
    var u := s.Unify(Fn(args + [r]), fn);
    AdvancedTrans(old(s.slots), old(s.rank), sa, ka, s.slots, s.rank);
    if u.Fail? {
      return Err(u.error);
    }
    AllBoundedMono(args, |sa|, |s.slots|);
    env.Set(key, bk);
    res := Ok(r);
  }

  /** The operands of an application, analysed left to right. */
  method AnalyseOperands(s: Session, e: Expr, env: Env, spec: SpecificSet) returns (res: Result<seq<Type>>, ghost ks: seq<Typing>)
      requires s.Valid() && env.Fits(|s.slots|)
      requires e.Node? && |Items(e)| >= 1
      modifies s, env, spec
      ensures s.Valid() && Advanced(old(s.slots), old(s.rank), s.slots, s.rank)
      ensures s.names == old(s.names) && s.counter == old(s.counter) && s.drawn == old(s.drawn)
      ensures env.Fits(|s.slots|) && (old(spec.marked) ==> spec.marked)
      ensures res.Ok? ==> AllBounded(res.value, |s.slots|)
      ensures res.Ok? ==>
        && res.value == Ts(ks) && FormsAre(ks, Items(e)[1..]) && Chained(old(env.bindings), old(spec.marked), ks)
        && env.bindings == EnvAfter(old(env.bindings), ks) && spec.marked == SpecAfter(old(spec.marked), ks)
        && AllSound(s.slots, s.rank, ks)
      decreases ExprSize(e), 1
  {
    PreservesAdvanced(s.slots, s.rank, s.slots, s.rank) by { PreservesRefl(s.slots, s.rank); }
    var args := [];
    ks := [];
    var i := 1;
    while i < |Items(e)|
      invariant 1 <= i <= |Items(e)| && |args| == i - 1
      invariant s.Valid() && Advanced(old(s.slots), old(s.rank), s.slots, s.rank)
      invariant s.names == old(s.names) && s.counter == old(s.counter) && s.drawn == old(s.drawn)
      invariant env.Fits(|s.slots|) && AllBounded(args, |s.slots|) && (old(spec.marked) ==> spec.marked)
      invariant args == Ts(ks) && FormsAre(ks, Items(e)[1..i]) && Chained(old(env.bindings), old(spec.marked), ks)
      invariant env.bindings == EnvAfter(old(env.bindings), ks) && spec.marked == SpecAfter(old(spec.marked), ks)
      invariant AllSound(s.slots, s.rank, ks)
    {
      ghost var sa, ka := s.slots, s.rank;
      var a, da := AnalyseAt(s, e, i, env, spec);
      AdvancedTrans(old(s.slots), old(s.rank), sa, ka, s.slots, s.rank);
      if a.Err? {
        return Err(a.error), ks;
      }
      AllBoundedMono(args, |sa|, |s.slots|);
      AllSoundRefines(sa, ka, s.slots, s.rank, ks);
      AllSoundNext(s.slots, s.rank, ks, da);
      ChainNext(old(env.bindings), old(spec.marked), ks, da);
      FormsNext(ks, Items(e), 1, i, da);
      TsNext(ks, da);
      args := args + [a.value];
      ks := ks + [da];
      i := i + 1;
    }
    assert Items(e)[1..i] == Items(e)[1..];
    res := Ok(args);
  }

  /**
   * The base environment of `typecheck`: the boolean constants, `nil`, the
   * arithmetic and comparison operators, equality and inequality over the
   * variables `e1` and `e2`, the list operations over the arena's first
   * variable `t1`, and `!` over `e3`.
   */
  function BaseEnv(t1: Type, e1: Type, e2: Type, e3: Type): map<string, Type>
  {
    map[
      "#t" := Bool, "#f" := Bool, "nil" := Nil,
      "+" := Fn([Int, Int, Int]), "-" := Fn([Int, Int, Int]),
      "*" := Fn([Int, Int, Int]), "/" := Fn([Int, Int, Int]),
      "<" := Fn([Int, Int, Bool]), ">" := Fn([Int, Int, Bool]),
      "<=" := Fn([Int, Int, Bool]), ">=" := Fn([Int, Int, Bool]),
      "=" := Fn([e1, e1, Bool]), "!=" := Fn([e2, e2, Bool]),
      "car" := Fn([List(t1), t1]), "cdr" := Fn([List(t1), List(t1)]),
      "cons" := Fn([t1, List(t1), List(t1)]),
      "!" := Fn([Int, e3, e3])
    ]
  }

  /**
   * One form of `typecheck`: its type, printed. The ghost result is the
   * form's derivation; what is printed is its type under the final
   * substitution, with the display names memoized so far.
   */
  method CheckForm(s: Session, form: Expr, env: Env, spec: SpecificSet) returns (res: Result<string>, ghost d: Typing)
    requires s.Valid() && env.Fits(|s.slots|)
    modifies s, env, spec
    ensures s.Valid() && env.Fits(|s.slots|) && Advanced(old(s.slots), old(s.rank), s.slots, s.rank)
    ensures res.Ok? ==>
      && Records(d, form, old(env.bindings), env.bindings, old(spec.marked), spec.marked, |old(s.slots)|, d.t)
      && Sound(s.slots, s.rank, d)
      && (Quiet(form) ==> Grown(old(s.slots), old(s.rank), s.slots, s.rank))
      && Render(Resolve(s.slots, s.rank, d.t), old(s.names), old(s.drawn)) == Ok(Printed(res.value, s.names, s.drawn))
  {
    var t;
    t, d := Analyse(s, form, env, spec);
    if t.Err? {
      return Err(t.error), d;
    }
    BoundedBelowTop(s.rank, t.value);
    res := s.PrettyPrint(t.value, Top(s.rank));
  }

  /** Every type of the base environment lives in an arena where its variables do. */
  lemma BaseEnvFits(n: nat, t1: Type, e1: Type, e2: Type, e3: Type)
    requires Bounded(t1, n) && Bounded(e1, n) && Bounded(e2, n) && Bounded(e3, n)
    ensures forall k :: k in BaseEnv(t1, e1, e2, e3) ==> Bounded(BaseEnv(t1, e1, e2, e3)[k], n)
  {
    assert Bounded(List(t1), n);
  }

  /**
   * What `typecheck` established about the `k`-th form: its derivation
   * starts where the states before it ended, is sound in the state after
   * it, and the text printed is its type there.
   */
  ghost predicate FormChecked(p: seq<Expr>, out: seq<string>, ds: seq<Typing>, sts: seq<Slots>, rks: seq<seq<nat>>,
                              ns: seq<map<nat, string>>, drawn0: nat, k: nat)
    requires k < |p| && k < |out| && k < |ds| && k + 1 < |sts| && k + 1 < |rks| && k + 1 < |ns|
  {
    && ds[k].form == p[k] && ds[k].base == |sts[k]|
    && Ranked(sts[k], rks[k]) && Ranked(sts[k + 1], rks[k + 1])
    && Advanced(sts[k], rks[k], sts[k + 1], rks[k + 1])
    && Sound(sts[k + 1], rks[k + 1], ds[k])
    && (Quiet(p[k]) ==> Grown(sts[k], rks[k], sts[k + 1], rks[k + 1]))
    && var r := Render(Resolve(sts[k + 1], rks[k + 1], ds[k].t), ns[k], if k == 0 then drawn0 else 0);
       r.Ok? && r.value.text == out[k] && r.value.names == ns[k + 1]
  }

  /**
   * `typecheck`: every form of the program is analysed in one shared base
   * environment and one shared specific set, and its type printed; the name
   * counter goes back to "a" after each form, the memoized names stay. Any
   * error aborts the whole program. The ghost results are the derivations
   * of the forms, chained through the environment, and the type graphs
   * and memoized names before and after each form.
   */
  method Typecheck(s: Session, p: seq<Expr>)
    returns (res: Result<seq<string>>, ghost ds: seq<Typing>, ghost sts: seq<Slots>, ghost rks: seq<seq<nat>>, ghost ns: seq<map<nat, string>>)
    requires s.Valid() && |s.slots| >= 1
    modifies s
    ensures s.Valid()
    ensures p == [] ==> res == Ok([])
    ensures res.Ok? ==>
      && |res.value| == |p| && |ds| == |p| && |sts| == |p| + 1 && |rks| == |p| + 1 && |ns| == |p| + 1
      && Grown(old(s.slots), old(s.rank), sts[0], rks[0]) && |sts[0]| == |old(s.slots)| + 3 && ns[0] == old(s.names)
      && Chained(BaseEnv(TVar(0), TVar(|old(s.slots)|), TVar(|old(s.slots)| + 1), TVar(|old(s.slots)| + 2)), false, ds)
      && forall k :: 0 <= k < |p| ==> FormChecked(p, res.value, ds, sts, rks, ns, old(s.drawn), k)
    ensures res.Ok? && p != [] ==> s.drawn == 0 && s.counter == [FirstLow]
  {
    ds, sts, rks, ns := [], [], [], [];
    var env := BaseScope(s);
    var e1, e2, e3 := TVar(|old(s.slots)|), TVar(|old(s.slots)| + 1), TVar(|old(s.slots)| + 2);
    var spec := new SpecificSet();
    sts, rks, ns := [s.slots], [s.rank], [s.names];
    var out := [];
    var i := 0;
    while i < |p|
      invariant i <= |p| && |out| == i && |ds| == i && |sts| == i + 1 && |rks| == i + 1 && |ns| == i + 1
      invariant s.Valid() && env.Fits(|s.slots|)
      invariant sts[i] == s.slots && rks[i] == s.rank && ns[i] == s.names
      invariant Grown(old(s.slots), old(s.rank), sts[0], rks[0]) && |sts[0]| == |old(s.slots)| + 3 && ns[0] == old(s.names)
      invariant s.drawn == (if i == 0 then old(s.drawn) else 0)
      invariant i > 0 ==> s.counter == [FirstLow]
      invariant Chained(BaseEnv(TVar(0), e1, e2, e3), false, ds)
      invariant env.bindings == EnvAfter(BaseEnv(TVar(0), e1, e2, e3), ds) && spec.marked == SpecAfter(false, ds)
      invariant forall k :: 0 <= k < i ==> FormChecked(p, out, ds, sts, rks, ns, old(s.drawn), k)
    {
      var text;
      ghost var d;
      text, d := CheckStep(s, p, i, env, spec, out, ds, sts, rks, ns, old(s.drawn));
      if text.Err? {
        return Err(text.error), ds, sts, rks, ns;
      }
      CheckedNext(p, out, ds, sts, rks, ns, old(s.drawn), i, text.value, d, s.slots, s.rank, s.names);
      ChainNext(BaseEnv(TVar(0), e1, e2, e3), false, ds, d);
      out := out + [text.value];
      ds := ds + [d];
      sts, rks, ns := sts + [s.slots], rks + [s.rank], ns + [s.names];
      i := i + 1;
    }
    res := Ok(out);
  }

  /** The `i`-th form of a program: analysed, printed, and the name counter reset. */
  method CheckStep(s: Session, p: seq<Expr>, i: nat, env: Env, spec: SpecificSet,
                   ghost out: seq<string>, ghost ds: seq<Typing>, ghost sts: seq<Slots>, ghost rks: seq<seq<nat>>,
                   ghost ns: seq<map<nat, string>>, ghost drawn0: nat)
      returns (res: Result<string>, ghost d: Typing)
    requires s.Valid() && env.Fits(|s.slots|)
    requires i < |p| && |out| == i && |ds| == i && |sts| == i + 1 && |rks| == i + 1 && |ns| == i + 1
    requires sts[i] == s.slots && rks[i] == s.rank && ns[i] == s.names
    requires s.drawn == (if i == 0 then drawn0 else 0)
    modifies s, env, spec
    ensures s.Valid() && env.Fits(|s.slots|)
    ensures res.Ok? ==>
      && FormChecked(p, out + [res.value], ds + [d], sts + [s.slots], rks + [s.rank], ns + [s.names], drawn0, i)
      && d.env == old(env.bindings) && d.spec == old(spec.marked) && d.out == env.bindings && d.specOut == spec.marked
      && s.drawn == 0 && s.counter == [FirstLow]
  {
    res, d := CheckForm(s, p[i], env, spec);
    if res.Err? {
      return;
    }
    s.ResetNames();
    assert FormChecked(p, out + [res.value], ds + [d], sts + [s.slots], rks + [s.rank], ns + [s.names], drawn0, i);
  }

  /** What `typecheck` established about the first `i` forms still holds once the `i`-th is added. */
  lemma CheckedNext(p: seq<Expr>, out: seq<string>, ds: seq<Typing>, sts: seq<Slots>, rks: seq<seq<nat>>,
                    ns: seq<map<nat, string>>, drawn0: nat, i: nat,
                    text: string, d: Typing, st: Slots, rk: seq<nat>, n: map<nat, string>)
    requires i < |p| && |out| == i && |ds| == i && |sts| == i + 1 && |rks| == i + 1 && |ns| == i + 1
    requires forall k :: 0 <= k < i ==> FormChecked(p, out, ds, sts, rks, ns, drawn0, k)
    requires FormChecked(p, out + [text], ds + [d], sts + [st], rks + [rk], ns + [n], drawn0, i)
    ensures forall k :: 0 <= k < i + 1 ==> FormChecked(p, out + [text], ds + [d], sts + [st], rks + [rk], ns + [n], drawn0, k)
  {
    forall k | 0 <= k < i ensures FormChecked(p, out + [text], ds + [d], sts + [st], rks + [rk], ns + [n], drawn0, k) {
      assert FormChecked(p, out, ds, sts, rks, ns, drawn0, k);
    }
  }

  /** The three variables `typecheck` draws before the first form, and the base environment over them. */
  method BaseScope(s: Session) returns (env: Env)
    requires s.Valid() && |s.slots| >= 1
    modifies s
    ensures fresh(env) && s.Valid()
    ensures Grown(old(s.slots), old(s.rank), s.slots, s.rank) && |s.slots| == |old(s.slots)| + 3
    ensures s.names == old(s.names) && s.counter == old(s.counter) && s.drawn == old(s.drawn)
    ensures env.bindings == BaseEnv(TVar(0), TVar(|old(s.slots)|), TVar(|old(s.slots)| + 1), TVar(|old(s.slots)| + 2))
    ensures env.Fits(|s.slots|)
  {
    GrownRefl(s.slots, s.rank);
    var e1 := s.NewVar();
    ghost var s1, k1 := s.slots, s.rank;
    var e2 := s.NewVar();
    GrownTrans(old(s.slots), old(s.rank), s1, k1, s.slots, s.rank);
    ghost var s2, k2 := s.slots, s.rank;
    var e3 := s.NewVar();
    GrownTrans(old(s.slots), old(s.rank), s2, k2, s.slots, s.rank);
    BaseEnvFits(|s.slots|, TVar(0), e1, e2, e3);
    env := new Env(BaseEnv(TVar(0), e1, e2, e3));
  }
}
