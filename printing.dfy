/**
 * What `pretty_print` produces for a fully resolved type.
 *
 * Printing an unbound variable asks it for its memoized display name,
 * drawing the next name from the counter the first time; printing is thus
 * a function of the type, the names handed out so far (`names`, by
 * variable id) and the position of the counter (`drawn`), and returns the
 * text together with the updated names and counter.
 *
 *   ->     (t1 -> t2 -> … -> tn)
 *   List   (t)              only the first constituent is shown
 *   .      (l . r)
 *   other  the bare operator name
 *
 * An operator named `->`, `List` or `.` with fewer constituents than it
 * shows (a `data` type may be named that way) makes the source read a
 * missing constituent and fail.
 */
module Printing {
  import opened Types
  import opened Naming

  datatype Printed = Printed(text: string, names: map<nat, string>, drawn: nat)

  datatype Parts = Parts(texts: seq<string>, names: map<nat, string>, drawn: nat)

  /** Every name already handed out is kept, unchanged. */
  predicate Extends(m1: map<nat, string>, m2: map<nat, string>)
  {
    forall v :: v in m1 ==> v in m2 && m2[v] == m1[v]
  }

  /** How many constituents of an operator named `n` with `m` constituents are shown. */
  function Shown(n: string, m: nat): nat
  {
    if n == "->" then m else if n == "List" then 1 else if n == "." then 2 else 0
  }

  /** Printing never reaches a missing constituent. */
  predicate Printable(t: Type)
  {
    match t
    case TVar(_) => true
    case TOp(n, args) =>
      && Shown(n, |args|) <= |args| && (n == "->" ==> |args| >= 1)
      && forall k :: 0 <= k < Shown(n, |args|) ==> Printable(args[k])
  }

  /** `ps[0] + sep + ps[1] + … + sep + ps[n-1]` */
  function Join(ps: seq<string>, sep: string): string
    decreases |ps|
  {
    if ps == [] then ""
    else if |ps| == 1 then ps[0]
    else Join(ps[..|ps| - 1], sep) + sep + ps[|ps| - 1]
  }

  /** The text around the shown constituents of an operator. */
  function Enclose(n: string, texts: seq<string>): string
    requires |texts| == Shown(n, |texts|) || n == "->"
    requires n == "List" ==> |texts| >= 1
    requires n == "." ==> |texts| >= 2
  {
    if n == "->" then "(" + Join(texts, " -> ") + ")"
    else if n == "List" then "(" + texts[0] + ")"
    else if n == "." then "(" + texts[0] + " . " + texts[1] + ")"
    else n
  }

  function Render(t: Type, names: map<nat, string>, drawn: nat): (r: Result<Printed>)
    ensures r.Ok? <==> Printable(t)
    ensures r.Ok? ==> Extends(names, r.value.names) && drawn <= r.value.drawn
    ensures r.Ok? ==> forall v :: v in r.value.names ==> v in names || Mentions(t, v)
    ensures r.Ok? && !HasVar(t) ==> r.value.names == names && r.value.drawn == drawn
    decreases t, if t.TOp? then |t.args| + 1 else 0
  {
    match t
    case TVar(v) =>
      if v in names then Ok(Printed(names[v], names, drawn))
      else Ok(Printed(Spell(drawn), names[v := Spell(drawn)], drawn + 1))
    case TOp(n, args) =>
      var m := Shown(n, |args|);
      if m > |args| || (n == "->" && |args| == 0) then Err(PrintError)
      else
        match RenderArgs(t, m, names, drawn)
        case Err(e) => Err(e)
        case Ok(ps) => Ok(Printed(Enclose(n, ps.texts), ps.names, ps.drawn))
  }

  /** The first `k` constituents of `t`, printed left to right. */
  function RenderArgs(t: Type, k: nat, names: map<nat, string>, drawn: nat): (r: Result<Parts>)
    requires t.TOp? && k <= |t.args|
    ensures r.Ok? <==> forall j :: 0 <= j < k ==> Printable(t.args[j])
    ensures r.Ok? ==> |r.value.texts| == k
    ensures r.Ok? ==> Extends(names, r.value.names) && drawn <= r.value.drawn
    ensures r.Ok? ==> forall v :: v in r.value.names ==> v in names || Mentions(t, v)
    ensures r.Ok? && !HasVar(t) ==> r.value.names == names && r.value.drawn == drawn
    decreases t, k
  {
    if k == 0 then Ok(Parts([], names, drawn))
    else
      match RenderArgs(t, k - 1, names, drawn)
      case Err(e) => Err(e)
      case Ok(ps) =>
        assert !HasVar(t) ==> !HasVar(t.args[k - 1]);
        match Render(t.args[k - 1], ps.names, ps.drawn)
        case Err(e) => Err(e)
        case Ok(p) => Ok(Parts(ps.texts + [p.text], p.names, p.drawn))
  }

  /** Printing the next constituent extends the parts printed so far, or makes the whole fail. */
  lemma RenderArgsNext(t: Type, i: nat, names: map<nat, string>, drawn: nat, ps: Parts)
    requires t.TOp? && i < |t.args| && RenderArgs(t, i, names, drawn) == Ok(ps)
    ensures var r := Render(t.args[i], ps.names, ps.drawn);
      && (r.Ok? ==> RenderArgs(t, i + 1, names, drawn) == Ok(Parts(ps.texts + [r.value.text], r.value.names, r.value.drawn)))
      && (r.Err? ==> RenderArgs(t, |t.args|, names, drawn).Err?)
  {
  }

  /** A function type prints as its printed constituents joined by arrows, in parentheses. */
  lemma RenderArrow(t: Type, names: map<nat, string>, drawn: nat)
    requires t.TOp? && t.name == "->" && |t.args| >= 1
    ensures var ps := RenderArgs(t, |t.args|, names, drawn);
      && (ps.Err? ==> Render(t, names, drawn).Err?)
      && (ps.Ok? ==> Render(t, names, drawn) == Ok(Printed("(" + Join(ps.value.texts, " -> ") + ")", ps.value.names, ps.value.drawn)))
  {
    assert t == TOp("->", t.args);
  }

  /** Joining one more part appends the separator and the part. */
  lemma JoinNext(pre: string, ps: seq<string>, x: string, sep: string)
    requires ps != []
    ensures pre + Join(ps + [x], sep) == (pre + Join(ps, sep)) + (sep + x)
  {
    assert (ps + [x])[..|ps|] == ps;
    var j := Join(ps, sep);
    assert Join(ps + [x], sep) == (j + sep) + x;
    Associative(j, sep, x);
    Associative(pre, j, sep + x);
  }

  lemma Associative(a: string, b: string, c: string)
    ensures (a + b) + c == a + (b + c)
  {
  }

  /** Printing gave `res` and left the names at `names` and the counter at `drawn`, as `r` says. */
  predicate Agrees(res: Result<string>, names: map<nat, string>, drawn: nat, r: Result<Printed>)
  {
    && (res.Ok? <==> r.Ok?)
    && (res.Ok? ==> r.value == Printed(res.value, names, drawn))
  }

  lemma ArrowExampleArgs(f: Type, i: nat, j: nat)
    requires i != j && f == Fn([TVar(i), TVar(j), TVar(j)])
    ensures RenderArgs(f, 3, map[], 0) == Ok(Parts(["a", "b", "b"], map[i := "a", j := "b"], 2))
  {
    SpellExamples();
    var m1 := map[i := "a"];
    var m2 := map[i := "a", j := "b"];
    assert f.args == [TVar(i), TVar(j), TVar(j)];
    assert RenderArgs(f, 0, map[], 0) == Ok(Parts([], map[], 0));
    assert Render(TVar(i), map[], 0) == Ok(Printed("a", m1, 1));
    assert [] + ["a"] == ["a"] && ["a"] + ["b"] == ["a", "b"] && ["a", "b"] + ["b"] == ["a", "b", "b"];
    assert RenderArgs(f, 1, map[], 0) == Ok(Parts(["a"], m1, 1));
    assert Render(TVar(j), m1, 1) == Ok(Printed("b", m2, 2));
    assert RenderArgs(f, 2, map[], 0) == Ok(Parts(["a", "b"], m2, 2));
    assert Render(TVar(j), m2, 2) == Ok(Printed("b", m2, 2));
  }

  lemma ArrowExampleText()
    ensures Enclose("->", ["a", "b", "b"]) == "(a -> b -> b)"
  {
    assert ["a", "b", "b"][..2] == ["a", "b"];
    assert ["a", "b"][..1] == ["a"];
    assert Join(["a"], " -> ") == "a";
    assert Join(["a", "b"], " -> ") == "a -> b";
    assert Join(["a", "b", "b"], " -> ") == "a -> b -> b";
  }

  /** A function of two distinct variables returning the second, the type of `(lambda (x y) y)`, is printed `(a -> b -> b)`. */
  lemma RenderArrowExample(i: nat, j: nat)
    requires i != j
    ensures Render(Fn([TVar(i), TVar(j), TVar(j)]), map[], 0)
         == Ok(Printed("(a -> b -> b)", map[i := "a", j := "b"], 2))
  {
    var f := Fn([TVar(i), TVar(j), TVar(j)]);
    ArrowExampleArgs(f, i, j);
    ArrowExampleText();
    assert f == TOp("->", f.args) && |f.args| == 3 && Shown("->", 3) == 3;
  }

  /** `(list (list 1 2) (list 3 4))` is printed `((Int))`. */
  lemma RenderListExample()
    ensures Render(List(List(Int)), map[], 0) == Ok(Printed("((Int))", map[], 0))
  {
    var l := List(Int);
    assert RenderArgs(Int, 0, map[], 0) == Ok(Parts([], map[], 0));
    assert RenderArgs(l, 0, map[], 0) == Ok(Parts([], map[], 0));
    assert RenderArgs(List(l), 0, map[], 0) == Ok(Parts([], map[], 0));
    assert [] + ["Int"] == ["Int"] && [] + ["(Int)"] == ["(Int)"];
    assert Render(Int, map[], 0) == Ok(Printed("Int", map[], 0));
    assert RenderArgs(l, 1, map[], 0) == Ok(Parts(["Int"], map[], 0));
    assert l == TOp("List", [Int]) && Shown("List", 1) == 1;
    assert Enclose("List", ["Int"]) == "(Int)";
    assert Render(l, map[], 0) == Ok(Printed("(Int)", map[], 0));
    assert RenderArgs(List(l), 1, map[], 0) == Ok(Parts(["(Int)"], map[], 0));
    assert List(l) == TOp("List", [l]);
    assert Enclose("List", ["(Int)"]) == "((Int))";
  }
}
