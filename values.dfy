/**
 * The values the evaluator computes, as JavaScript holds them: numbers,
 * strings (the booleans `'#t'` and `'#f'`, and quoted names), `null`,
 * `undefined`, and arrays (quoted lists and dotted pairs). Functions, which
 * only `lambda` and `defn` produce, are not values of this model.
 */
module Values {
  import opened Types
  import opened Syntax

  datatype Value =
    | Number(n: int)
    | Text(s: string)
    | Null
    | Undefined
    | Cells(items: seq<Value>)

  /** What an evaluation throws. */
  datatype Fault =
    | TypeError        // reading `undefined`, calling a non-function, or `new` applied to a string
    | UndefinedForm    // "undefined form"
    | AlreadyDefined   // "already defined"
    | Unset            // "var must be defined prior to being set"
    | UpdateError      // "update error"
    | ArithmeticError  // "arithmetic error"
    | Unmodelled       // a form or a comparison outside the first-order fragment modelled here

  /** How an evaluation ends: with a value, or with the fault it throws. */
  datatype Completion = Normal(value: Value) | Abrupt(fault: Fault)

  const True: Value := Text("#t")
  const False: Value := Text("#f")

  function Truth(b: bool): Value
  {
    if b then True else False
  }

  /** `quote`: a parsed form read back as data. */
  function Datum(e: Expr): Value
    decreases e
  {
    match e
    case Num(n) => Number(n)
    case Sym(s) => Text(s)
    case Node(xs) => Cells(seq(|xs|, k requires 0 <= k < |xs| => Datum(xs[k])))
  }

  /** The form a datum was read from, when it is one. */
  function Form(v: Value): Option<Expr>
    decreases v
  {
    match v
    case Number(n) => Some(Num(n))
    case Text(s) => Some(Sym(s))
    case Null => None
    case Undefined => None
    case Cells(vs) =>
      var fs := seq(|vs|, k requires 0 <= k < |vs| => Form(vs[k]));
      if forall k :: 0 <= k < |fs| ==> fs[k].Some? then
        Some(Node(seq(|fs|, k requires 0 <= k < |fs| => fs[k].value)))
      else None
  }

  /** Quoting loses nothing: the form can be read back from its datum. */
  lemma {:induction false} DatumForm(e: Expr)
    ensures Form(Datum(e)) == Some(e)
    decreases e
  {
    match e
    case Num(_) =>
    case Sym(_) =>
    case Node(xs) =>
      var vs := Datum(e).items;
      forall k | 0 <= k < |vs| ensures Form(vs[k]) == Some(xs[k]) {
        DatumForm(xs[k]);
      }
      var fs := seq(|vs|, k requires 0 <= k < |vs| => Form(vs[k]));
      assert seq(|fs|, k requires 0 <= k < |fs| => fs[k].value) == xs;
  }

  /**
   * `a === b`. Numbers, strings, `null` and `undefined` are compared by
   * value, and values of different kinds differ; two arrays are equal only
   * when they are the same object, which this model does not track.
   */
  function StrictEquals(a: Value, b: Value): (r: Option<bool>)
    ensures r.None? <==> a.Cells? && b.Cells?
    ensures r == Some(true) ==> a == b
    ensures a == b && !a.Cells? ==> r == Some(true)
  {
    if a.Cells? && b.Cells? then None else Some(a == b)
  }

  /** Lexicographic order on strings, character by character. */
  function TextLess(s: string, t: string): bool
    decreases |s|
  {
    if s == [] then t != []
    else if t == [] then false
    else if s[0] != t[0] then s[0] < t[0]
    else TextLess(s[1..], t[1..])
  }

  /** Exactly one of `s < t`, `s == t` and `t < s` holds. */
  lemma {:induction false} TextLessTrichotomy(s: string, t: string)
    ensures TextLess(s, t) || s == t || TextLess(t, s)
    ensures !(TextLess(s, t) && TextLess(t, s))
    ensures TextLess(s, t) ==> s != t
    decreases |s|
  {
    if s != [] && t != [] && s[0] == t[0] {
      TextLessTrichotomy(s[1..], t[1..]);
      if s[1..] == t[1..] {
        assert s == [s[0]] + s[1..] && t == [t[0]] + t[1..];
      }
    }
  }

  /**
   * The relational operators `<`, `>`, `<=` and `>=` between two numbers or
   * two strings; other pairs go through JavaScript's numeric conversion,
   * which this model does not follow.
   */
  function Compare(op: string, a: Value, b: Value): (r: Option<bool>)
    requires op in {"<", ">", "<=", ">="}
    ensures r.Some? <==> (a.Number? && b.Number?) || (a.Text? && b.Text?)
    ensures a.Number? && b.Number? ==> r == Some(
      if op == "<" then a.n < b.n else if op == ">" then a.n > b.n
      else if op == "<=" then a.n <= b.n else a.n >= b.n)
  {
    if a.Number? && b.Number? then
      Some(match op
        case "<" => a.n < b.n
        case ">" => a.n > b.n
        case "<=" => a.n <= b.n
        case _ => a.n >= b.n)
    else if a.Text? && b.Text? then
      Some(match op
        case "<" => TextLess(a.s, b.s)
        case ">" => TextLess(b.s, a.s)
        case "<=" => !TextLess(b.s, a.s)
        case _ => !TextLess(a.s, b.s))
    else None
  }

  /** On strings, `<=` is `<` or equality, and `>=` is `>` or equality. */
  lemma CompareText(s: string, t: string)
    ensures Compare("<=", Text(s), Text(t)) == Some(Compare("<", Text(s), Text(t)) == Some(true) || s == t)
    ensures Compare(">=", Text(s), Text(t)) == Some(Compare(">", Text(s), Text(t)) == Some(true) || s == t)
  {
    TextLessTrichotomy(s, t);
  }

  /** `x + y`, `x - y` and `x * y` on integers. */
  function Arith(op: string, x: int, y: int): int
    requires op in {"+", "-", "*"}
  {
    if op == "+" then x + y else if op == "-" then x - y else x * y
  }
}
