/**
 * The parsed program the engine consumes: a form is a number, a string (a
 * name, a literal token such as `#t`, or a character literal starting with
 * a backslash) or a list of forms.
 *
 * The engine indexes into forms without checking what they are, so the
 * JavaScript meaning of `expr[k]`, `expr.length` and of using a form as an
 * object key is spelled out here:
 *  - a list yields its elements; a string yields its characters, each a
 *    one-character string; a number yields nothing;
 *  - a form used as a key is converted to a string: a string is itself, a
 *    number its decimal digits, a list its elements' conversions joined by
 *    commas, and a missing element the text "undefined".
 */
module Syntax {
  import opened Types

  datatype Expr =
    | Num(n: int)
    | Sym(s: string)
    | Node(xs: seq<Expr>)

  /** The elements `expr[0]`, `expr[1]`, … of a form. */
  function Items(e: Expr): (r: seq<Expr>)
    ensures e.Node? ==> r == e.xs
    ensures e.Sym? ==> |r| == |e.s| && forall k :: 0 <= k < |r| ==> r[k] == Sym([e.s[k]])
    ensures e.Num? ==> r == []
  {
    match e
    case Num(_) => []
    case Sym(s) => seq(|s|, k requires 0 <= k < |s| => Sym([s[k]]))
    case Node(xs) => xs
  }

  /** `expr[k]`, or nothing past the end. */
  function At(e: Expr, k: nat): Option<Expr>
  {
    if k < |Items(e)| then Some(Items(e)[k]) else None
  }

  /** `expr[0]` when it is a string: the tag a compound form is dispatched on. */
  function Tag(e: Expr): Option<string>
  {
    if |Items(e)| > 0 && Items(e)[0].Sym? then Some(Items(e)[0].s) else None
  }

  function Digit(d: nat): char
    requires d < 10
  {
    "0123456789"[d]
  }

  /** The decimal text of a natural number. */
  function Decimal(n: nat): (r: string)
    ensures |r| >= 1
    decreases n
  {
    if n < 10 then [Digit(n)] else Decimal(n / 10) + [Digit(n % 10)]
  }

  /** The text of a number, as `String(n)` gives it for an integer. */
  function NumText(n: int): string
  {
    if n < 0 then "-" + Decimal(-n) else Decimal(n)
  }

  /** `String(expr)`: the object key a form stands for. */
  function Key(e: Expr): string
    decreases e, 1
  {
    match e
    case Num(n) => NumText(n)
    case Sym(s) => s
    case Node(xs) => KeyJoin(xs, |xs|)
  }

  /** The keys of the first `k` elements of a list joined by commas, as `Array.prototype.toString` does. */
  function KeyJoin(xs: seq<Expr>, k: nat): string
    requires k <= |xs|
    decreases xs, 0, k
  {
    if k == 0 then ""
    else if k == 1 then Key(xs[0])
    else KeyJoin(xs, k - 1) + "," + Key(xs[k - 1])
  }

  /** The key of `expr[k]`; a missing element converts to "undefined". */
  function KeyAt(e: Expr, k: nat): string
  {
    match At(e, k)
    case Some(x) => Key(x)
    case None => "undefined"
  }

  /** A measure under which every element is no larger than its form, and smaller when the form is a list. */
  function ExprSize(e: Expr): nat
  {
    match e
    case Num(_) => 1
    case Sym(s) => 1 + |s|
    case Node(xs) => 1 + SizeSum(xs)
  }

  function SizeSum(xs: seq<Expr>): nat
  {
    if xs == [] then 0 else ExprSize(xs[0]) + SizeSum(xs[1..])
  }

  lemma {:induction false} SizeSumElement(xs: seq<Expr>, k: nat)
    requires k < |xs|
    ensures ExprSize(xs[k]) <= SizeSum(xs)
    decreases xs
  {
    if k > 0 {
      SizeSumElement(xs[1..], k - 1);
    }
  }

  /** Elements are no larger than their form; elements of a list, or past the first character, are smaller. */
  lemma ItemSize(e: Expr, k: nat)
    requires k < |Items(e)|
    ensures ExprSize(Items(e)[k]) <= ExprSize(e)
    ensures e.Node? || k >= 1 ==> ExprSize(Items(e)[k]) < ExprSize(e)
  {
    if e.Node? {
      SizeSumElement(e.xs, k);
    }
  }

  /** `['list'].concat(xs)`, the list a quoted list is analysed as, is smaller than the quote form. */
  lemma QuotedSize(e: Expr)
    requires e.Node? && |e.xs| == 2 && e.xs[0] == Sym("quote") && e.xs[1].Node?
    ensures ExprSize(Node([Sym("list")] + e.xs[1].xs)) < ExprSize(e)
  {
    var ys := e.xs[1].xs;
    assert ([Sym("list")] + ys)[1..] == ys;
    assert SizeSum([Sym("list")] + ys) == 5 + SizeSum(ys);
    assert e.xs[1..] == [e.xs[1]] && [e.xs[1]][1..] == [];
    assert SizeSum(e.xs[1..]) == 1 + SizeSum(ys);
    assert SizeSum(e.xs) == 6 + 1 + SizeSum(ys);
  }
}
