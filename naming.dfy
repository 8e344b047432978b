/**
 * Display names of type variables: a, b, …, z, aa, ab, …, zz, aaa, …
 *
 * The engine keeps the next name as a sequence of character codes and
 * advances it with a carry loop (`fresh_name`). `Digits(k)` is the code
 * sequence of the k-th name, i.e. k written in bijective base 26 with the
 * digits 'a'..'z'; `Succ` is one step of the carry loop, written as a
 * recursive function.
 */
module Naming {

  const FirstLow: int := 97   // 'a'
  const LastLow: int := 122   // 'z'

  predicate Letters(d: seq<int>)
  {
    forall i :: 0 <= i < |d| ==> FirstLow <= d[i] <= LastLow
  }

  /** The codes of the k-th name. */
  function Digits(k: nat): (d: seq<int>)
    ensures |d| >= 1 && Letters(d)
  {
    if k < 26 then [FirstLow + k] else Digits(k / 26 - 1) + [FirstLow + k % 26]
  }

  /**
   * The carry loop: bump the last code; a code that passes 'z' rolls back
   * to 'a' and carries into the code before it; a carry out of the first
   * code adds one more 'a'.
   */
  function Succ(d: seq<int>): seq<int>
    decreases |d|
  {
    if d == [] then [FirstLow]
    else if d[|d| - 1] + 1 > LastLow then Succ(d[..|d| - 1]) + [FirstLow]
    else d[..|d| - 1] + [d[|d| - 1] + 1]
  }

  function Text(d: seq<int>): string
    requires Letters(d)
  {
    seq(|d|, i requires 0 <= i < |d| => d[i] as char)
  }

  /** The k-th display name. */
  function Spell(k: nat): string
  {
    Text(Digits(k))
  }

  lemma DivMod26(x: nat, a: nat, b: nat)
    requires x == 26 * a + b && b < 26
    ensures x / 26 == a && x % 26 == b
  {
  }

  lemma SuccSnoc(p: seq<int>, x: int)
    ensures Succ(p + [x]) == if x + 1 > LastLow then Succ(p) + [FirstLow] else p + [x + 1]
  {
    assert (p + [x])[..|p|] == p;
  }

/** The code at `i` passes 'z': it becomes 'a' and the carry moves to the codes before it. */
  lemma CarryAt(p: seq<int>, i: nat)
    requires i < |p| && p[i] + 1 > LastLow
    ensures p[i := FirstLow][..i] == p[..i] && p[i := FirstLow][i..] == [FirstLow] + p[i + 1..]
    ensures Succ(p[..i + 1]) + p[i + 1..] == Succ(p[..i]) + p[i := FirstLow][i..]
  {
    assert p[..i + 1] == p[..i] + [p[i]];
    SuccSnoc(p[..i], p[i]);
  }

  /** The code at `i` stays within 'z': bumping it ends the carry. */
  lemma BumpAt(p: seq<int>, i: nat)
    requires i < |p| && p[i] + 1 <= LastLow
    ensures Succ(p[..i + 1]) + p[i + 1..] == p[i := p[i] + 1]
  {
    assert p[..i + 1] == p[..i] + [p[i]];
    SuccSnoc(p[..i], p[i]);
  }

  /** A run of 'a' codes with one more 'a' in front is that run with one more 'a' at the end. */
  lemma RollOver(s: seq<int>)
    requires forall k :: 0 <= k < |s| ==> s[k] == FirstLow
    ensures [FirstLow] + s == s + [FirstLow]
  {
  }

    lemma DigitsSnoc(k: nat)
    requires k >= 26
    ensures Digits(k) == Digits(k / 26 - 1) + [FirstLow + k % 26]
  {
  }

  lemma SuccSingle(k: nat)
    requires k < 26
    ensures Succ(Digits(k)) == Digits(k + 1)
  {
    assert Digits(k) == [FirstLow + k];
    assert [] + [FirstLow + k] == [FirstLow + k];
    if k < 25 {
      SuccSnoc([], FirstLow + k);
      assert Digits(k + 1) == [FirstLow + k + 1];
    } else {
      SuccSnoc([], LastLow);
      assert Succ(Digits(k)) == [FirstLow, FirstLow];
      DivMod26(26, 1, 0);
      DigitsSnoc(26);
      assert Digits(26) == Digits(0) + [FirstLow];
    }
  }

  /** The last code passes 'z': it rolls over and carries into the rest. */
  lemma SuccCarry(k: nat, q: nat)
    requires k >= 26 && k % 26 == 25 && q == k / 26 - 1
    requires Succ(Digits(q)) == Digits(q + 1)
    ensures Succ(Digits(k)) == Digits(k + 1)
  {
    assert k == 26 * (q + 1) + 25;
    DivMod26(k + 1, q + 2, 0);
    DigitsSnoc(k);
    assert Digits(k) == Digits(q) + [LastLow];
    DigitsSnoc(k + 1);
    assert Digits(k + 1) == Digits(q + 1) + [FirstLow];
    SuccSnoc(Digits(q), LastLow);
  }

  lemma SuccNoCarry(k: nat)
    requires k >= 26 && k % 26 < 25
    ensures Succ(Digits(k)) == Digits(k + 1)
  {
    var q, m := k / 26 - 1, k % 26;
    DigitsSnoc(k);
    DigitsSnoc(k + 1);
    SuccSnoc(Digits(q), FirstLow + m);
    DivMod26(k + 1, q + 1, m + 1);
  }

  /** One step of the carry loop moves from the k-th name to the next one. */
  lemma {:induction false} SuccDigits(k: nat)
    ensures Succ(Digits(k)) == Digits(k + 1)
  {
    if k < 26 {
      SuccSingle(k);
    } else if k % 26 == 25 {
      SuccDigits(k / 26 - 1);
      SuccCarry(k, k / 26 - 1);
    } else {
      SuccNoCarry(k);
    }
  }

  /** Different counters give different code sequences. */
  lemma {:induction false} DigitsInjective(j: nat, k: nat)
    requires Digits(j) == Digits(k)
    ensures j == k
  {
    var dj, dk := Digits(j), Digits(k);
    if j >= 26 && k >= 26 {
      var qj, qk := j / 26 - 1, k / 26 - 1;
      assert dj == Digits(qj) + [FirstLow + j % 26];
      assert dk == Digits(qk) + [FirstLow + k % 26];
      assert dj[..|dj| - 1] == Digits(qj);
      assert dk[..|dk| - 1] == Digits(qk);
      DigitsInjective(qj, qk);
      assert dj[|dj| - 1] == dk[|dk| - 1];
    } else if j < 26 && k < 26 {
      assert dj[0] == dk[0];
    }
  }

  lemma TextInjective(d: seq<int>, e: seq<int>)
    requires Letters(d) && Letters(e) && Text(d) == Text(e)
    ensures d == e
  {
    assert |d| == |Text(d)|;
    forall i | 0 <= i < |d| ensures d[i] == e[i] {
      assert Text(d)[i] == Text(e)[i];
    }
  }

  /** The counter never hands out the same name twice between two resets. */
  lemma SpellInjective(j: nat, k: nat)
    requires j != k
    ensures Spell(j) != Spell(k)
  {
    if Spell(j) == Spell(k) {
      TextInjective(Digits(j), Digits(k));
      DigitsInjective(j, k);
    }
  }

  lemma SpellExamples()
    ensures Spell(0) == "a" && Spell(1) == "b" && Spell(25) == "z"
    ensures Spell(26) == "aa" && Spell(27) == "ab" && Spell(701) == "zz" && Spell(702) == "aaa"
  {
    assert Digits(26) == [97, 97];
    assert Digits(27) == [97, 98];
    assert Digits(701) == [122, 122];
    assert Digits(702) == Digits(26) + [97];
  }
}
