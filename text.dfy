/**
 * Text assembly as the templates use it: `format!` with positional holes
 * and `join` of a vector of strings.
 */
module Text {
  import opened Chars

  /**
   * `format!(pieces[0] {} pieces[1] {} ... pieces[n])` with `args` filling
   * the `n` holes left to right.
   */
  function Format(pieces: seq<string>, args: seq<string>): string
    requires |pieces| == |args| + 1
    decreases |args|
  {
    if |args| == 0 then pieces[0]
    else pieces[0] + args[0] + Format(pieces[1..], args[1..])
  }

  /** The text of the first `k` pieces, each followed by its argument. */
  function Interleave(pieces: seq<string>, args: seq<string>, k: nat): string
    requires k <= |args| < |pieces|
  {
    if k == 0 then "" else Interleave(pieces, args, k - 1) + pieces[k - 1] + args[k - 1]
  }

  /** `Vec<String>::join(sep)`. */
  function Join(parts: seq<string>, sep: string): string
  {
    if |parts| == 0 then ""
    else if |parts| == 1 then parts[0]
    else parts[0] + sep + Join(parts[1..], sep)
  }

  predicate IsSuffix(s: string, t: string)
  {
    |s| <= |t| && t[|t| - |s|..] == s
  }

  /** Formatting splits after any number of filled holes. */
  lemma {:induction false} FormatSplit(pieces: seq<string>, args: seq<string>, k: nat)
    requires |pieces| == |args| + 1
    requires k <= |args|
    ensures Format(pieces, args) == Interleave(pieces, args, k) + Format(pieces[k..], args[k..])
    decreases k
  {
    if k > 0 {
      FormatSplit(pieces, args, k - 1);
      var p, a := pieces[k - 1..], args[k - 1..];
      assert p[1..] == pieces[k..] && a[1..] == args[k..];
      assert Format(p, a) == pieces[k - 1] + args[k - 1] + Format(pieces[k..], args[k..]);
    }
  }

  lemma Assoc(x: string, y: string, z: string)
    ensures x + (y + z) == x + y + z
  {
  }

  lemma PrefixAfter(u: string, x: string, y: string)
    requires x <= y
    ensures u + x <= u + y
  {
    assert (u + y)[..|u + x|] == u + x;
  }

  /** A formatted text starts with its first piece, its first argument and its second piece. */
  lemma FormatHead(pieces: seq<string>, args: seq<string>)
    requires |pieces| == |args| + 1
    requires 2 <= |args|
    ensures pieces[0] + args[0] + pieces[1] + args[1] + pieces[2] <= Format(pieces, args)
  {
    var p1, a1 := pieces[1..], args[1..];
    var p2, a2 := p1[1..], a1[1..];
    var rest := Format(p2, a2);
    assert pieces[2] <= rest by {
      if |a2| > 0 {
        Assoc(p2[0], a2[0], Format(p2[1..], a2[1..]));
        PrefixAfter([], p2[0], p2[0] + (a2[0] + Format(p2[1..], a2[1..])));
      }
    }
    var u, v := pieces[0] + args[0], pieces[1] + args[1];
    assert Format(p1, a1) == v + rest;
    assert Format(pieces, args) == u + (v + rest);
    PrefixAfter(v, pieces[2], rest);
    PrefixAfter(u, v + pieces[2], v + rest);
    Assoc(u, v, pieces[2]);
    Assoc(u, pieces[1], args[1]);
  }

  /** A formatted text ends with its last argument followed by its last piece. */
  lemma {:induction false} FormatTail(pieces: seq<string>, args: seq<string>)
    requires |pieces| == |args| + 1
    requires 1 <= |args|
    ensures IsSuffix(args[|args| - 1] + pieces[|pieces| - 1], Format(pieces, args))
    decreases |args|
  {
    var tail := args[|args| - 1] + pieces[|pieces| - 1];
    if |args| == 1 {
      assert Format(pieces[1..], args[1..]) == pieces[1];
      assert Format(pieces, args) == pieces[0] + tail;
    } else {
      FormatTail(pieces[1..], args[1..]);
      var t := Format(pieces[1..], args[1..]);
      assert Format(pieces, args) == (pieces[0] + args[0]) + t;
      assert t[|t| - |tail|..] == tail;
      assert ((pieces[0] + args[0]) + t)[|pieces[0] + args[0]| + |t| - |tail|..] == t[|t| - |tail|..];
    }
  }

  lemma {:induction false} ContainsInfix(x: string, n: string, y: string)
    ensures Contains(x + n + y, n)
    decreases |x|
  {
    if |x| == 0 {
      assert x + n + y == n + y;
      assert n <= n + y;
    } else {
      ContainsInfix(x[1..], n, y);
      assert (x + n + y)[1..] == x[1..] + n + y;
    }
  }

  /** A `format!` with three holes, spelled out. */
  lemma FormatThree(pieces: seq<string>, a: string, b: string, c: string)
    requires |pieces| == 4
    ensures Format(pieces, [a, b, c]) == pieces[0] + a + pieces[1] + b + pieces[2] + c + pieces[3]
  {
    var p1, p2, p3 := pieces[1..], pieces[2..], pieces[3..];
    assert p1[1..] == p2 && p2[1..] == p3;
    assert [a, b, c][1..] == [b, c] && [b, c][1..] == [c] && [c][1..] == [];
    assert Format(p3, []) == pieces[3];
    var t2 := pieces[2] + c + pieces[3];
    assert Format(p2, [c]) == t2;
    assert Format(p1, [b, c]) == pieces[1] + b + t2;
    var u := pieces[0] + a;
    assert Format(pieces, [a, b, c]) == u + (pieces[1] + b + t2);
    Assoc(u, pieces[1] + b, t2);
    Assoc(u, pieces[1], b);
    var l := u + pieces[1] + b;
    Assoc(l, pieces[2] + c, pieces[3]);
    Assoc(l, pieces[2], c);
  }

  /** The last hole of a three-hole `format!` with the text around it. */
  lemma FormatThreeLastHole(pieces: seq<string>, a: string, b: string, c: string, p: string, q: string, s: string, t: string)
    requires |pieces| == 4 && pieces[2] == p + q && pieces[3] == s + t
    ensures Contains(Format(pieces, [a, b, c]), q + c + s)
  {
    FormatThree(pieces, a, b, c);
    var x := pieces[0] + a + pieces[1] + b + p;
    Assoc(pieces[0] + a + pieces[1] + b, p, q);
    Assoc(x + q + c, s, t);
    Assoc(x, q + c, s);
    Assoc(x, q, c);
    ContainsInfix(x, q + c + s, t);
  }

  /** Every argument of a `format!` appears in its result. */
  lemma FormatContainsArg(pieces: seq<string>, args: seq<string>, i: nat)
    requires |pieces| == |args| + 1
    requires i < |args|
    ensures Contains(Format(pieces, args), args[i])
  {
    FormatSplit(pieces, args, i);
    var tail := Format(pieces[i + 1..], args[i + 1..]);
    assert Format(pieces[i..], args[i..]) == pieces[i] + args[i] + tail by {
      assert pieces[i..][1..] == pieces[i + 1..] && args[i..][1..] == args[i + 1..];
    }
    var x := Interleave(pieces, args, i);
    Assoc(x, pieces[i] + args[i], tail);
    Assoc(x, pieces[i], args[i]);
    ContainsInfix(x + pieces[i], args[i], tail);
  }
  /** Two holes with no text between them appear side by side, right after the tail `q` of the piece before them. */
  lemma FormatContainsAdjacent(pieces: seq<string>, args: seq<string>, i: nat, q: string)
    requires |pieces| == |args| + 1
    requires i + 1 < |args|
    requires IsSuffix(q, pieces[i]) && pieces[i + 1] == ""
    ensures Contains(Format(pieces, args), q + args[i] + args[i + 1])
  {
    FormatSplit(pieces, args, i);
    var tail := Format(pieces[i + 2..], args[i + 2..]);
    var p := pieces[i][..|pieces[i]| - |q|];
    assert pieces[i] == p + q;
    assert Format(pieces[i + 1..], args[i + 1..]) == args[i + 1] + tail by {
      assert pieces[i + 1..][1..] == pieces[i + 2..] && args[i + 1..][1..] == args[i + 2..];
    }
    assert Format(pieces[i..], args[i..]) == pieces[i] + args[i] + (args[i + 1] + tail) by {
      assert pieces[i..][1..] == pieces[i + 1..] && args[i..][1..] == args[i + 1..];
    }
    var x := Interleave(pieces, args, i);
    var n := q + args[i] + args[i + 1];
    assert Format(pieces, args) == x + p + n + tail by {
      Assoc(p + q + args[i], args[i + 1], tail);
      Assoc(x, p + q + args[i] + args[i + 1], tail);
      Assoc(x, p + q + args[i], args[i + 1]);
      Assoc(x, p + q, args[i]);
      Assoc(x, p, q);
      Assoc(x + p, q, args[i]);
      Assoc(x + p, q + args[i], args[i + 1]);
    }
    ContainsInfix(x + p, n, tail);
  }
}
