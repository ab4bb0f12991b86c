/**
 * The Amazon States Language intrinsic functions the workflow calls:
 * `States.Format` (fill each `{}` of a template, in order, with the next
 * argument), `States.MathAdd`, and the decimal text a number becomes when it is
 * formatted into a string.
 */
module Intrinsics {
  import opened Wrappers
  import opened Json

  /** The number of `{}` placeholders in a template, scanned left to right. */
  function Holes(t: string): nat
    decreases |t|
  {
    if |t| < 2 then 0
    else if t[0] == '{' && t[1] == '}' then 1 + Holes(t[2..])
    else Holes(t[1..])
  }

  /**
   * `States.Format(t, args...)`: each `{}` of `t`, in order, is replaced by the
   * next argument, inserted verbatim; the arguments themselves are never scanned
   * for placeholders. The call fails unless there are exactly as many arguments
   * as placeholders.
   */
  function Format(t: string, args: seq<string>): Option<string>
    decreases |t|
  {
    if |t| < 2 then (if args == [] then Some(t) else None)
    else if t[0] == '{' && t[1] == '}' then
      if args == [] then None
      else
        (match Format(t[2..], args[1..])
         case None => None
         case Some(rest) => Some(args[0] + rest))
    else
      (match Format(t[1..], args)
       case None => None
       case Some(rest) => Some([t[0]] + rest))
  }

  /** The literal pieces of a template between its placeholders. */
  function Segments(t: string): (r: seq<string>)
    ensures |r| == Holes(t) + 1
    decreases |t|
  {
    if |t| < 2 then [t]
    else if t[0] == '{' && t[1] == '}' then [""] + Segments(t[2..])
    else
      var rest := Segments(t[1..]);
      [[t[0]] + rest[0]] + rest[1..]
  }

  /** Reference reading of a format: segment, argument, segment, ..., segment. */
  function Interleave(segs: seq<string>, args: seq<string>): string
    requires |segs| == |args| + 1
    decreases |args|
  {
    if args == [] then segs[0]
    else segs[0] + args[0] + Interleave(segs[1..], args[1..])
  }

  lemma InterleaveConsChar(c: char, segs: seq<string>, args: seq<string>)
    requires |segs| == |args| + 1
    ensures Interleave([[c] + segs[0]] + segs[1..], args) == [c] + Interleave(segs, args)
  {
    var segs' := [[c] + segs[0]] + segs[1..];
    assert segs'[1..] == segs[1..];
  }

  /**
   * The meaning of `States.Format`: it succeeds exactly when the argument count
   * equals the placeholder count, and then yields the template's literal pieces
   * with the arguments between them, in order and verbatim.
   */
  lemma {:induction false} FormatMeaning(t: string, args: seq<string>)
    ensures Format(t, args).Some? <==> |args| == Holes(t)
    ensures Format(t, args).Some? ==> Format(t, args).value == Interleave(Segments(t), args)
    decreases |t|
  {
    if |t| < 2 {
    } else if t[0] == '{' && t[1] == '}' {
      if args != [] {
        FormatMeaning(t[2..], args[1..]);
        var segs := Segments(t);
        assert segs == [""] + Segments(t[2..]);
        assert segs[1..] == Segments(t[2..]);
      }
    } else {
      FormatMeaning(t[1..], args);
      if Format(t[1..], args).Some? {
        InterleaveConsChar(t[0], Segments(t[1..]), args);
      }
    }
  }

  /** A template piece with no `{` passes through States.Format unchanged. */
  lemma {:induction false} FormatLiteral(lit: string, t: string, args: seq<string>, r: string)
    requires '{' !in lit
    requires Format(t, args) == Some(r)
    ensures Format(lit + t, args) == Some(lit + r)
    decreases |lit|
  {
    if lit == [] {
      assert lit + t == t && lit + r == r;
    } else {
      var rest := lit[1..];
      assert '{' !in rest by {
        forall i | 0 <= i < |rest| ensures rest[i] != '{' {
          assert rest[i] == lit[i + 1];
        }
      }
      FormatLiteral(rest, t, args, r);
      var whole := lit + t;
      assert lit[0] != '{' by { assert lit[0] in lit; }
      if |whole| < 2 {
        assert rest == [] && t == [] && whole == lit && r == [];
        assert lit + r == lit;
      } else {
        assert whole[0] == lit[0] && whole[1..] == rest + t;
        assert lit + r == [lit[0]] + (rest + r);
      }
    }
  }

  /** A template with no `{` at all is its own format, with no arguments. */
  lemma FormatNoHoles(lit: string)
    requires '{' !in lit
    ensures Format(lit, []) == Some(lit)
  {
    assert Format("", []) == Some("");
    FormatLiteral(lit, "", [], "");
    assert lit + "" == lit;
  }

  /** A leading placeholder takes the first argument, verbatim. */
  lemma FormatHole(t: string, a: string, args: seq<string>, r: string)
    requires Format(t, args) == Some(r)
    ensures Format("{}" + t, [a] + args) == Some(a + r)
  {
    var t' := "{}" + t;
    assert t'[2..] == t;
    assert ([a] + args)[1..] == args;
  }

  /** A two-placeholder template `{}lit1{}lit2` takes its arguments in order. */
  lemma FormatTwo(l1: string, l2: string, a: string, b: string)
    requires '{' !in l1 && '{' !in l2
    ensures Format("{}" + (l1 + ("{}" + l2)), [a, b]) == Some(a + (l1 + (b + l2)))
  {
    FormatNoHoles(l2);
    FormatHole(l2, b, [], l2);
    assert [b] + [] == [b];
    FormatLiteral(l1, "{}" + l2, [b], b + l2);
    FormatHole(l1 + ("{}" + l2), a, [b], l1 + (b + l2));
    assert [a] + [b] == [a, b];
  }

  /** A three-placeholder template `{}lit1{}lit2{}` takes its arguments in order. */
  lemma FormatThree(l1: string, l2: string, a: string, b: string, c: string)
    requires '{' !in l1 && '{' !in l2
    ensures Format("{}" + (l1 + ("{}" + (l2 + "{}"))), [a, b, c]) == Some(a + (l1 + (b + (l2 + c))))
  {
    FormatNoHoles([]);
    FormatHole([], c, [], []);
    assert [c] + [] == [c] && c + [] == c && "{}" + [] == "{}";
    FormatLiteral(l2, "{}", [c], c);
    FormatHole(l2 + "{}", b, [c], l2 + c);
    assert [b] + [c] == [b, c];
    FormatLiteral(l1, "{}" + (l2 + "{}"), [b, c], b + (l2 + c));
    FormatHole(l1 + ("{}" + (l2 + "{}")), a, [b, c], l1 + (b + (l2 + c)));
    assert [a] + [b, c] == [a, b, c];
  }

  /** The text of a decimal digit. */
  function DigitChar(d: nat): char
    requires d < 10
  {
    (d + '0' as int) as char
  }

  /** The decimal text of a natural number, most significant digit first. */
  function NatText(n: nat): (r: string)
    ensures |r| > 0
    ensures forall i | 0 <= i < |r| :: '0' <= r[i] <= '9'
    decreases n
  {
    if n < 10 then [DigitChar(n)] else NatText(n / 10) + [DigitChar(n % 10)]
  }

  /** The text a whole JSON number becomes when formatted into a string. */
  function IntText(n: int): string
  {
    if n < 0 then "-" + NatText(-n) else NatText(n)
  }

  /** Reads back a run of decimal digits; None for an empty or non-digit text. */
  function ParseNat(s: string): Option<nat>
    decreases |s|
  {
    if s == [] then None
    else
      var last := s[|s| - 1];
      if !('0' <= last <= '9') then None
      else
        var d := last as int - '0' as int;
        if |s| == 1 then Some(d)
        else
          (match ParseNat(s[..|s| - 1])
           case None => None
           case Some(high) => Some(high * 10 + d))
  }

  /** Reads back an optionally negative decimal integer. */
  function ParseInt(s: string): Option<int>
  {
    if |s| > 0 && s[0] == '-' then
      (match ParseNat(s[1..]) case None => None case Some(n) => Some(-(n as int)))
    else
      (match ParseNat(s) case None => None case Some(n) => Some(n))
  }

  lemma {:induction false} ParseNatText(n: nat)
    ensures ParseNat(NatText(n)) == Some(n)
    decreases n
  {
    if n >= 10 {
      ParseNatText(n / 10);
      var s := NatText(n);
      assert s[..|s| - 1] == NatText(n / 10);
    }
  }

  /** Number text reads back as the same number: nothing is lost when a number is formatted. */
  lemma ParseIntText(n: int)
    ensures ParseInt(IntText(n)) == Some(n)
  {
    var s := IntText(n);
    if n < 0 {
      ParseNatText(-n);
      assert s == "-" + NatText(-n);
      assert |s| > 0 && s[0] == '-' && s[1..] == NatText(-n);
    } else {
      ParseNatText(n);
      assert s == NatText(n) && '0' <= s[0] <= '9';
    }
  }

  /** How a JSON argument of States.Format is turned into text; arrays and objects are refused. */
  function FormatArg(j: Json): Option<string>
  {
    match j
    case Str(s) => Some(s)
    case Num(n) => Some(IntText(n))
    case Bool(b) => Some(if b then "true" else "false")
    case Null => Some("null")
    case _ => None
  }

  /** The integers `States.MathAdd` accepts and returns: the signed 32-bit range. */
  const Int32Min: int := -0x8000_0000
  const Int32Max: int := 0x7fff_ffff

  predicate IsInt32(n: int)
  {
    Int32Min <= n <= Int32Max
  }

  /**
   * `States.MathAdd(a, b)`: defined only on numbers; both operands and the sum
   * must lie in the signed 32-bit range, otherwise the intrinsic fails.
   */
  function MathAdd(a: Json, b: int): Option<int>
  {
    if a.Num? && IsInt32(a.n) && IsInt32(b) && IsInt32(a.n + b) then Some(a.n + b) else None
  }
}
