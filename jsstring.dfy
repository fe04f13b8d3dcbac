/**
 * The JavaScript string primitives the engine relies on: toLowerCase, trim,
 * slice and split on "||". Strings are seq<char>.
 */
module JsString {

  /** The characters String.prototype.trim removes: ECMAScript's WhiteSpace and LineTerminator. */
  predicate IsJsSpace(c: char)
  {
    c == '\t' || c == '\n' || c == '\U{000B}' || c == '\U{000C}' || c == '\r' || c == ' '
    || c == '\U{00A0}' || c == '\U{1680}' || ('\U{2000}' <= c <= '\U{200A}')
    || c == '\U{2028}' || c == '\U{2029}' || c == '\U{202F}' || c == '\U{205F}'
    || c == '\U{3000}' || c == '\U{FEFF}'
  }

  predicate AllSpace(s: string)
  {
    forall i :: 0 <= i < |s| ==> IsJsSpace(s[i])
  }

  /** toLowerCase on one character: the ASCII capitals are mapped, everything else is kept. */
  function LowerChar(c: char): char
  {
    if 'A' <= c <= 'Z' then (c as int - 'A' as int + 'a' as int) as char else c
  }

  function Lower(s: string): string
  {
    seq(|s|, i requires 0 <= i < |s| => LowerChar(s[i]))
  }

  lemma LowerAt(s: string)
    ensures |Lower(s)| == |s|
    ensures forall i :: 0 <= i < |s| ==> Lower(s)[i] == LowerChar(s[i])
  {
  }

  /** Drops the leading white space: what is dropped is all space, what is left does not start with space. */
  function TrimStart(s: string): string
  {
    if s != [] && IsJsSpace(s[0]) then TrimStart(s[1..]) else s
  }

  lemma {:induction false} TrimStartSpec(s: string)
    ensures |TrimStart(s)| <= |s| && TrimStart(s) == s[|s| - |TrimStart(s)|..]
    ensures AllSpace(s[..|s| - |TrimStart(s)|])
    ensures TrimStart(s) != [] ==> !IsJsSpace(TrimStart(s)[0])
  {
    if s != [] && IsJsSpace(s[0]) {
      TrimStartSpec(s[1..]);
      var r := TrimStart(s[1..]);
      assert s[1..][..|s| - 1 - |r|] == s[1..|s| - |r|];
    }
  }

  /** Drops the trailing white space: what is dropped is all space, what is left does not end with space. */
  function TrimEnd(s: string): string
  {
    if s != [] && IsJsSpace(s[|s| - 1]) then TrimEnd(s[..|s| - 1]) else s
  }

  lemma {:induction false} TrimEndSpec(s: string)
    ensures |TrimEnd(s)| <= |s| && TrimEnd(s) == s[..|TrimEnd(s)|]
    ensures AllSpace(s[|TrimEnd(s)|..])
    ensures TrimEnd(s) != [] ==> !IsJsSpace(TrimEnd(s)[|TrimEnd(s)| - 1])
  {
    if s != [] && IsJsSpace(s[|s| - 1]) {
      var n := |s| - 1;
      TrimEndSpec(s[..n]);
      var r := TrimEnd(s[..n]);
      assert TrimEnd(s) == r;
      assert s[..n][..|r|] == s[..|r|];
      assert s[..n][|r|..] == s[|r|..n];
      assert s[|r|..] == s[|r|..n] + [s[n]];
      forall i | 0 <= i < |s[|r|..]| ensures IsJsSpace(s[|r|..][i]) {
        if i < n - |r| {
          assert s[|r|..][i] == s[|r|..n][i];
        }
      }
    } else {
      assert s[|s|..] == [];
    }
  }

  /** String.prototype.trim. */
  function Trim(s: string): string
  {
    TrimEnd(TrimStart(s))
  }

  lemma {:induction false} TrimStartSkipsSpace(pre: string, x: string)
    requires AllSpace(pre)
    ensures TrimStart(pre + x) == TrimStart(x)
  {
    if pre != [] {
      assert (pre + x)[1..] == pre[1..] + x;
      TrimStartSkipsSpace(pre[1..], x);
    } else {
      assert pre + x == x;
    }
  }

  lemma {:induction false} TrimEndSkipsSpace(x: string, post: string)
    requires AllSpace(post)
    ensures TrimEnd(x + post) == TrimEnd(x)
  {
    if post != [] {
      var n := |post| - 1;
      assert (x + post)[..|x| + n] == x + post[..n];
      TrimEndSkipsSpace(x, post[..n]);
    } else {
      assert x + post == x;
    }
  }

  lemma {:induction false} TrimStartAppend(x: string, y: string)
    ensures TrimStart(x) != [] ==> TrimStart(x + y) == TrimStart(x) + y
    ensures TrimStart(x) == [] ==> TrimStart(x + y) == TrimStart(y)
  {
    if x != [] {
      assert (x + y)[0] == x[0];
      assert (x + y)[1..] == x[1..] + y;
      if IsJsSpace(x[0]) {
        TrimStartAppend(x[1..], y);
      }
    } else {
      assert x + y == y;
    }
  }

  /** Outer white space never reaches the result of trim. */
  lemma {:induction false} TrimIgnoresOuterSpace(pre: string, core: string, post: string)
    requires AllSpace(pre) && AllSpace(post)
    ensures Trim(pre + core + post) == Trim(core)
  {
    assert pre + core + post == pre + (core + post);
    TrimStartSkipsSpace(pre, core + post);
    TrimStartAppend(core, post);
    if TrimStart(core) != [] {
      TrimEndSkipsSpace(TrimStart(core), post);
    } else {
      TrimStartSkipsSpace(post, []);
      assert post + [] == post;
    }
  }

  /** trim splits its input into leading space, the result and trailing space. */
  lemma TrimDecompose(s: string) returns (pre: string, post: string)
    ensures AllSpace(pre) && AllSpace(post)
    ensures s == pre + Trim(s) + post
  {
    var t := TrimStart(s);
    TrimStartSpec(s);
    TrimEndSpec(t);
    pre := s[..|s| - |t|];
    post := t[|Trim(s)|..];
    assert t == Trim(s) + post;
    assert s == pre + t;
  }

  lemma TrimIdempotent(s: string)
    ensures Trim(Trim(s)) == Trim(s)
  {
    var pre, post := TrimDecompose(s);
    TrimIgnoresOuterSpace(pre, Trim(s), post);
  }

  lemma LowerKeepsSpace(c: char)
    ensures IsJsSpace(LowerChar(c)) == IsJsSpace(c)
  {
  }

  lemma {:induction false} LowerTrimStart(s: string)
    ensures Lower(TrimStart(s)) == TrimStart(Lower(s))
  {
    if s != [] {
      LowerKeepsSpace(s[0]);
      assert Lower(s)[0] == LowerChar(s[0]);
      assert Lower(s)[1..] == Lower(s[1..]);
      LowerTrimStart(s[1..]);
    } else {
      assert Lower(s) == [];
    }
  }

  lemma {:induction false} LowerTrimEnd(s: string)
    ensures Lower(TrimEnd(s)) == TrimEnd(Lower(s))
  {
    if s != [] {
      var n := |s| - 1;
      LowerKeepsSpace(s[n]);
      LowerAt(s);
      LowerAt(s[..n]);
      assert Lower(s)[..n] == Lower(s[..n]);
      LowerTrimEnd(s[..n]);
    }
  }

  /** toLowerCase and trim commute, so lower(trim(s)) is the same as trim(lower(s)). */
  lemma LowerTrimCommute(s: string)
    ensures Lower(Trim(s)) == Trim(Lower(s))
  {
    LowerTrimStart(s);
    LowerTrimEnd(TrimStart(s));
  }

  lemma LowerAppend(a: string, b: string)
    ensures Lower(a + b) == Lower(a) + Lower(b)
  {
    LowerAt(a + b);
    LowerAt(a);
    LowerAt(b);
    assert Lower(a + b) == Lower(a) + Lower(b);
  }

  lemma LowerAllSpace(s: string)
    requires AllSpace(s)
    ensures AllSpace(Lower(s))
  {
    LowerAt(s);
    forall i | 0 <= i < |s| ensures IsJsSpace(Lower(s)[i]) {
      LowerKeepsSpace(s[i]);
    }
  }

  /** The index String.prototype.slice uses for a start or end argument `i` on a string of length `n`. */
  function ClampIndex(i: int, n: nat): (r: nat)
    ensures r <= n
  {
    if i < 0 then (if n + i < 0 then 0 else n + i) else if i > n then n else i
  }

  /** String.prototype.slice(a, b): negative indices count from the end, empty when the start passes the end. */
  function Slice(s: string, a: int, b: int): (r: string)
    ensures |r| <= |s|
  {
    var from, to := ClampIndex(a, |s|), ClampIndex(b, |s|);
    if from < to then s[from..to] else []
  }

  lemma SliceInBounds(s: string, a: int, b: int)
    requires 0 <= a <= b <= |s|
    ensures Slice(s, a, b) == s[a..b]
  {
  }

  /** The first field of s.split("||"): everything before the first "||". */
  function UntilSep(s: string): (r: string)
    ensures |r| <= |s| && r == s[..|r|]
  {
    if |s| < 2 then s
    else if s[0] == '|' && s[1] == '|' then []
    else [s[0]] + UntilSep(s[1..])
  }

  /** Everything after the first "||", or "" when there is none. */
  function AfterSep(s: string): string
  {
    if |s| < 2 then []
    else if s[0] == '|' && s[1] == '|' then s[2..]
    else AfterSep(s[1..])
  }

  lemma {:induction false} SplitJoined(x: string, y: string)
    requires '|' !in x
    ensures UntilSep(x + "||" + y) == x
    ensures AfterSep(x + "||" + y) == y
  {
    if x != [] {
      assert (x + "||" + y)[1..] == x[1..] + "||" + y;
      SplitJoined(x[1..], y);
    } else {
      assert x + "||" + y == "||" + y;
    }
  }

  lemma {:induction false} UntilSepNoBar(x: string)
    requires '|' !in x
    ensures UntilSep(x) == x
  {
    if |x| >= 2 {
      UntilSepNoBar(x[1..]);
    }
  }
}
