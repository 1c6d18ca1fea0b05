/** The string helpers of Go's standard library that the models share. */
module Text {
  function IndexOf(s: string, c: char): (r: int)
    ensures -1 <= r < |s|
    ensures r == -1 <==> c !in s
    ensures r >= 0 ==> s[r] == c && forall i :: 0 <= i < r ==> s[i] != c
  {
    if s == [] then -1
    else if s[0] == c then 0
    else
      var r := IndexOf(s[1..], c);
      if r < 0 then -1 else r + 1
  }

  /** unicode.IsSpace. */
  predicate IsSpace(c: char) {
    var n := c as int;
    || 9 <= n <= 13 || n == 0x20 || n == 0x85 || n == 0xA0 || n == 0x1680 || 0x2000 <= n <= 0x200A
    || n == 0x2028 || n == 0x2029 || n == 0x202F || n == 0x205F || n == 0x3000
  }

  function TrimLeft(s: string): string { if s != [] && IsSpace(s[0]) then TrimLeft(s[1..]) else s }

  function TrimRight(s: string): string {
    if s != [] && IsSpace(s[|s| - 1]) then TrimRight(s[..|s| - 1]) else s
  }

  function Trim(s: string): string { TrimRight(TrimLeft(s)) }

  lemma {:induction false} TrimLeftConcat(a: string, b: string)
    requires b != [] && !IsSpace(b[0])
    ensures TrimLeft(a + b) == TrimLeft(a) + b
  {
    if a == [] {
      assert a + b == b;
    } else if IsSpace(a[0]) {
      TrimLeftConcat(a[1..], b);
      assert (a + b)[1..] == a[1..] + b;
    } else {
      assert (a + b)[0] == a[0];
    }
  }

  lemma {:induction false} TrimRightConcat(a: string, b: string)
    requires a != [] && !IsSpace(a[|a| - 1])
    ensures TrimRight(a + b) == a + TrimRight(b)
  {
    if b == [] {
      assert a + b == a;
    } else if IsSpace(b[|b| - 1]) {
      TrimRightConcat(a, b[..|b| - 1]);
      assert (a + b)[..|a + b| - 1] == a + b[..|b| - 1];
    } else {
      assert (a + b)[|a + b| - 1] == b[|b| - 1];
    }
  }

  lemma {:induction false} TrimLeftShape(s: string)
    ensures exists k :: 0 <= k <= |s| && TrimLeft(s) == s[k..]
    ensures TrimLeft(TrimLeft(s)) == TrimLeft(s)
  {
    if s != [] && IsSpace(s[0]) {
      TrimLeftShape(s[1..]);
      var k :| 0 <= k <= |s[1..]| && TrimLeft(s[1..]) == s[1..][k..];
      assert TrimLeft(s) == s[k + 1..];
    } else {
      assert TrimLeft(s) == s[0..];
    }
  }

  predicate AllSpace(s: string) { forall i :: 0 <= i < |s| ==> IsSpace(s[i]) }

  lemma {:induction false} TrimLeftMeans(s: string)
    ensures var t := TrimLeft(s);
            && |t| <= |s| && t == s[|s| - |t|..] && AllSpace(s[..|s| - |t|]) && (t != [] ==> !IsSpace(t[0]))
  {
    hide IsSpace;
    if s != [] && IsSpace(s[0]) {
      TrimLeftMeans(s[1..]);
      var k := |s| - |TrimLeft(s)|;
      assert s[..k] == [s[0]] + s[1..][..k - 1] && s[k..] == s[1..][k - 1..];
    }
  }

  lemma {:induction false} TrimRightMeans(s: string)
    ensures var t := TrimRight(s);
            && |t| <= |s| && t == s[..|t|] && AllSpace(s[|t|..]) && (t != [] ==> !IsSpace(t[|t| - 1]))
  {
    hide IsSpace;
    if s != [] && IsSpace(s[|s| - 1]) {
      var front := s[..|s| - 1];
      TrimRightMeans(front);
      var k := |TrimRight(s)|;
      assert s[k..] == front[k..] + [s[|s| - 1]] && s[..k] == front[..k];
    }
  }

  /** Position i is where the text trimmed begins and j where it ends. */
  ghost predicate TrimsTo(s: string, i: nat, j: nat) {
    && i <= j <= |s| && AllSpace(s[..i]) && AllSpace(s[j..])
    && (i < j ==> !IsSpace(s[i]) && !IsSpace(s[j - 1]))
  }

  /** Trimming takes away the space on both sides, all of it and nothing else. */
  lemma TrimMeans(s: string)
    ensures exists i: nat, j: nat :: TrimsTo(s, i, j) && Trim(s) == s[i..j]
  {
    hide IsSpace, TrimLeft, TrimRight;
    TrimLeftMeans(s);
    var t := TrimLeft(s);
    TrimRightMeans(t);
    var r := TrimRight(t);
    var i := |s| - |t|;
    assert s[i..i + |r|] == r && s[i + |r|..] == t[|r|..];
    assert TrimsTo(s, i, i + |r|);
  }

  lemma Outside(s: string, i: nat, j: nat)
    requires TrimsTo(s, i, j)
    ensures forall m :: 0 <= m < |s| && (m < i || j <= m) ==> IsSpace(s[m])
  {
    hide IsSpace;
    forall m | 0 <= m < |s| && (m < i || j <= m) ensures IsSpace(s[m]) {
      assert s[m] == if m < i then s[..i][m] else s[j..][m - j];
    }
  }

  lemma TrimsOnlyTo(s: string, i: nat, j: nat)
    requires TrimsTo(s, i, j) && i < j
    ensures Trim(s) == s[i..j]
  {
    hide IsSpace, TrimLeft, TrimRight;
    TrimMeans(s);
    var k: nat, l: nat :| TrimsTo(s, k, l) && Trim(s) == s[k..l];
    Outside(s, i, j);
    Outside(s, k, l);
  }

  /** A text trims to nothing exactly when it is all space. */
  lemma {:induction false} BlankIff(s: string)
    ensures Trim(s) == [] <==> forall i :: 0 <= i < |s| ==> IsSpace(s[i])
  {
    hide IsSpace;
    if s != [] && IsSpace(s[0]) {
      BlankIff(s[1..]);
      assert s == [s[0]] + s[1..];
      assert forall i :: 1 <= i < |s| ==> s[i] == s[1..][i - 1];
    } else if s != [] {
      TrimRightConcat([s[0]], s[1..]);
      assert s == [s[0]] + s[1..];
    }
  }

  /** Trimming loses no character but space. */
  lemma {:induction false} TrimLeftHas(s: string, c: char)
    requires c in s && !IsSpace(c)
    ensures c in TrimLeft(s)
  {
    if IsSpace(s[0]) {
      assert s == [s[0]] + s[1..];
      TrimLeftHas(s[1..], c);
    }
  }

  lemma {:induction false} TrimRightHas(s: string, c: char)
    requires c in s && !IsSpace(c)
    ensures c in TrimRight(s)
  {
    if IsSpace(s[|s| - 1]) {
      assert s == s[..|s| - 1] + [s[|s| - 1]];
      TrimRightHas(s[..|s| - 1], c);
    }
  }
}
