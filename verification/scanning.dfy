/** Searching, cutting, splitting and trimming text. */
module Scanning {
  import opened Basics

  predicate At(s: string, i: nat, token: string) {
    i + |token| <= |s| && s[i..i + |token|] == token
  }

  predicate Within(s: string, token: string) {
    exists i :: 0 <= i <= |s| && At(s, i, token)
  }

  /** The first occurrence at or after i. */
  function IndexFrom(s: string, token: string, i: nat): (r: Option<nat>)
    requires i <= |s|
    ensures r.Some? ==> i <= r.value && At(s, r.value, token) && forall j :: i <= j < r.value ==> !At(s, j, token)
    ensures r.None? ==> forall j :: i <= j ==> !At(s, j, token)
    decreases |s| - i
  {
    if At(s, i, token) then Some(i)
    else if i == |s| then None
    else IndexFrom(s, token, i + 1)
  }

  datatype Parts = Parts(before: string, after: string)

  /** What comes before and after the first occurrence. */
  function Cut(s: string, token: string): (r: Option<Parts>)
    ensures r.Some? ==> s == r.value.before + token + r.value.after
    ensures r.None? <==> !Within(s, token)
  {
    var i := IndexFrom(s, token, 0);
    if i.None? then None else Some(Parts(s[..i.value], s[i.value + |token|..]))
  }

  /** Nothing of before + token reads as an earlier occurrence, whatever comes next. */
  ghost predicate FirstAt(before: string, token: string) {
    forall j :: 0 <= j < |before| ==> !At(before + token, j, token)
  }

  /** Whether a token occurs at j is a matter of the characters up to its end. */
  lemma AtIsLocal(s: string, more: string, j: nat, token: string)
    requires j + |token| <= |s|
    ensures At(s + more, j, token) <==> At(s, j, token)
  {
    assert (s + more)[j..j + |token|] == s[j..j + |token|];
  }

  lemma CutIsFirst(before: string, token: string, after: string)
    requires token != [] && FirstAt(before, token)
    ensures Cut(before + token + after, token) == Some(Parts(before, after))
  {
    var s := before + token + after;
    assert At(s, |before|, token);
    forall j: nat | j < |before| ensures !At(s, j, token) {
      AtIsLocal(before + token, after, j, token);
    }
    var i := IndexFrom(s, token, 0);
    assert s[..|before|] == before && s[|before| + |token|..] == after;
  }

  lemma CutGivesFirst(s: string, token: string)
    requires token != [] && Cut(s, token).Some?
    ensures FirstAt(Cut(s, token).value.before, token)
  {
    var cut := Cut(s, token).value;
    forall j: nat | j < |cut.before| ensures !At(cut.before + token, j, token) {
      AtIsLocal(cut.before + token, cut.after, j, token);
    }
  }

  lemma Mismatch(s: string, j: nat, token: string, k: nat)
    requires k < |token| && (j + k < |s| ==> s[j + k] != token[k])
    ensures !At(s, j, token)
  {
    assert j + |token| <= |s| ==> s[j..j + |token|][k] == s[j + k];
  }

  /** Two texts without the token do not make one where they meet, if a character there is foreign to it. */
  lemma JoinedWithout(a: string, b: string, token: string)
    requires token != [] && !Within(a, token) && !Within(b, token)
    requires a == [] || b == [] || a[|a| - 1] !in token || b[0] !in token
    ensures !Within(a + b, token)
  {
    var s := a + b;
    forall j | 0 <= j <= |s| ensures !At(s, j, token) {
      if j + |token| <= |a| {
        AtIsLocal(a, b, j, token);
      } else if |a| <= j {
        assert j + |token| <= |s| ==> s[j..j + |token|] == b[j - |a|..j - |a| + |token|];
        assert !At(b, j - |a|, token);
      } else if b != [] {
        if a[|a| - 1] !in token { Mismatch(s, j, token, |a| - 1 - j); } else { Mismatch(s, j, token, |a| - j); }
      }
    }
  }

  lemma ForeignWithout(s: string, token: string)
    requires token != [] && forall i :: 0 <= i < |s| ==> s[i] !in token
    ensures !Within(s, token)
  {
    forall j | 0 <= j <= |s| ensures !At(s, j, token) { Mismatch(s, j, token, 0); }
  }

  /** A text without the token that ends in a foreign character leaves the token's first place behind it. */
  lemma FirstBehind(s: string, token: string)
    requires token != [] && !Within(s, token) && (s == [] || s[|s| - 1] !in token)
    ensures FirstAt(s, token)
  {
    forall j: nat | j < |s| ensures !At(s + token, j, token) {
      if j + |token| <= |s| { AtIsLocal(s, token, j, token); } else { Mismatch(s + token, j, token, |s| - 1 - j); }
    }
  }

  // ------------------------------------------------------------------------- space

  predicate IsSpace(c: char) {
    c == ' ' || '\t' <= c <= '\r' || c as int in {0x85, 0xa0, 0x1680, 0x2028, 0x2029, 0x202f, 0x205f, 0x3000}
    || 0x2000 <= c as int <= 0x200a
  }

  function TrimLeft(s: string): string {
    if s != [] && IsSpace(s[0]) then TrimLeft(s[1..]) else s
  }

  function TrimRight(s: string): string {
    if s != [] && IsSpace(s[|s| - 1]) then TrimRight(s[..|s| - 1]) else s
  }

  function Trim(s: string): string {
    TrimRight(TrimLeft(s))
  }

  predicate Trimmed(s: string) {
    s == [] || (!IsSpace(s[0]) && !IsSpace(s[|s| - 1]))
  }

  lemma TrimmedStays(s: string)
    requires Trimmed(s)
    ensures Trim(s) == s
  {
  }

  lemma {:induction false} TrimRightKeeps(s: string, k: nat)
    requires k < |s| && !IsSpace(s[k])
    ensures |TrimRight(s)| > k && TrimRight(s) <= s
  {
    if IsSpace(s[|s| - 1]) { TrimRightKeeps(s[..|s| - 1], k); }
  }

  lemma {:induction false} TrimRightJoins(a: string, b: string)
    requires a != [] && !IsSpace(a[|a| - 1])
    ensures TrimRight(a + b) == a + TrimRight(b)
    decreases |b|
  {
    if b == [] {
      assert a + b == a;
    } else if IsSpace(b[|b| - 1]) {
      assert (a + b)[..|a + b| - 1] == a + b[..|b| - 1];
      TrimRightJoins(a, b[..|b| - 1]);
    }
  }

  lemma {:induction false} TrimRightOfSpace(c: char, t: string)
    requires IsSpace(c)
    ensures TrimRight([c] + t) == if TrimRight(t) == [] then [] else [c] + TrimRight(t)
    decreases |t|
  {
    var s := [c] + t;
    if t == [] {
      assert s[..0] == [];
    } else if IsSpace(t[|t| - 1]) {
      assert s[..|s| - 1] == [c] + t[..|t| - 1];
      TrimRightOfSpace(c, t[..|t| - 1]);
    }
  }

  /** It does not matter which end is trimmed first. */
  lemma {:induction false} TrimsCommute(s: string)
    ensures TrimLeft(TrimRight(s)) == TrimRight(TrimLeft(s))
  {
    if s != [] && IsSpace(s[0]) {
      TrimsCommute(s[1..]);
      assert s == [s[0]] + s[1..];
      TrimRightOfSpace(s[0], s[1..]);
      if TrimRight(s[1..]) != [] { assert TrimRight(s)[1..] == TrimRight(s[1..]); }
    } else if s != [] {
      TrimRightKeeps(s, 0);
    }
  }

  lemma {:induction false} TrimRightTwice(s: string)
    ensures TrimRight(TrimRight(s)) == TrimRight(s) && TrimRight(s) <= s
    ensures TrimRight(s) != [] ==> !IsSpace(TrimRight(s)[|TrimRight(s)| - 1])
  {
    if s != [] && IsSpace(s[|s| - 1]) { TrimRightTwice(s[..|s| - 1]); }
  }

  lemma {:induction false} TrimLeftTwice(s: string)
    ensures TrimLeft(TrimLeft(s)) == TrimLeft(s) && (TrimLeft(s) != [] ==> !IsSpace(TrimLeft(s)[0]))
    ensures |TrimLeft(s)| <= |s| && TrimLeft(s) == s[|s| - |TrimLeft(s)|..]
  {
    if s != [] && IsSpace(s[0]) { TrimLeftTwice(s[1..]); }
  }

  /**
   * White space around a text makes no difference to what trimming leaves, and that is trimmed, and inside the text.
   */
  lemma TrimLeaves(s: string)
    ensures Trimmed(Trim(s)) && Trim(TrimRight(" " + s)) == Trim(s)
    ensures Within(s, Trim(s))
  {
    var left, t := TrimLeft(s), " " + s;
    TrimLeftTwice(s);
    TrimRightTwice(left);
    assert t[1..] == s && TrimLeft(t) == left;
    TrimsCommute(t);
    var i := |s| - |left|;
    assert At(s, i, Trim(s));
  }

  // ----------------------------------------------------------------------- masking

  const MARK: char := 0xFFFD as char

  /** r is s with some characters replaced by the replacement character. */
  predicate Masks(r: string, s: string) {
    |r| == |s| && forall i :: 0 <= i < |s| ==> r[i] == s[i] || r[i] == MARK
  }

  lemma MasksTwice(a: string, b: string, c: string)
    requires Masks(a, b) && Masks(b, c)
    ensures Masks(a, c)
  {
  }

  /** Masking brings in no token. */
  lemma MaskAddsNothing(r: string, s: string, token: string)
    requires Masks(r, s) && MARK !in token && !Within(s, token)
    ensures !Within(r, token)
  {
    forall j | 0 <= j <= |r| ensures !At(r, j, token) {
      if At(r, j, token) { MaskHidesOnly(r, s, j, token); }
    }
  }

  lemma MaskHidesOnly(r: string, s: string, j: nat, token: string)
    requires Masks(r, s) && MARK !in token && At(r, j, token)
    ensures At(s, j, token)
  {
    forall k | 0 <= k < |token| ensures s[j + k] == token[k] {
      assert r[j..j + |token|][k] == r[j + k];
    }
    assert s[j..j + |token|] == token;
  }

  // ------------------------------------------------------------------------- lines

  function Lines(s: string): (r: seq<string>)
    ensures r != []
    decreases |s|
  {
    var cut := Cut(s, "\n");
    if cut.None? then [s] else [cut.value.before] + Lines(cut.value.after)
  }

  lemma LineFirst(line: string, rest: string)
    requires '\n' !in line
    ensures Lines(line + "\n" + rest) == [line] + Lines(rest)
  {
    forall j: nat | j < |line| ensures !At(line + "\n", j, "\n") {
      assert (line + "\n")[j..j + 1] == [line[j]];
    }
    CutIsFirst(line, "\n", rest);
  }
}
