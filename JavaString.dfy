/**
  The java.lang.String operations the accessors and the prefixed holder use:
  `trim`, `toLowerCase`, `indexOf`, the two `substring` overloads, and the
  decimal rendering of an int inside a string concatenation.
 */
module JavaString {
  import opened Java

  /** `String.trim` treats every char up to U+0020 as white space. */
  predicate IsTrimmed(c: char) {
    c <= ' '
  }

  function TrimLeading(s: string): (r: string)
    ensures |r| <= |s| && r == s[|s| - |r|..]
    ensures |r| > 0 ==> !IsTrimmed(r[0])
    ensures forall i :: 0 <= i < |s| - |r| ==> IsTrimmed(s[i])
  {
    if |s| > 0 && IsTrimmed(s[0]) then TrimLeading(s[1..]) else s
  }

  function TrimTrailing(s: string): (r: string)
    ensures |r| <= |s| && r == s[..|r|]
    ensures |r| > 0 ==> !IsTrimmed(r[|r| - 1])
    ensures forall i :: |r| <= i < |s| ==> IsTrimmed(s[i])
  {
    if |s| > 0 && IsTrimmed(s[|s| - 1]) then TrimTrailing(s[..|s| - 1]) else s
  }

  /** `s.trim()`: neither starts nor ends with white space (what it is a slice of: `TrimIsSlice`). */
  function Trim(s: string): (r: string)
    ensures |r| > 0 ==> !IsTrimmed(r[0]) && !IsTrimmed(r[|r| - 1])
    ensures |r| <= |s|
    ensures (|s| == 0 || (!IsTrimmed(s[0]) && !IsTrimmed(s[|s| - 1]))) ==> r == s
  {
    TrimTrailing(TrimLeading(s))
  }

  /** Every char of `s` is white space to `trim`. */
  predicate AllWhite(s: string) {
    forall k | 0 <= k < |s| :: IsTrimmed(s[k])
  }

  /** `s[..i]` and `s[j..]` are white space. */
  predicate WhiteOutside(s: string, i: nat, j: nat)
    requires i <= j <= |s|
  {
    AllWhite(s[..i]) && AllWhite(s[j..])
  }

  /**
    `trim` removes white space at both ends and nothing else: its result is
    the slice of `s` between a white prefix and a white suffix. With the
    non-white ends of `Trim`'s result this pins the result down.
   */
  lemma TrimIsSlice(s: string)
    ensures exists i: nat, j: nat | i <= j <= |s| :: Trim(s) == s[i..j] && WhiteOutside(s, i, j)
  {
    var t := TrimLeading(s);
    var r := TrimTrailing(t);
    var i := |s| - |t|;
    assert r == s[i..i + |r|];
    assert AllWhite(s[..i]);
    var tail := s[i + |r|..];
    forall k | 0 <= k < |tail| ensures IsTrimmed(tail[k]) {
      assert tail[k] == t[|r| + k];
    }
    assert WhiteOutside(s, i, i + |r|);
  }

  /** White space in front is all `TrimLeading` removes before a non-white char. */
  lemma {:induction false} TrimLeadingPadded(pre: string, s: string)
    requires AllWhite(pre)
    requires |s| == 0 || !IsTrimmed(s[0])
    ensures TrimLeading(pre + s) == s
    decreases |pre|
  {
    if |pre| == 0 {
      assert pre + s == s;
      TrimLeadingNoop(s);
    } else {
      assert (pre + s)[1..] == pre[1..] + s;
      assert IsTrimmed((pre + s)[0]);
      TrimLeadingPadded(pre[1..], s);
    }
  }

  /** White space behind is all `TrimTrailing` removes after a non-white char. */
  lemma {:induction false} TrimTrailingPadded(s: string, post: string)
    requires AllWhite(post)
    requires |s| == 0 || !IsTrimmed(s[|s| - 1])
    ensures TrimTrailing(s + post) == s
    decreases |post|
  {
    if |post| == 0 {
      assert s + post == s;
      TrimTrailingNoop(s);
    } else {
      var last := |post| - 1;
      assert (s + post)[..|s + post| - 1] == s + post[..last];
      assert IsTrimmed((s + post)[|s + post| - 1]);
      TrimTrailingPadded(s, post[..last]);
    }
  }

  /**
    White space around a word that neither starts nor ends with white space
    is exactly what `trim` removes.
   */
  lemma {:induction false} TrimOfPadded(pre: string, s: string, post: string)
    requires |s| > 0 && !IsTrimmed(s[0]) && !IsTrimmed(s[|s| - 1])
    requires AllWhite(pre) && AllWhite(post)
    ensures Trim(pre + s + post) == s
  {
    assert pre + s + post == pre + (s + post);
    TrimLeadingPadded(pre, s + post);
    TrimTrailingPadded(s, post);
  }

  lemma TrimLeadingNoop(s: string)
    requires |s| == 0 || !IsTrimmed(s[0])
    ensures TrimLeading(s) == s
  {
  }

  lemma TrimTrailingNoop(s: string)
    requires |s| == 0 || !IsTrimmed(s[|s| - 1])
    ensures TrimTrailing(s) == s
  {
  }

  /** Trimming twice is trimming once. */
  lemma TrimIdempotent(s: string)
    ensures Trim(Trim(s)) == Trim(s)
  {
    var t := Trim(s);
    TrimLeadingNoop(t);
    TrimTrailingNoop(t);
  }

  function LowerChar(c: char): (d: char)
    ensures 'A' <= c <= 'Z' ==> 'a' <= d <= 'z'
    ensures !('A' <= c <= 'Z') ==> d == c
  {
    if 'A' <= c <= 'Z' then (c as int - 'A' as int + 'a' as int) as char else c
  }

  /** `s.toLowerCase()`, restricted to ASCII letters. */
  function ToLowerCase(s: string): (r: string)
    ensures |r| == |s|
    ensures forall i :: 0 <= i < |s| ==> r[i] == LowerChar(s[i])
    ensures forall i :: 0 <= i < |r| ==> !('A' <= r[i] <= 'Z')
  {
    seq(|s|, i requires 0 <= i < |s| => LowerChar(s[i]))
  }

  /** Lowercasing maps white space to itself and everything else to non-white space. */
  lemma LowerKeepsTrimClass(c: char)
    ensures IsTrimmed(LowerChar(c)) <==> IsTrimmed(c)
  {
  }

  /** So lowercasing a trimmed string leaves it trimmed. */
  lemma LowerKeepsTrimmed(s: string)
    requires |s| > 0 ==> !IsTrimmed(s[0]) && !IsTrimmed(s[|s| - 1])
    ensures |s| > 0 ==> !IsTrimmed(ToLowerCase(s)[0]) && !IsTrimmed(ToLowerCase(s)[|s| - 1])
  {
    if |s| > 0 {
      LowerKeepsTrimClass(s[0]);
      LowerKeepsTrimClass(s[|s| - 1]);
    }
  }

  /** A word of lower-case ASCII letters only. */
  predicate IsLowerWord(s: string) {
    forall i :: 0 <= i < |s| ==> 'a' <= s[i] <= 'z'
  }

  /** Trimming and lowercasing leave a lower-case word as it is. */
  lemma LowerWordIsNormal(s: string)
    requires IsLowerWord(s)
    ensures Trim(s) == s && ToLowerCase(s) == s
  {
    if |s| > 0 {
      assert !IsTrimmed(s[0]) && !IsTrimmed(s[|s| - 1]);
    }
    var lower := ToLowerCase(s);
    assert forall i :: 0 <= i < |s| ==> lower[i] == s[i];
  }

  /** `s.indexOf(c)`: the first position of `c`, or -1. */
  function IndexOf(s: string, c: char): (r: int)
    ensures -1 <= r < |s|
    ensures r == -1 <==> c !in s
    ensures r >= 0 ==> s[r] == c && c !in s[..r]
  {
    if |s| == 0 then -1
    else if s[0] == c then 0
    else
      var k := IndexOf(s[1..], c);
      assert s[1..][..if k < 0 then 0 else k] == s[1..if k < 0 then 1 else k + 1];
      if k < 0 then -1 else k + 1
  }

  /** Searching past a stretch without `c` shifts the found position by its length. */
  lemma {:induction false} IndexOfShift(p: string, s: string, c: char)
    requires c !in p
    ensures IndexOf(p + s, c) == if IndexOf(s, c) < 0 then -1 else |p| + IndexOf(s, c)
    decreases |p|
  {
    if |p| == 0 {
      assert p + s == s;
    } else {
      assert (p + s)[1..] == p[1..] + s;
      IndexOfShift(p[1..], s, c);
    }
  }

  /** `s.substring(begin)`: throws unless 0 <= begin <= length. */
  function SubstringFrom(s: string, begin: int): (r: Outcome<string>)
    ensures r.Returns? <==> 0 <= begin <= |s|
    ensures r.Returns? ==> r.value == s[begin..]
    ensures r.Throws? ==> r.exception == StringIndexOutOfBoundsException
  {
    if begin < 0 || begin > |s| then Throws(StringIndexOutOfBoundsException)
    else Returns(s[begin..])
  }

  /** `s.substring(begin, end)`: throws unless 0 <= begin <= end <= length. */
  function Substring(s: string, begin: int, end: int): (r: Outcome<string>)
    ensures r.Returns? <==> 0 <= begin <= end <= |s|
    ensures r.Returns? ==> r.value == s[begin..end]
    ensures r.Throws? ==> r.exception == StringIndexOutOfBoundsException
  {
    if begin < 0 || end > |s| || begin > end then Throws(StringIndexOutOfBoundsException)
    else Returns(s[begin..end])
  }

  /** Where the two inserted pieces of a five-part concatenation sit. */
  lemma Embedded(a: string, x: string, b: string, y: string, c: string)
    ensures |a + x + b + y + c| == |a| + |x| + |b| + |y| + |c|
    ensures (a + x + b + y + c)[|a|..|a| + |x|] == x
    ensures (a + x + b + y + c)[|a| + |x| + |b|..|a| + |x| + |b| + |y|] == y
  {
    var m := a + x + b + y + c;
    assert m == a + (x + (b + (y + c)));
    assert (x + (b + (y + c)))[..|x|] == x;
    assert (y + c)[..|y|] == y;
  }

  function DigitChar(d: nat): char
    requires d < 10
  {
    "0123456789"[d]
  }

  function NaturalString(n: nat): (r: string)
    ensures |r| > 0
    ensures forall i :: 0 <= i < |r| ==> '0' <= r[i] <= '9'
    decreases n
  {
    if n < 10 then [DigitChar(n)] else NaturalString(n / 10) + [DigitChar(n % 10)]
  }

  /** The decimal text Java produces for an int in a string concatenation. */
  function DecimalString(n: int): (r: string)
    ensures |r| > 0
    ensures n >= 0 <==> r[0] != '-'
  {
    if n < 0 then "-" + NaturalString(-n) else NaturalString(n)
  }
}
