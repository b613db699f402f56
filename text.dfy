/** String and optional-value helpers shared by every module of the model.

    Python's `str.lower`, `str.isalnum` and `str.isspace` are Unicode-aware;
    here they are their ASCII restrictions: a non-ASCII character is never
    whitespace, never alphanumeric and is left unchanged by lowering. */
module Text {

  /** `None` stands for Python's `None` or for an absent dictionary key. */
  datatype Option<T> = None | Some(value: T) {
    function GetOr(default: T): (r: T)
      ensures Some? ==> r == value
      ensures None? ==> r == default
    {
      match this
      case Some(v) => v
      case None => default
    }
  }

  function Min(a: int, b: int): int { if a <= b then a else b }

  // ---------------------------------------------------------------- chars

  /** The ASCII characters for which Python's `str.isspace` holds. */
  predicate IsSpace(c: char) {
    c == ' ' || ('\t' <= c <= '\r') || ('\U{1c}' <= c <= '\U{1f}')
  }

  predicate IsUpper(c: char) { 'A' <= c <= 'Z' }

  predicate IsAlnum(c: char) {
    ('a' <= c <= 'z') || ('A' <= c <= 'Z') || ('0' <= c <= '9')
  }

  function LowerChar(c: char): (r: char)
    ensures !IsUpper(r)
    ensures !IsUpper(c) ==> r == c
  {
    if IsUpper(c) then (c as int + 32) as char else c
  }

  function Lower(s: string): (r: string)
    ensures |r| == |s|
    ensures forall i :: 0 <= i < |s| ==> r[i] == LowerChar(s[i])
  {
    seq(|s|, i requires 0 <= i < |s| => LowerChar(s[i]))
  }

  function UpperChar(c: char): (r: char)
    ensures !('a' <= r <= 'z')
    ensures !('a' <= c <= 'z') ==> r == c
  {
    if 'a' <= c <= 'z' then (c as int - 32) as char else c
  }

  /** Python's `str.upper` on ASCII letters. */
  function Upper(s: string): (r: string)
    ensures |r| == |s|
    ensures forall i :: 0 <= i < |s| ==> r[i] == UpperChar(s[i])
  {
    seq(|s|, i requires 0 <= i < |s| => UpperChar(s[i]))
  }

  // ------------------------------------------------------------- slicing

  /** Python's `s[:n]` for a non-negative `n`. */
  function Take<T>(s: seq<T>, n: nat): (r: seq<T>)
    ensures |r| == Min(n, |s|)
    ensures r <= s
  {
    if |s| <= n then s else s[..n]
  }

  /** Python's `s[-n:]` for a positive `n`: the last `n` elements. */
  function LastN<T>(s: seq<T>, n: nat): (r: seq<T>)
    requires n > 0
    ensures |r| == Min(n, |s|)
    ensures forall i :: 0 <= i < |r| ==> r[i] == s[|s| - |r| + i]
  {
    if |s| <= n then s else s[|s| - n..]
  }

  // ---------------------------------------------------------- stripping

  function LStrip(s: string): (r: string)
    ensures |r| <= |s| && r == s[|s| - |r|..]
    ensures r == [] || !IsSpace(r[0])
    ensures forall i :: 0 <= i < |s| - |r| ==> IsSpace(s[i])
  {
    if |s| > 0 && IsSpace(s[0]) then LStrip(s[1..]) else s
  }

  function RStrip(s: string): (r: string)
    ensures |r| <= |s| && r == s[..|r|]
    ensures r == [] || !IsSpace(r[|r| - 1])
    ensures forall i :: |r| <= i < |s| ==> IsSpace(s[i])
  {
    if |s| > 0 && IsSpace(s[|s| - 1]) then RStrip(s[..|s| - 1]) else s
  }

  /** Python's `str.strip()` with no argument. */
  function Strip(s: string): string { RStrip(LStrip(s)) }

  /** A prefix one element longer is the prefix and that element. */
  lemma TakeOneMore<T>(s: seq<T>, i: nat)
    requires i < |s|
    ensures s[..i + 1] == s[..i] + [s[i]]
  {
  }

  /** One step of a loop that rewrites a sequence front to back: position
      `i` of "the first `i` elements of `done`, then the rest of `rest`"
      still holds `rest[i]`, and setting it to `done[i]` moves the boundary
      by one. */
  lemma PrefixStep<T>(done: seq<T>, rest: seq<T>, i: nat)
    requires |done| == |rest| && i < |done|
    ensures (done[..i] + rest[i..])[i] == rest[i]
    ensures (done[..i] + rest[i..])[i := done[i]] == done[..i + 1] + rest[i + 1..]
  {
  }

  /** At the end of such a loop the whole of `done` has been written. */
  lemma PrefixDone<T>(done: seq<T>, rest: seq<T>)
    requires |done| == |rest|
    ensures done[..|done|] + rest[|done|..] == done
  {
  }

  /** A non-empty sequence is its front followed by its last element. */
  lemma InitLast<T>(s: seq<T>)
    requires s != []
    ensures s == s[..|s| - 1] + [s[|s| - 1]]
  {
  }

  /** Appending one element keeps the old ones at their positions. */
  lemma AppendIndex<T>(s: seq<T>, x: T)
    ensures |s + [x]| == |s| + 1 && (s + [x])[|s|] == x
    ensures forall k :: 0 <= k < |s| ==> (s + [x])[k] == s[k]
  {
  }

  lemma ConcatAssoc<T>(a: seq<T>, b: seq<T>, c: seq<T>)
    ensures a + (b + c) == (a + b) + c
  {
  }

  lemma SliceMiddle<T>(a: seq<T>, b: seq<T>, c: seq<T>)
    ensures (a + b + c)[|a|..|a| + |b|] == b
  {
  }

  lemma DropFromConcat<T>(a: seq<T>, b: seq<T>, k: nat)
    requires k <= |a|
    ensures (a + b)[k..] == a[k..] + b
  {
  }

  lemma DropPast<T>(a: seq<T>, b: seq<T>, k: nat)
    requires k <= |b|
    ensures (a + b)[|a| + k..] == b[k..]
  {
  }

  /** The prefix of length `i + 1`, seen from its own end. */
  lemma TakeStep<T>(s: seq<T>, i: nat)
    requires i < |s|
    ensures |s[..i + 1]| == i + 1 && s[..i + 1][..i] == s[..i] && s[..i + 1][i] == s[i]
  {
  }

  lemma TakeAll<T>(s: seq<T>)
    ensures s[..|s|] == s && s[|s|..] == []
  {
  }

  /** The parts of `p + r` around position `|p|`. */
  lemma SplitAt<T>(p: seq<T>, r: seq<T>)
    requires r != []
    ensures (p + r)[..|p|] == p && (p + r)[|p|] == r[0] && (p + r)[|p| + 1..] == r[1..]
  {
  }

  /** The suffix from `i`, seen from its own start. */
  lemma DropStep<T>(s: seq<T>, i: nat)
    requires i < |s|
    ensures s[i..][0] == s[i] && s[i..][1..] == s[i + 1..]
  {
  }

  /** Two parts of which one is empty can trade places. */
  lemma SwapEmpty<T>(a: seq<T>, b: seq<T>, c: seq<T>)
    requires b == [] || c == []
    ensures a + b + c == a + c + b
  {
    if b == [] {
      assert a + b + c == a + c;
      assert a + c + b == a + c;
    } else {
      assert a + b + c == a + b;
      assert a + c + b == a + b;
    }
  }

  /** The elements of `s` that satisfy `p`, in order. */
  function Filter<T>(s: seq<T>, p: T -> bool): (r: seq<T>)
    ensures |r| <= |s|
  {
    if s == [] then []
    else Filter(s[..|s| - 1], p) + (if p(s[|s| - 1]) then [s[|s| - 1]] else [])
  }

  /** Filtering a concatenation filters each part. */
  lemma {:induction false} FilterConcat<T>(a: seq<T>, b: seq<T>, p: T -> bool)
    ensures Filter(a + b, p) == Filter(a, p) + Filter(b, p)
    decreases |b|
  {
    if b == [] {
      assert a + b == a;
    } else {
      var init := b[..|b| - 1];
      assert (a + b)[..|a + b| - 1] == a + init;
      assert (a + b)[|a + b| - 1] == b[|b| - 1];
      FilterConcat(a, init, p);
    }
  }

  /** Filtering a sequence whose first `n` elements pass and whose others
      fail leaves those first `n`. */
  lemma {:induction false} FilterPrefix<T>(s: seq<T>, n: nat, p: T -> bool)
    requires n <= |s|
    requires forall k :: 0 <= k < n ==> p(s[k])
    requires forall k :: n <= k < |s| ==> !p(s[k])
    ensures Filter(s, p) == s[..n]
    decreases |s|
  {
    if |s| == n {
      FilterAll(s, p);
    } else {
      var init := s[..|s| - 1];
      assert forall k :: 0 <= k < |init| ==> init[k] == s[k];
      FilterPrefix(init, n, p);
      assert init[..n] == s[..n];
    }
  }

  /** Filtering keeps a sequence whose every element passes. */
  lemma {:induction false} FilterAll<T>(s: seq<T>, p: T -> bool)
    requires forall i :: 0 <= i < |s| ==> p(s[i])
    ensures Filter(s, p) == s
  {
    if s != [] {
      FilterAll(s[..|s| - 1], p);
      InitLast(s);
    }
  }

  lemma LStripSpacePrefix(m: string)
    ensures LStrip(" " + m) == LStrip(m)
  {
    assert (" " + m)[1..] == m;
  }

  /** Leading whitespace never survives `strip`. */
  lemma StripSpacePrefix(m: string)
    ensures Strip(" " + m) == Strip(m)
  {
    LStripSpacePrefix(m);
  }

  /** `s` is made of whitespace only. */
  predicate AllSpace(s: string) {
    forall i :: 0 <= i < |s| ==> IsSpace(s[i])
  }

  /** `lstrip` removes any run of leading whitespace. */
  lemma {:induction false} LStripSpaces(pre: string, m: string)
    requires AllSpace(pre)
    ensures LStrip(pre + m) == LStrip(m)
    decreases |pre|
  {
    if pre != [] {
      assert (pre + m)[0] == pre[0];
      assert (pre + m)[1..] == pre[1..] + m;
      LStripSpaces(pre[1..], m);
    } else {
      assert pre + m == m;
    }
  }

  /** `rstrip` removes any run of trailing whitespace. */
  lemma {:induction false} RStripSpaces(m: string, post: string)
    requires AllSpace(post)
    ensures RStrip(m + post) == RStrip(m)
    decreases |post|
  {
    if post != [] {
      var init := post[..|post| - 1];
      assert (m + post)[|m + post| - 1] == post[|post| - 1];
      assert (m + post)[..|m + post| - 1] == m + init;
      RStripSpaces(m, init);
    } else {
      assert m + post == m;
    }
  }

  /** Trailing whitespace passes through `lstrip` unless nothing else is
      left. */
  lemma {:induction false} LStripAppend(m: string, post: string)
    requires AllSpace(post)
    ensures LStrip(m) != [] ==> LStrip(m + post) == LStrip(m) + post
    ensures LStrip(m) == [] ==> LStrip(m + post) == []
    decreases |m|
  {
    if m == [] {
      assert m + post == post;
      LStripSpaces(post, []);
      assert post + [] == post;
    } else {
      assert (m + post)[0] == m[0];
      if IsSpace(m[0]) {
        assert (m + post)[1..] == m[1..] + post;
        LStripAppend(m[1..], post);
      }
    }
  }

  /** Python's `strip()` ignores whitespace padding on both sides. */
  lemma StripPadding(pre: string, m: string, post: string)
    requires AllSpace(pre) && AllSpace(post)
    ensures Strip(pre + m + post) == Strip(m)
  {
    ConcatAssoc(pre, m, post);
    LStripSpaces(pre, m + post);
    LStripAppend(m, post);
    if LStrip(m) != [] {
      RStripSpaces(LStrip(m), post);
    }
  }

  /** `lower` works character by character. */
  lemma LowerConcat(a: string, b: string)
    ensures Lower(a + b) == Lower(a) + Lower(b)
  {
    assert forall i :: 0 <= i < |a| ==> (a + b)[i] == a[i];
    assert forall i :: |a| <= i < |a| + |b| ==> (a + b)[i] == b[i - |a|];
  }

  /** Whitespace has no letter case. */
  lemma LowerSpaces(s: string)
    requires AllSpace(s)
    ensures Lower(s) == s && AllSpace(Lower(s))
  {
  }

  /** Lowering forgets any earlier change of letter case. */
  lemma LowerUpper(s: string)
    ensures Lower(Upper(s)) == Lower(s)
    ensures Lower(Lower(s)) == Lower(s)
  {
  }

  /** `strip` only removes characters. */
  lemma StripInside(s: string)
    ensures forall i :: 0 <= i < |Strip(s)| ==> Strip(s)[i] in s
  {
    var left := LStrip(s);
    var r := Strip(s);
    forall i | 0 <= i < |r|
      ensures r[i] in s
    {
      assert r[i] == left[i] == s[|s| - |left| + i];
    }
  }

  /** A string with no whitespace at either end is its own `strip`. */
  lemma StripUnpadded(m: string)
    requires m == [] || (!IsSpace(m[0]) && !IsSpace(m[|m| - 1]))
    ensures Strip(m) == m
  {
  }

  // ----------------------------------------------------------- splitting

  /** The longest prefix of `t` without whitespace. */
  function LeadingWord(t: string): (w: string)
    ensures w <= t
    ensures forall i :: 0 <= i < |w| ==> !IsSpace(w[i])
    ensures |w| < |t| ==> IsSpace(t[|w|])
  {
    if t == [] || IsSpace(t[0]) then [] else [t[0]] + LeadingWord(t[1..])
  }

  /** Python's `str.split()` with no argument: the maximal runs of
      non-whitespace characters, in order. */
  /** A word of `split()`: non-empty, without whitespace. */
  predicate IsWord(w: string) {
    w != [] && forall i :: 0 <= i < |w| ==> !IsSpace(w[i])
  }

  function Split(s: string): (words: seq<string>)
    ensures forall w :: w in words ==> IsWord(w)
    decreases |s|
  {
    var t := LStrip(s);
    if t == [] then []
    else
      var w := LeadingWord(t);
      assert IsWord(w);
      var rest := Split(t[|w|..]);
      [w] + rest
  }

  function WordSet(s: string): set<string> { set w | w in Split(s) }

  // ------------------------------------------------------------- joining

  /** Python's `sep.join(parts)`. */
  function Join(sep: string, parts: seq<string>): (r: string)
    ensures parts == [] ==> r == []
    ensures |parts| == 1 ==> r == parts[0]
  {
    if parts == [] then []
    else if |parts| == 1 then parts[0]
    else parts[0] + sep + Join(sep, parts[1..])
  }

  /** Python's `s.split(c)` for a single separator character: the pieces
      between separators, always at least one. */
  function SplitOn(s: string, c: char): (parts: seq<string>)
    ensures |parts| >= 1
  {
    if s == [] then [[]]
    else
      var rest := SplitOn(s[1..], c);
      if s[0] == c then [[]] + rest else [[s[0]] + rest[0]] + rest[1..]
  }

  /** A separator-free prefix is glued onto the first piece of the rest. */
  lemma {:induction false} SplitOnPrefix(a: string, rest: string, c: char)
    requires c !in a
    ensures var r := SplitOn(rest, c);
      SplitOn(a + rest, c) == [a + r[0]] + r[1..]
  {
    if a != [] {
      assert (a + rest)[1..] == a[1..] + rest;
      SplitOnPrefix(a[1..], rest, c);
      assert [a[0]] + (a[1..] + SplitOn(rest, c)[0]) == a + SplitOn(rest, c)[0];
    } else {
      var r := SplitOn(rest, c);
      assert a + rest == rest && a + r[0] == r[0];
      assert [r[0]] + r[1..] == r;
    }
  }

  /** Splitting a joined list on its one-character separator gives the list
      back, provided no part contains the separator. */
  lemma {:induction false} SplitJoin(parts: seq<string>, c: char)
    requires parts != []
    requires forall k :: 0 <= k < |parts| ==> c !in parts[k]
    ensures SplitOn(Join([c], parts), c) == parts
  {
    if |parts| == 1 {
      SplitOnPrefix(parts[0], [], c);
      assert parts[0] + [] == parts[0];
    } else {
      var tail := Join([c], parts[1..]);
      SplitJoin(parts[1..], c);
      assert ([c] + tail)[1..] == tail;
      SplitOnPrefix(parts[0], [c] + tail, c);
      assert Join([c], parts) == parts[0] + ([c] + tail);
      assert parts[0] + [] == parts[0];
      assert parts == [parts[0]] + parts[1..];
    }
  }

  // ----------------------------------------------------------- replacing

  /** Python's `s.replace(a, b)` for single characters. */
  function ReplaceChar(s: string, a: char, b: char): (r: string)
    ensures |r| == |s|
    ensures forall i :: 0 <= i < |s| ==> r[i] == (if s[i] == a then b else s[i])
  {
    seq(|s|, i requires 0 <= i < |s| => if s[i] == a then b else s[i])
  }

  /** Python's `s.replace(a, "")` for a single character. */
  function RemoveChar(s: string, a: char): (r: string)
    ensures a !in r
    ensures forall c :: c in r ==> c in s
    ensures a !in s ==> r == s
  {
    if s == [] then []
    else if s[0] == a then RemoveChar(s[1..], a)
    else [s[0]] + RemoveChar(s[1..], a)
  }

  /** Python's `s.replace(pat, rep)` for a non-empty pattern: a single
      left-to-right scan replacing non-overlapping occurrences. */
  function ReplaceAll(s: string, pat: string, rep: string): (r: string)
    requires pat != []
    decreases |s|
  {
    if |s| < |pat| then s
    else if s[..|pat|] == pat then rep + ReplaceAll(s[|pat|..], pat, rep)
    else [s[0]] + ReplaceAll(s[1..], pat, rep)
  }

  /** `pat` occurs in `s` starting at index `i`. */
  predicate MatchAt(s: string, pat: string, i: int) {
    0 <= i <= |s| - |pat| && s[i..i + |pat|] == pat
  }

  ghost predicate HasInfix(s: string, pat: string) {
    exists i :: MatchAt(s, pat, i)
  }

  /** Replacing a pattern that does not occur changes nothing. */
  lemma {:induction false} ReplaceAbsent(s: string, pat: string, rep: string)
    requires pat != [] && !HasInfix(s, pat)
    ensures ReplaceAll(s, pat, rep) == s
    decreases |s|
  {
    if |s| >= |pat| {
      assert !MatchAt(s, pat, 0);
      assert s[0..0 + |pat|] == s[..|pat|];
      forall i | MatchAt(s[1..], pat, i)
        ensures false
      {
        assert s[1..][i..i + |pat|] == s[i + 1..i + 1 + |pat|];
        assert MatchAt(s, pat, i + 1);
      }
      ReplaceAbsent(s[1..], pat, rep);
    }
  }

  /** Deleting a pattern (`rep == ""`) never lengthens the string. */
  lemma {:induction false} RemoveShortens(s: string, pat: string)
    requires pat != []
    ensures |ReplaceAll(s, pat, "")| <= |s|
    decreases |s|
  {
    if |s| >= |pat| {
      if s[..|pat|] == pat {
        RemoveShortens(s[|pat|..], pat);
      } else {
        RemoveShortens(s[1..], pat);
      }
    }
  }

  /** No match in `x + pat + y` before `|x|` means none before `|x| - 1`
      once the first element is dropped. */
  lemma MatchShift(x: string, pat: string, y: string)
    requires x != []
    requires forall i :: 0 <= i < |x| ==> !MatchAt(x + pat + y, pat, i)
    ensures forall i :: 0 <= i < |x| - 1 ==> !MatchAt(x[1..] + pat + y, pat, i)
  {
    var s := x + pat + y;
    var tail := x[1..] + pat + y;
    assert tail == s[1..];
    forall i | 0 <= i < |x| - 1
      ensures !MatchAt(tail, pat, i)
    {
      assert tail[i..i + |pat|] == s[i + 1..i + 1 + |pat|];
      assert !MatchAt(s, pat, i + 1);
    }
  }

  /** The scan over a first element that starts no match keeps it. */
  lemma ReplaceStep(s: string, pat: string, rep: string)
    requires pat != [] && |s| >= |pat| && !MatchAt(s, pat, 0)
    ensures ReplaceAll(s, pat, rep) == [s[0]] + ReplaceAll(s[1..], pat, rep)
  {
    assert s[0..0 + |pat|] == s[..|pat|];
  }

  /** One step of the scan over a first element that starts no match. */
  lemma ReplaceSkip(x: string, pat: string, y: string, rep: string)
    requires pat != [] && x != []
    requires !MatchAt(x + pat + y, pat, 0)
    requires ReplaceAll(x[1..] + pat + y, pat, rep) == x[1..] + rep + ReplaceAll(y, pat, rep)
    ensures ReplaceAll(x + pat + y, pat, rep) == x + rep + ReplaceAll(y, pat, rep)
  {
    var s := x + pat + y;
    var m := rep + ReplaceAll(y, pat, rep);
    ReplaceStep(s, pat, rep);
    assert s[0] == x[0] && s[1..] == x[1..] + pat + y;
    ConsDrop(x, m);
    ConcatAssoc(x[1..], rep, ReplaceAll(y, pat, rep));
    ConcatAssoc(x, rep, ReplaceAll(y, pat, rep));
  }

  lemma ConsDrop<T>(x: seq<T>, m: seq<T>)
    requires x != []
    ensures [x[0]] + (x[1..] + m) == x + m
  {
    assert x == [x[0]] + x[1..];
  }

  /** When the first occurrence of `pat` starts right after `x`, the scan
      keeps `x`, replaces that occurrence and carries on after it. */
  lemma {:induction false} ReplaceFirst(x: string, pat: string, y: string, rep: string)
    requires pat != []
    requires forall i :: 0 <= i < |x| ==> !MatchAt(x + pat + y, pat, i)
    ensures ReplaceAll(x + pat + y, pat, rep) == x + rep + ReplaceAll(y, pat, rep)
    decreases |x|
  {
    if x == [] {
      var s := x + pat + y;
      assert s == pat + y;
      assert s[..|pat|] == pat && s[|pat|..] == y;
    } else {
      MatchShift(x, pat, y);
      ReplaceFirst(x[1..], pat, y, rep);
      ReplaceSkip(x, pat, y, rep);
    }
  }

  /** Deleting an opening and then a closing tag from a string with one
      tagged part keeps the text around and inside the tags, provided each
      shown tag is the first occurrence of its pattern. */
  lemma RemoveTagPair(a: string, b: string, c: string, open: string, close: string)
    requires open != [] && close != []
    requires forall i :: 0 <= i < |a| ==> !MatchAt(a + open + (b + close + c), open, i)
    requires !HasInfix(b + close + c, open)
    requires forall i :: 0 <= i < |a + b| ==> !MatchAt(a + b + close + c, close, i)
    requires !HasInfix(c, close)
    ensures ReplaceAll(ReplaceAll(a + open + b + close + c, open, ""), close, "") == a + b + c
  {
    var rest := b + close + c;
    assert a + open + b + close + c == a + open + rest;
    RemoveFirst(a, open, rest);
    assert a + rest == (a + b) + close + c;
    RemoveFirst(a + b, close, c);
  }

  /** Deleting the only occurrence of `pat`, which follows `x`. */
  lemma RemoveFirst(x: string, pat: string, y: string)
    requires pat != []
    requires forall i :: 0 <= i < |x| ==> !MatchAt(x + pat + y, pat, i)
    requires !HasInfix(y, pat)
    ensures ReplaceAll(x + pat + y, pat, "") == x + y
  {
    assert ReplaceAll(y, pat, "") == y by {
      ReplaceAbsent(y, pat, "");
    }
    assert ReplaceAll(x + pat + y, pat, "") == x + ReplaceAll(y, pat, "") by {
      ReplaceFirst(x, pat, y, "");
      assert x + [] + ReplaceAll(y, pat, "") == x + ReplaceAll(y, pat, "");
    }
  }

  // ------------------------------------------------------------- numbers

  function DigitChar(d: nat): (c: char)
    requires d < 10
    ensures '0' <= c <= '9'
  {
    ('0' as int + d) as char
  }

  /** Python's `str(n)` for a natural number. */
  function NatToString(n: nat): (r: string)
    ensures r != []
    ensures forall i :: 0 <= i < |r| ==> '0' <= r[i] <= '9'
  {
    if n < 10 then [DigitChar(n)] else NatToString(n / 10) + [DigitChar(n % 10)]
  }

  function DigitValue(c: char): int { c as int - '0' as int }

  /** The number a decimal string denotes. */
  function DecimalValue(s: string): int
  {
    if s == [] then 0 else 10 * DecimalValue(s[..|s| - 1]) + DigitValue(s[|s| - 1])
  }

  /** `str(n)` reads back as `n`: decimal rendering is injective. */
  lemma {:induction false} NatToStringValue(n: nat)
    ensures DecimalValue(NatToString(n)) == n
  {
    if n >= 10 {
      NatToStringValue(n / 10);
      var r := NatToString(n);
      assert r[..|r| - 1] == NatToString(n / 10);
    }
  }
}
