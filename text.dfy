/** String helpers with the semantics of the Python `str` operations the
    report generator relies on: `strip`, `in`, `find`, `split` on one
    character, `join`, `replace` (all occurrences or only the first) and
    `splitlines(True)`. Strings are sequences of Unicode scalar values. */
module Text {

  import opened Wrappers

  type String = seq<char>

  /** Python's `str.isspace()` for a single character (and so the `\s` class
      of the `re` module on `str` patterns). */
  predicate IsSpace(c: char) {
    || c == ' '
    || '\t' <= c <= '\r'
    || '\U{1C}' <= c <= '\U{1F}'
    || c == '\U{85}' || c == '\U{A0}' || c == '\U{1680}'
    || '\U{2000}' <= c <= '\U{200A}'
    || c == '\U{2028}' || c == '\U{2029}' || c == '\U{202F}' || c == '\U{205F}' || c == '\U{3000}'
  }

  predicate IsBlank(s: String) {
    forall k :: 0 <= k < |s| ==> IsSpace(s[k])
  }

  predicate EndsWith(s: String, suffix: String) {
    |suffix| <= |s| && s[|s| - |suffix|..] == suffix
  }

  /** `s.lstrip()`: drop the longest all-whitespace prefix. */
  function LStrip(s: String): (r: String)
    ensures |r| <= |s|
  {
    if s != [] && IsSpace(s[0]) then LStrip(s[1..]) else s
  }

  /** `s.rstrip()`: drop the longest all-whitespace suffix. */
  function RStrip(s: String): (r: String)
    ensures |r| <= |s|
  {
    if s != [] && IsSpace(s[|s| - 1]) then RStrip(s[..|s| - 1]) else s
  }

  /** `lstrip` keeps a suffix, drops only whitespace, and stops at the
      first non-whitespace character. */
  lemma {:induction false} LStripSpec(s: String)
    ensures LStrip(s) == s[|s| - |LStrip(s)|..]
    ensures IsBlank(s[..|s| - |LStrip(s)|])
    ensures LStrip(s) == [] || !IsSpace(LStrip(s)[0])
  {
    if s != [] && IsSpace(s[0]) {
      LStripSpec(s[1..]);
      var n := |s| - |LStrip(s)|;
      assert s[..n] == [s[0]] + s[1..][..n - 1];
    }
  }

  /** `rstrip` keeps a prefix, drops only whitespace, and stops at the last
      non-whitespace character. */
  lemma {:induction false} RStripSpec(s: String)
    ensures RStrip(s) == s[..|RStrip(s)|]
    ensures IsBlank(s[|RStrip(s)|..])
    ensures RStrip(s) == [] || !IsSpace(RStrip(s)[|RStrip(s)| - 1])
  {
    if s != [] && IsSpace(s[|s| - 1]) {
      var t := s[..|s| - 1];
      RStripSpec(t);
      var n := |RStrip(s)|;
      assert s[n..] == t[n..] + [s[|s| - 1]];
    }
  }

  /** `rstrip` keeps every character up to a non-whitespace one. */
  lemma {:induction false} RStripKeeps(s: String, j: nat)
    requires j < |s| && !IsSpace(s[j])
    ensures j < |RStrip(s)|
    decreases |s|
  {
    if IsSpace(s[|s| - 1]) {
      RStripKeeps(s[..|s| - 1], j);
    }
  }

  /** `s.strip()`. */
  function Strip(s: String): (r: String)
  {
    RStrip(LStrip(s))
  }

  /** Where the kept slice of `s.strip()` begins. */
  function StripStart(s: String): nat
  {
    |s| - |LStrip(s)|
  }

  /** What `strip` keeps is a slice of its input, it starts and ends with
      non-whitespace, and it is empty exactly when the input is blank. */
  lemma StripSpec(s: String)
    ensures StripStart(s) + |Strip(s)| <= |s|
    ensures Strip(s) == s[StripStart(s)..StripStart(s) + |Strip(s)|]
    ensures Strip(s) == [] || (!IsSpace(Strip(s)[0]) && !IsSpace(Strip(s)[|Strip(s)| - 1]))
  {
    var l := LStrip(s);
    var r := Strip(s);
    var i := |s| - |l|;
    LStripSpec(s);
    RStripSpec(l);
    assert r == l[..|r|];
    assert s[i..i + |r|] == l[..|r|];
    if r != [] {
      assert l != [] && r[0] == l[0];
    }
  }

  /** `strip` gives the empty string exactly on blank input. */
  lemma StripEmpty(s: String)
    ensures Strip(s) == [] <==> IsBlank(s)
  {
    var l := LStrip(s);
    var i := |s| - |l|;
    LStripSpec(s);
    RStripSpec(l);
    if Strip(s) == [] {
      assert l[0..] == l;
      assert l == [];
      assert s[..|s|] == s;
    }
    if IsBlank(s) {
      assert IsBlank(l);
    }
  }

  /** Stripping twice is stripping once. */
  lemma StripIdempotent(s: String)
    ensures Strip(Strip(s)) == Strip(s)
  {
    var r := Strip(s);
    StripSpec(s);
    assert LStrip(r) == r;
    assert RStrip(r) == r;
  }

  /** `p` occurs in `s` at index `i`. */
  predicate OccursAt(s: String, p: String, i: nat) {
    i + |p| <= |s| && s[i..i + |p|] == p
  }

  /** `s.find(p, start)` without its -1: the first index at or after `start`. */
  function IndexOfFrom(s: String, p: String, start: nat): (r: Option<nat>)
    decreases |s| - start
    ensures r.Some? ==> start <= r.value && OccursAt(s, p, r.value)
    ensures r.Some? ==> forall j :: start <= j < r.value ==> !OccursAt(s, p, j)
    ensures r.None? ==> forall j :: start <= j ==> !OccursAt(s, p, j)
  {
    if start + |p| > |s| then None
    else if s[start..start + |p|] == p then Some(start)
    else IndexOfFrom(s, p, start + 1)
  }

  /** `s.find(p)`: the first occurrence of `p` in `s`. */
  function IndexOf(s: String, p: String): (r: Option<nat>)
  {
    IndexOfFrom(s, p, 0)
  }

  /** Python's `p in s`. */
  predicate Contains(s: String, p: String) {
    IndexOf(s, p).Some?
  }

  lemma ContainsIff(s: String, p: String)
    ensures Contains(s, p) <==> exists i :: OccursAt(s, p, i)
  {
    if Contains(s, p) {
      assert OccursAt(s, p, IndexOf(s, p).value);
    }
  }

  /** A one-character string occurs exactly where the character is. */
  lemma ContainsChar(s: String, c: char)
    ensures Contains(s, [c]) <==> c in s
  {
    ContainsIff(s, [c]);
    if c in s {
      var i: nat :| 0 <= i < |s| && s[i] == c;
      assert OccursAt(s, [c], i);
    }
    if Contains(s, [c]) {
      var i: nat :| OccursAt(s, [c], i);
      assert s[i] == c;
    }
  }

  /** A string occurring inside a prefix or suffix occurs in the whole. */
  lemma ContainsConcat(a: String, b: String, p: String)
    ensures Contains(a, p) ==> Contains(a + b, p)
    ensures Contains(b, p) ==> Contains(a + b, p)
  {
    ContainsIff(a, p);
    ContainsIff(b, p);
    ContainsIff(a + b, p);
    if Contains(a, p) {
      var i: nat :| OccursAt(a, p, i);
      assert (a + b)[i..i + |p|] == a[i..i + |p|];
      assert OccursAt(a + b, p, i);
    }
    if Contains(b, p) {
      var i: nat :| OccursAt(b, p, i);
      assert (a + b)[|a| + i..|a| + i + |p|] == b[i..i + |p|];
      assert OccursAt(a + b, p, |a| + i);
    }
  }

  /** Concatenation with a separator: Python's `sep.join(parts)`. */
  function Join(parts: seq<String>, sep: String): (r: String)
  {
    if parts == [] then []
    else if |parts| == 1 then parts[0]
    else parts[0] + sep + Join(parts[1..], sep)
  }

  /** Appending a part to a non-empty join adds the separator and the part. */
  lemma {:induction false} JoinAppend(parts: seq<String>, sep: String, last: String)
    requires parts != []
    ensures Join(parts + [last], sep) == Join(parts, sep) + sep + last
  {
    if |parts| == 1 {
      assert (parts + [last])[1..] == [last];
    } else {
      assert (parts + [last])[1..] == parts[1..] + [last];
      JoinAppend(parts[1..], sep, last);
    }
  }

  /** A join starts with its first part. */
  lemma {:induction false} JoinStartsWith(parts: seq<String>, sep: String)
    requires parts != []
    ensures |parts[0]| <= |Join(parts, sep)|
    ensures Join(parts, sep)[..|parts[0]|] == parts[0]
  {
  }

  /** With a non-empty separator, a join is empty exactly when it joins at most one empty part. */
  lemma {:induction false} JoinEmpty(parts: seq<String>, sep: String)
    requires sep != []
    ensures Join(parts, sep) == [] <==> parts == [] || parts == [[]]
  {
    if |parts| >= 2 {
      assert |Join(parts, sep)| >= |sep|;
    }
  }

  /** Concatenation is associative. */
  lemma AppendAssoc<T>(a: seq<T>, b: seq<T>, c: seq<T>)
    ensures (a + b) + c == a + (b + c)
  {
  }

  /** A suffix is its first element followed by the rest. */
  lemma SuffixCons<T>(s: seq<T>, i: nat)
    requires i < |s|
    ensures s[i..] == [s[i]] + s[i + 1..]
  {
  }

  /** Plain concatenation: `''.join(parts)`. */
  function Concat(parts: seq<String>): (r: String)
  {
    if parts == [] then [] else parts[0] + Concat(parts[1..])
  }

  lemma {:induction false} ConcatAppend(parts: seq<String>, last: String)
    ensures Concat(parts + [last]) == Concat(parts) + last
  {
    if parts != [] {
      assert (parts + [last])[1..] == parts[1..] + [last];
      ConcatAppend(parts[1..], last);
    }
  }

  /** Number of occurrences of the character `c` in `s`. */
  function CountChar(s: String, c: char): (n: nat)
    ensures n <= |s|
    ensures n == 0 <==> c !in s
  {
    if s == [] then 0 else (if s[0] == c then 1 else 0) + CountChar(s[1..], c)
  }

  /** `s.split(c)` for a one-character separator. */
  function Split(s: String, c: char): (parts: seq<String>)
    decreases |s|
    ensures |parts| >= 1
  {
    match IndexOf(s, [c])
    case None => [s]
    case Some(i) => [s[..i]] + Split(s[i + 1..], c)
  }

  /** The pieces of a split hold no separator. */
  lemma {:induction false} SplitPiecesFree(s: String, c: char)
    decreases |s|
    ensures forall k :: 0 <= k < |Split(s, c)| ==> c !in Split(s, c)[k]
  {
    ContainsChar(s, c);
    match IndexOf(s, [c])
    case None =>
    case Some(i) =>
      FirstChar(s, c, i);
      SplitPiecesFree(s[i + 1..], c);
      assert Split(s, c) == [s[..i]] + Split(s[i + 1..], c);
  }

  /** There is one more piece than separators. */
  lemma {:induction false} SplitCount(s: String, c: char)
    decreases |s|
    ensures |Split(s, c)| == CountChar(s, c) + 1
  {
    ContainsChar(s, c);
    match IndexOf(s, [c])
    case None =>
    case Some(i) =>
      FirstChar(s, c, i);
      CountAfterFirst(s, c, i);
      SplitCount(s[i + 1..], c);
  }

  /** Past the first `c`, one `c` fewer is left. */
  lemma CountAfterFirst(s: String, c: char, i: nat)
    requires i < |s| && s[i] == c && c !in s[..i]
    ensures CountChar(s, c) == CountChar(s[i + 1..], c) + 1
  {
    var rest := s[i + 1..];
    assert s == s[..i] + ([c] + rest);
    CountCharConcat(s[..i], [c] + rest, c);
    CountCharConcat([c], rest, c);
  }


  /** Joining the pieces back with the separator gives the input. */
  lemma {:induction false} SplitJoinBack(s: String, c: char)
    decreases |s|
    ensures Join(Split(s, c), [c]) == s
  {
    match IndexOf(s, [c])
    case None =>
    case Some(i) =>
      FirstChar(s, c, i);
      SplitJoinBack(s[i + 1..], c);
      SplitJoinStep(s, c, i);
  }

  /** One step of the split/join round trip: the piece before the first
      `c`, `c`, and the rest joined back. */
  lemma SplitJoinStep(s: String, c: char, i: nat)
    requires IndexOf(s, [c]) == Some(i) && i < |s| && s[i] == c
    requires Join(Split(s[i + 1..], c), [c]) == s[i + 1..]
    ensures Join(Split(s, c), [c]) == s
  {
    var rest := s[i + 1..];
    var tail := Split(rest, c);
    assert Split(s, c) == [s[..i]] + tail;
    ConsParts([s[..i]] + tail, s[..i], tail);
    AroundIndex(s, i);
  }

  /** A sequence built from a head and a tail has them back. */
  lemma ConsParts<T>(xs: seq<T>, x: T, t: seq<T>)
    requires xs == [x] + t
    ensures |xs| == |t| + 1 && xs[0] == x && xs[1..] == t
  {
  }

  /** A sequence is what comes before index `i`, the element there, and
      what comes after. */
  lemma AroundIndex<T>(s: seq<T>, i: nat)
    requires i < |s|
    ensures s == s[..i] + [s[i]] + s[i + 1..]
  {
  }



  lemma FirstChar(s: String, c: char, i: nat)
    requires IndexOf(s, [c]) == Some(i)
    ensures i < |s| && s[i] == c && c !in s[..i]
  {
    assert OccursAt(s, [c], i);
    forall k | 0 <= k < i ensures s[k] != c {
      assert !OccursAt(s, [c], k);
      assert s[k..k + 1] == [s[k]];
    }
  }

  lemma {:induction false} CountCharConcat(a: String, b: String, c: char)
    ensures CountChar(a + b, c) == CountChar(a, c) + CountChar(b, c)
  {
    if a != [] {
      assert (a + b)[0] == a[0];
      assert (a + b)[1..] == a[1..] + b;
      CountCharConcat(a[1..], b, c);
    } else {
      assert a + b == b;
    }
  }

  /** Splitting undoes joining, when no piece holds the separator. */
  lemma {:induction false} SplitJoin(parts: seq<String>, c: char)
    requires |parts| >= 1
    requires forall k :: 0 <= k < |parts| ==> c !in parts[k]
    ensures Split(Join(parts, [c]), c) == parts
  {
    ContainsChar(parts[0], c);
    if |parts| == 1 {
    } else {
      var s := Join(parts, [c]);
      var n := |parts[0]|;
      assert s == parts[0] + [c] + Join(parts[1..], [c]);
      assert OccursAt(s, [c], n);
      forall j | 0 <= j < n ensures !OccursAt(s, [c], j) {
        assert s[j] == parts[0][j];
      }
      assert IndexOf(s, [c]) == Some(n);
      assert s[..n] == parts[0];
      assert s[n + 1..] == Join(parts[1..], [c]);
      SplitJoin(parts[1..], c);
    }
  }

  /** Python's `s.replace(pat, rep)`: every non-overlapping occurrence,
      scanning from the left; an empty `pat` inserts `rep` around every
      character. */
  function ReplaceAll(s: String, pat: String, rep: String): (r: String)
    decreases |s|
  {
    if pat == [] then Interleave(s, rep)
    else if |s| < |pat| then s
    else if s[..|pat|] == pat then rep + ReplaceAll(s[|pat|..], pat, rep)
    else [s[0]] + ReplaceAll(s[1..], pat, rep)
  }

  /** `s.replace('', rep)`. */
  function Interleave(s: String, rep: String): (r: String)
  {
    if s == [] then rep else rep + [s[0]] + Interleave(s[1..], rep)
  }

  /** Without an occurrence of `pat`, `replace` gives its input back. */
  lemma {:induction false} ReplaceAllAbsent(s: String, pat: String, rep: String)
    requires pat != []
    requires !Contains(s, pat)
    ensures ReplaceAll(s, pat, rep) == s
  {
    ContainsIff(s, pat);
    if |s| >= |pat| {
      assert !OccursAt(s, pat, 0);
      ContainsIff(s[1..], pat);
      if Contains(s[1..], pat) {
        var i: nat :| OccursAt(s[1..], pat, i);
        assert s[1..][i..i + |pat|] == s[i + 1..i + 1 + |pat|];
        assert OccursAt(s, pat, i + 1);
      }
      ReplaceAllAbsent(s[1..], pat, rep);
    }
  }

  /** Replacing a character by a string that does not hold it leaves none,
      and leaves every other character where it was relative to the rest. */
  lemma {:induction false} ReplaceCharRemoves(s: String, c: char, rep: String)
    requires c !in rep
    ensures c !in ReplaceAll(s, [c], rep)
  {
    if |s| >= 1 {
      ReplaceCharRemoves(s[1..], c, rep);
    }
  }

  /** Replacing a character by a character rewrites exactly the positions
      that held it and keeps every other character in place. */
  lemma {:induction false} ReplaceCharMap(s: String, c: char, d: char)
    ensures |ReplaceAll(s, [c], [d])| == |s|
    ensures forall i :: 0 <= i < |s| ==> ReplaceAll(s, [c], [d])[i] == if s[i] == c then d else s[i]
  {
    if |s| >= 1 {
      ReplaceCharMap(s[1..], c, d);
      assert s[..1] == [s[0]];
      var r := ReplaceAll(s, [c], [d]);
      var head := if s[0] == c then d else s[0];
      assert r == [head] + ReplaceAll(s[1..], [c], [d]);
    }
  }

  /** `s.replace(pat, rep, 1)`. */
  function ReplaceFirst(s: String, pat: String, rep: String): (r: String)
  {
    match IndexOf(s, pat)
    case None => s
    case Some(i) => s[..i] + rep + s[i + |pat|..]
  }

  /** Characters that `str.splitlines` treats as line boundaries. */
  predicate IsLineBreak(c: char) {
    c in {'\n', '\r', '\U{B}', '\U{C}', '\U{1C}', '\U{1D}', '\U{1E}', '\U{85}', '\U{2028}', '\U{2029}'}
  }

  /** Index of the first line break at or after `i`, or `|s|`. */
  function BreakFrom(s: String, i: nat): (j: nat)
    requires i <= |s|
    decreases |s| - i
    ensures i <= j <= |s|
    ensures j < |s| ==> IsLineBreak(s[j])
    ensures forall k :: i <= k < j ==> !IsLineBreak(s[k])
  {
    if i == |s| || IsLineBreak(s[i]) then i else BreakFrom(s, i + 1)
  }

  /** Length of the first line of `s` including its line ending (`\r\n`
      counts as one ending); the whole of `s` when it has no line break. */
  function FirstLineLength(s: String): (n: nat)
    requires s != []
    ensures BreakFrom(s, 0) < n <= |s| || BreakFrom(s, 0) == n == |s|
  {
    var j := BreakFrom(s, 0);
    if j == |s| then |s|
    else if s[j] == '\r' && j + 1 < |s| && s[j + 1] == '\n' then j + 2
    else j + 1
  }

  /** `s.splitlines(True)`: the lines of `s`, each keeping its ending. */
  function SplitLinesKeepEnds(s: String): (lines: seq<String>)
    decreases |s|
    ensures forall k :: 0 <= k < |lines| ==> lines[k] != []
    ensures Concat(lines) == s
  {
    if s == [] then []
    else
      var n := FirstLineLength(s);
      assert s == s[..n] + s[n..];
      [s[..n]] + SplitLinesKeepEnds(s[n..])
  }
}
