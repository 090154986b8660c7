/** The Python string built-ins the pipeline relies on, on `seq<char>`. */
module PyStr {

  /** `c.isspace()` for one character (the same class as `\s` in a `str` regex). */
  predicate IsSpace(c: char) {
    || c == ' '
    || ('\t' <= c <= '\r')
    || ('\U{1C}' <= c <= '\U{1F}')
    || c == '\U{85}' || c == '\U{A0}' || c == '\U{1680}'
    || ('\U{2000}' <= c <= '\U{200A}')
    || c == '\U{2028}' || c == '\U{2029}' || c == '\U{202F}' || c == '\U{205F}' || c == '\U{3000}'
  }

  /** The characters `str.splitlines` breaks at. */
  predicate IsLineBreak(c: char) {
    || ('\n' <= c <= '\r')
    || ('\U{1C}' <= c <= '\U{1E}')
    || c == '\U{85}' || c == '\U{2028}' || c == '\U{2029}'
  }

  /** Where the leading whitespace of `s` ends: the first position that is not whitespace, or `|s|`. */
  function LeadEnd(s: string): (a: nat)
    ensures a <= |s|
  {
    if s != [] && IsSpace(s[0]) then 1 + LeadEnd(s[1..]) else 0
  }

  /** Where the trailing whitespace of `s` starts: one past the last position that is not whitespace, or 0. */
  function TrailStart(s: string): (b: nat)
    ensures b <= |s|
  {
    if s != [] && IsSpace(s[|s| - 1]) then TrailStart(s[..|s| - 1]) else |s|
  }

  /** `LeadEnd` is where the run of whitespace at the front of `s` stops. */
  lemma {:induction false} LeadEndSpec(s: string)
    ensures forall i :: 0 <= i < LeadEnd(s) ==> IsSpace(s[i])
    ensures LeadEnd(s) < |s| ==> !IsSpace(s[LeadEnd(s)])
  {
    if s != [] && IsSpace(s[0]) {
      LeadEndSpec(s[1..]);
    }
  }

  /** `TrailStart` is where the run of whitespace at the back of `s` starts. */
  lemma {:induction false} TrailStartSpec(s: string)
    ensures forall i :: TrailStart(s) <= i < |s| ==> IsSpace(s[i])
    ensures TrailStart(s) > 0 ==> !IsSpace(s[TrailStart(s) - 1])
  {
    if s != [] && IsSpace(s[|s| - 1]) {
      TrailStartSpec(s[..|s| - 1]);
    }
  }

  /** A character that is not whitespace lies before the trailing whitespace. */
  lemma {:induction false} TrailStartPast(s: string, a: nat)
    requires a < |s| && !IsSpace(s[a])
    ensures a < TrailStart(s)
  {
    if IsSpace(s[|s| - 1]) {
      TrailStartPast(s[..|s| - 1], a);
    }
  }

  /**
   * `s.strip()`: the text between the leading and the trailing whitespace,
   * which starts and ends with a character that is not whitespace, and is
   * empty exactly when `s` is all whitespace.
   */
  function Strip(s: string): (r: string)
    ensures |r| <= |s|
    ensures r == [] || (!IsSpace(r[0]) && !IsSpace(r[|r| - 1]))
  {
    var a, b := LeadEnd(s), TrailStart(s);
    LeadEndSpec(s);
    TrailStartSpec(s);
    if a < |s| then
      TrailStartPast(s, a);
      s[a..b]
    else
      []
  }

  /**
   * What `strip` removes is whitespace at either end and nothing else: the
   * result is the slice after the leading run and before the trailing run,
   * and it is empty exactly when every character is whitespace.
   */
  lemma StripSpec(s: string)
    ensures LeadEnd(s) < |s| ==> LeadEnd(s) < TrailStart(s) && Strip(s) == s[LeadEnd(s)..TrailStart(s)]
    ensures forall i :: 0 <= i < LeadEnd(s) ==> IsSpace(s[i])
    ensures forall i :: TrailStart(s) <= i < |s| ==> IsSpace(s[i])
    ensures Strip(s) == [] <==> forall i :: 0 <= i < |s| ==> IsSpace(s[i])
  {
    LeadEndSpec(s);
    TrailStartSpec(s);
    if LeadEnd(s) < |s| {
      TrailStartPast(s, LeadEnd(s));
    }
  }

  /** Stripping removes whitespace only: any other character is in the result exactly when it is in `s`. */
  lemma StripKeeps(s: string, c: char)
    requires !IsSpace(c)
    ensures c in Strip(s) <==> c in s
  {
    StripSpec(s);
    var a, b := LeadEnd(s), TrailStart(s);
    if c in s {
      var i :| 0 <= i < |s| && s[i] == c;
      assert s[a..b][i - a] == c;
    }
  }

  /** Dropping a prefix of the left operand of a concatenation. */
  lemma DropAppend<T>(x: seq<T>, z: seq<T>, n: nat)
    requires n <= |x|
    ensures (x + z)[n..] == x[n..] + z
  {
  }

  /** Dropping the whole left operand of a concatenation. */
  lemma DropLeft<T>(x: seq<T>, z: seq<T>)
    ensures (x + z)[|x|..] == z
  {
  }

  lemma HeadTail<T>(s: seq<T>)
    requires s != []
    ensures [s[0]] + s[1..] == s
  {
  }

  lemma ConsTail<T>(a: T, r: seq<T>)
    ensures ([a] + r)[0] == a && ([a] + r)[1..] == r
  {
  }

  /** A prefix of a slice is a slice. */
  lemma SlicePrefix<T>(t: seq<T>, a: nat, b: nat, m: nat)
    requires a + m <= b <= |t|
    ensures t[a..b][..m] == t[a..a + m]
  {
  }

  lemma AppendNil<T>(a: seq<T>)
    ensures a + [] == a
  {
  }

  lemma Regroup<T>(a: seq<T>, b: seq<T>, c: seq<T>, d: seq<T>, e: seq<T>)
    ensures a + (b + c + d + e) == a + b + c + d + e
  {
  }

  lemma AppendAssoc<T>(a: seq<T>, b: seq<T>, c: seq<T>)
    ensures a + (b + c) == a + b + c
  {
  }

  /** The first position at or after `j` that is not whitespace. */
  function SkipSpace(t: string, j: nat): (k: nat)
    requires j <= |t|
    ensures j <= k <= |t|
    ensures k == |t| || !IsSpace(t[k])
    decreases |t| - j
  {
    if j < |t| && IsSpace(t[j]) then SkipSpace(t, j + 1) else j
  }

  /** Everything `SkipSpace` passes over is whitespace. */
  lemma {:induction false} SkipSpaceSkipped(t: string, j: nat)
    requires j <= |t|
    ensures forall m :: j <= m < SkipSpace(t, j) ==> IsSpace(t[m])
    decreases |t| - j
  {
    if j < |t| && IsSpace(t[j]) {
      SkipSpaceSkipped(t, j + 1);
    }
  }

  /** `SkipSpace` stops at the first position that is not whitespace. */
  lemma {:induction false} SkipSpaceAt(t: string, j: nat, c: nat)
    requires j <= c <= |t|
    requires forall m :: j <= m < c ==> IsSpace(t[m])
    requires c == |t| || !IsSpace(t[c])
    ensures SkipSpace(t, j) == c
    decreases c - j
  {
    if j < c {
      SkipSpaceAt(t, j + 1, c);
    }
  }

  /** ASCII case mapping; other characters are left as they are. */
  function LowerChar(c: char): char {
    if 'A' <= c <= 'Z' then (c as int + 32) as char else c
  }

  /** `s.lower()`, restricted to ASCII letters. */
  function Lower(s: string): (r: string)
    ensures |r| == |s|
    ensures forall i :: 0 <= i < |s| ==> r[i] == LowerChar(s[i])
    ensures forall i :: 0 <= i < |r| ==> !('A' <= r[i] <= 'Z')
  {
    if s == [] then [] else [LowerChar(s[0])] + Lower(s[1..])
  }

  /** Index of the first line break in `s`, or `|s|` when there is none. */
  function LineEnd(s: string): (k: nat)
    ensures k <= |s|
    ensures k < |s| ==> IsLineBreak(s[k])
    ensures forall i :: 0 <= i < k ==> !IsLineBreak(s[i])
  {
    if s == [] || IsLineBreak(s[0]) then 0 else 1 + LineEnd(s[1..])
  }

  /** `s.splitlines()`: "\r\n" is one break, and a final break opens no empty line. */
  function SplitLines(s: string): (lines: seq<string>)
    ensures forall i :: 0 <= i < |lines| ==> forall c :: c in lines[i] ==> !IsLineBreak(c)
    decreases |s|
  {
    if s == [] then []
    else
      var k := LineEnd(s);
      assert forall c :: c in s[..k] ==> !IsLineBreak(c);
      if k == |s| then [s]
      else
        var next := if s[k] == '\r' && k + 1 < |s| && s[k + 1] == '\n' then k + 2 else k + 1;
        [s[..k]] + SplitLines(s[next..])
  }

  /** The lines, each followed by `"\n"`. */
  function Terminated(ls: seq<string>): string {
    if ls == [] then [] else ls[0] + "\n" + Terminated(ls[1..])
  }

  /** `l` holds no line break. */
  predicate LineFree(l: string) {
    forall j :: 0 <= j < |l| ==> !IsLineBreak(l[j])
  }

  /** A line without breaks ends at the break that follows it. */
  lemma {:induction false} LineEndOf(l: string, b: char, r: string)
    requires LineFree(l) && IsLineBreak(b)
    ensures LineEnd(l + [b] + r) == |l|
  {
    if l != [] {
      assert (l + [b] + r)[1..] == l[1..] + [b] + r;
      LineEndOf(l[1..], b, r);
    }
  }

  /** A line without breaks, ended by `"\n"`, is split off on its own. */
  lemma SplitLinesCons(l: string, rest: string)
    requires LineFree(l)
    ensures SplitLines(l + "\n" + rest) == [l] + SplitLines(rest)
  {
    var s := l + "\n" + rest;
    LineEndOf(l, '\n', rest);
    assert s[..|l|] == l;
    assert s[|l| + 1..] == rest;
  }

  /** A text without breaks is one line, or none when it is empty. */
  lemma SplitLinesOne(last: string)
    requires LineFree(last)
    ensures SplitLines(last) == if last == [] then [] else [last]
  {
    if last != [] {
      assert LineEnd(last) == |last|;
    }
  }

  /**
   * `splitlines` splits exactly at the breaks: lines without breaks, each
   * ended by `"\n"` and followed by a last line without one, come back as
   * those lines, the last one only when it is not empty.
   */
  lemma {:induction false} SplitLinesTerminated(ls: seq<string>, last: string)
    requires forall i :: 0 <= i < |ls| ==> LineFree(ls[i])
    requires LineFree(last)
    ensures SplitLines(Terminated(ls) + last) == ls + (if last == [] then [] else [last])
    decreases |ls|
  {
    if ls == [] {
      SplitLinesOne(last);
      assert Terminated(ls) + last == last;
    } else {
      var tail: seq<string> := if last == [] then [] else [last];
      var rest := Terminated(ls[1..]) + last;
      AppendAssoc(ls[0] + "\n", Terminated(ls[1..]), last);
      assert Terminated(ls) + last == ls[0] + "\n" + rest;
      SplitLinesCons(ls[0], rest);
      assert forall i :: 0 <= i < |ls[1..]| ==> ls[1..][i] == ls[i + 1];
      SplitLinesTerminated(ls[1..], last);
      assert SplitLines(rest) == ls[1..] + tail;
      AppendAssoc([ls[0]], ls[1..], tail);
      HeadTail(ls);
    }
  }

  /** `"a\nb"` splits into `"a"` and `"b"`. */
  lemma SplitLinesTwo(s: string)
    requires s == "a\nb"
    ensures SplitLines(s) == ["a", "b"]
  {
    SplitLinesCons("a", "b");
    SplitLinesOne("b");
    assert s == "a" + "\n" + "b";
  }

  /** The lines joined back together. */
  function Concat(ls: seq<string>): string {
    if ls == [] then [] else ls[0] + Concat(ls[1..])
  }

  /** `s` without its line-break characters. */
  function DropBreaks(s: string): (r: string)
    ensures |r| <= |s|
  {
    if s == [] then []
    else if IsLineBreak(s[0]) then DropBreaks(s[1..])
    else [s[0]] + DropBreaks(s[1..])
  }

  lemma {:induction false} DropBreaksKeeps(s: string)
    requires forall i :: 0 <= i < |s| ==> !IsLineBreak(s[i])
    ensures DropBreaks(s) == s
    decreases |s|
  {
    if s != [] {
      DropBreaksKeeps(s[1..]);
    }
  }

  lemma ConcatCons(a: string, ls: seq<string>)
    ensures Concat([a] + ls) == a + Concat(ls)
  {
    ConsTail(a, ls);
  }

  /**
   * Splitting loses only the line breaks: the lines, joined back together,
   * are the text with its line-break characters removed.
   */
  lemma {:induction false} SplitLinesText(s: string)
    ensures Concat(SplitLines(s)) == DropBreaks(s)
    decreases |s|
  {
    if s != [] {
      var k := LineEnd(s);
      if k == |s| {
        AppendNil(s);
        DropBreaksKeeps(s);
      } else {
        var next := SplitLinesStep(s);
        SplitLinesText(s[next..]);
      }
    }
  }

  /** Where the line after the first break of `s` starts. */
  function NextLine(s: string): (next: nat)
    requires LineEnd(s) < |s|
    ensures LineEnd(s) < next <= |s|
  {
    var k := LineEnd(s);
    if s[k] == '\r' && k + 1 < |s| && s[k + 1] == '\n' then k + 2 else k + 1
  }

  /** One line and its break, peeled off the front of `s`. */
  lemma SplitLinesStep(s: string) returns (next: nat)
    requires s != [] && LineEnd(s) < |s|
    ensures next == NextLine(s)
    ensures Concat(SplitLines(s)) == s[..LineEnd(s)] + Concat(SplitLines(s[next..]))
    ensures DropBreaks(s) == s[..LineEnd(s)] + DropBreaks(s[next..])
  {
    next := NextLine(s);
    ConcatCons(s[..LineEnd(s)], SplitLines(s[next..]));
    DropBreaksStep(s);
  }

  lemma DropBreaksStep(s: string)
    requires LineEnd(s) < |s|
    ensures DropBreaks(s) == s[..LineEnd(s)] + DropBreaks(s[NextLine(s)..])
  {
    var k, next := LineEnd(s), NextLine(s);
    DropBreaksPrefix(s, k);
    var t := s[k..];
    assert IsLineBreak(t[0]);
    var u := t[1..];
    if next == k + 2 {
      assert u[0] == '\n' && u[1..] == s[next..];
    } else {
      assert u == s[next..];
    }
  }

  /** A break-free prefix survives `DropBreaks` unchanged. */
  lemma {:induction false} DropBreaksPrefix(s: string, k: nat)
    requires k <= |s|
    requires forall i :: 0 <= i < k ==> !IsLineBreak(s[i])
    ensures DropBreaks(s) == s[..k] + DropBreaks(s[k..])
    decreases k
  {
    if k > 0 {
      var t := s[1..];
      DropBreaksPrefix(t, k - 1);
      assert t[k - 1..] == s[k..];
      assert s[..k] == [s[0]] + t[..k - 1];
    }
  }

  /** `[o.strip() for o in s.splitlines() if o.strip()]`: the stripped non-blank lines of `s`. */
  function NonBlankLines(s: string): (lines: seq<string>)
    ensures forall i :: 0 <= i < |lines| ==>
      lines[i] != [] && !IsSpace(lines[i][0]) && !IsSpace(lines[i][|lines[i]| - 1])
  {
    var ls := SplitLines(s);
    StrippedEnds(ls);
    NonEmptyImages(ls, Strip)
  }

  lemma StrippedEnds(ls: seq<string>)
    ensures forall i :: 0 <= i < |NonEmptyImages(ls, Strip)| ==>
      var t := NonEmptyImages(ls, Strip)[i];
      !IsSpace(t[0]) && !IsSpace(t[|t| - 1])
  {
    NonEmptyImagesLength(ls, Strip);
    forall i | 0 <= i < |NonEmptyImages(ls, Strip)|
      ensures var t := NonEmptyImages(ls, Strip)[i]; !IsSpace(t[0]) && !IsSpace(t[|t| - 1])
    {
      NonEmptyImagesAt(ls, Strip, i);
    }
  }

  /** The non-empty values of `f` over `ls`, in order. */
  function NonEmptyImages(ls: seq<string>, f: string -> string): (r: seq<string>)
    ensures |r| <= |ls|
    ensures forall i :: 0 <= i < |r| ==> r[i] != []
    decreases |ls|
  {
    if ls == [] then []
    else
      var rest := NonEmptyImages(ls[..|ls| - 1], f);
      var t := f(ls[|ls| - 1]);
      if t == [] then rest else rest + [t]
  }

  /** The positions, counted from 0, of the elements of `ls` that `f` maps to a non-empty value. */
  function NonEmptyAt(ls: seq<string>, f: string -> string): (ps: seq<nat>)
    ensures forall k :: 0 <= k < |ps| ==> ps[k] < |ls| && f(ls[ps[k]]) != []
    decreases |ls|
  {
    if ls == [] then []
    else
      var init := ls[..|ls| - 1];
      var ps := NonEmptyAt(init, f);
      assert forall k :: 0 <= k < |ps| ==> ls[ps[k]] == init[ps[k]];
      ps + (if f(ls[|ls| - 1]) != [] then [|ls| - 1] else [])
  }

  /** Every position with a non-empty value appears in `NonEmptyAt`, in increasing order. */
  lemma {:induction false} NonEmptyAtComplete(ls: seq<string>, f: string -> string)
    ensures forall j, k :: 0 <= j < k < |NonEmptyAt(ls, f)| ==> NonEmptyAt(ls, f)[j] < NonEmptyAt(ls, f)[k]
    ensures forall p :: 0 <= p < |ls| && f(ls[p]) != [] ==> p in NonEmptyAt(ls, f)
    decreases |ls|
  {
    if ls != [] {
      var init := ls[..|ls| - 1];
      NonEmptyAtComplete(init, f);
      assert forall p :: 0 <= p < |init| ==> ls[p] == init[p];
    }
  }

  lemma {:induction false} NonEmptyImagesLength(ls: seq<string>, f: string -> string)
    ensures |NonEmptyImages(ls, f)| == |NonEmptyAt(ls, f)|
    decreases |ls|
  {
    if ls != [] {
      NonEmptyImagesLength(ls[..|ls| - 1], f);
    }
  }

  /** The `k`-th image is the value of `f` at the `k`-th accepted position. */
  lemma {:induction false} NonEmptyImagesAt(ls: seq<string>, f: string -> string, k: nat)
    requires k < |NonEmptyAt(ls, f)|
    ensures k < |NonEmptyImages(ls, f)|
    ensures NonEmptyImages(ls, f)[k] == f(ls[NonEmptyAt(ls, f)[k]])
    decreases |ls|
  {
    var init := ls[..|ls| - 1];
    var ps := NonEmptyAt(init, f);
    NonEmptyImagesLength(init, f);
    if k < |ps| {
      NonEmptyImagesAt(init, f, k);
      assert ls[ps[k]] == init[ps[k]];
    }
  }

  /**
   * The option lines of a string are the lines of `splitlines` that are not
   * blank, in order, each stripped; blank lines are exactly the ones left out.
   */
  lemma NonBlankLinesSpec(s: string)
    ensures var ls := SplitLines(s);
      var ps := NonEmptyAt(ls, Strip);
      && |NonBlankLines(s)| == |ps|
      && (forall k :: 0 <= k < |ps| ==> NonBlankLines(s)[k] == Strip(ls[ps[k]]))
      && (forall j, k :: 0 <= j < k < |ps| ==> ps[j] < ps[k])
      && (forall p :: 0 <= p < |ls| && Strip(ls[p]) != [] ==> p in ps)
  {
    var ls := SplitLines(s);
    NonEmptyAtComplete(ls, Strip);
    NonEmptyImagesLength(ls, Strip);
    forall k | 0 <= k < |NonEmptyAt(ls, Strip)|
      ensures NonBlankLines(s)[k] == Strip(ls[NonEmptyAt(ls, Strip)[k]])
    {
      NonEmptyImagesAt(ls, Strip, k);
    }
  }

  /** `s.find(c)`: the first index of `c`, or -1. */
  function Find(s: string, c: char): (r: int)
    ensures -1 <= r < |s|
    ensures r == -1 <==> c !in s
    ensures 0 <= r ==> s[r] == c && c !in s[..r]
  {
    if s == [] then -1
    else if s[0] == c then 0
    else
      var r := Find(s[1..], c);
      if r == -1 then -1
      else
        assert s[..r + 1] == [s[0]] + s[1..][..r];
        r + 1
  }

  /** `s.rfind(c)`: the last index of `c`, or -1. */
  function RFind(s: string, c: char): (r: int)
    ensures -1 <= r < |s|
    ensures r == -1 <==> c !in s
    ensures 0 <= r ==> s[r] == c && c !in s[r + 1..]
  {
    if s == [] then -1
    else if s[|s| - 1] == c then |s| - 1
    else
      var r := RFind(s[..|s| - 1], c);
      if r == -1 then
        assert s == s[..|s| - 1] + [s[|s| - 1]];
        -1
      else
        assert s[r + 1..] == s[..|s| - 1][r + 1..] + [s[|s| - 1]];
        r
  }

  /** `sep.join(parts)` */
  function Join(sep: string, parts: seq<string>): string {
    if parts == [] then []
    else if |parts| == 1 then parts[0]
    else parts[0] + sep + Join(sep, parts[1..])
  }
}
