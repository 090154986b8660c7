/**
 * The textual repairs of `_safe_json_load` (generator.py:126-141): when the
 * strict parse fails, smart quotes are straightened and trailing commas are
 * dropped, and the text is parsed once more.
 */
module Repair {
  import opened Wrappers
  import opened PyStr
  import opened Json

  /** `s.replace(from, to)` for single characters. */
  function ReplaceChar(s: string, from: char, to: char): (r: string)
    ensures |r| == |s|
    ensures forall i :: 0 <= i < |s| ==> r[i] == (if s[i] == from then to else s[i])
  {
    if s == [] then [] else [if s[0] == from then to else s[0]] + ReplaceChar(s[1..], from, to)
  }

  /** The straight quote that replaces one character. */
  function StraightQuote(c: char): char {
    if c == '\U{201C}' || c == '\U{201D}' then '"' else if c == '\U{2019}' then '\'' else c
  }

  /** `s.replace("“", '"').replace("”", '"').replace("’", "'")` (generator.py:134). */
  function StraightenQuotes(s: string): string {
    ReplaceChar(ReplaceChar(ReplaceChar(s, '\U{201C}', '"'), '\U{201D}', '"'), '\U{2019}', '\'')
  }

  /** The three replacements act character by character: the length is kept and only the three smart quotes change. */
  lemma StraightenQuotesPointwise(s: string)
    ensures |StraightenQuotes(s)| == |s|
    ensures forall i :: 0 <= i < |s| ==> StraightenQuotes(s)[i] == StraightQuote(s[i])
  {
  }

  lemma {:induction false} ReplaceCharAbsent(s: string, from: char, to: char)
    requires from !in s
    ensures ReplaceChar(s, from, to) == s
  {
    if s != [] {
      assert s == [s[0]] + s[1..];
      ReplaceCharAbsent(s[1..], from, to);
    }
  }

  /** `s` opens with a comma whose whitespace run ends at one of `closers`. */
  predicate CommaRunAt(s: string, closers: set<char>)
    requires s != []
  {
    s[0] == ',' && SkipSpace(s, 1) < |s| && s[SkipSpace(s, 1)] in closers
  }

  /**
   * `re.sub(r',\s*([...])', r'\1', s)`: every comma followed by a whitespace
   * run and then a closer loses the comma and the run; the closer stays.  The
   * scan resumes after the closer, as the regex engine does.
   */
  function DropCommaRuns(s: string, closers: set<char>): (r: string)
    ensures |r| <= |s|
    decreases |s|
  {
    if s == [] then []
    else if CommaRunAt(s, closers) then
      var k := SkipSpace(s, 1);
      [s[k]] + DropCommaRuns(s[k + 1..], closers)
    else [s[0]] + DropCommaRuns(s[1..], closers)
  }

  /** The text the second parse attempt sees (generator.py:134-136). */
  function Repaired(s: string): string {
    DropCommaRuns(StraightenQuotes(s), {']', '}'})
  }

  /** `_safe_json_load`: a strict parse, then one parse of the repaired text, re-raising its error. */
  function SafeJsonLoad(s: string, parse: Parser): Result<JsonValue, string> {
    if parse(s).Ok? then parse(s) else parse(Repaired(s))
  }

  /** Skipping whitespace across a concatenation. */
  lemma {:induction false} SkipSpaceAppend(x: string, z: string, j: nat)
    requires j <= |x|
    ensures SkipSpace(x + z, j) == if SkipSpace(x, j) < |x| then SkipSpace(x, j) else |x| + SkipSpace(z, 0)
    decreases |x| - j
  {
    if j < |x| {
      assert (x + z)[j] == x[j];
      if IsSpace(x[j]) {
        SkipSpaceAppend(x, z, j + 1);
      }
    } else {
      SkipSpaceShift(x, z, 0);
    }
  }

  lemma {:induction false} SkipSpaceShift(x: string, z: string, j: nat)
    requires j <= |z|
    ensures SkipSpace(x + z, |x| + j) == |x| + SkipSpace(z, j)
    decreases |z| - j
  {
    if j < |z| {
      assert (x + z)[|x| + j] == z[j];
      if IsSpace(z[j]) {
        SkipSpaceShift(x, z, j + 1);
      }
    }
  }

  /**
   * Text that does not end in a comma run is repaired independently of what
   * follows, as long as what follows starts with neither whitespace nor a closer.
   */
  lemma {:induction false} DropCommaRunsAppend(x: string, z: string, closers: set<char>)
    requires z == [] || (!IsSpace(z[0]) && z[0] !in closers)
    ensures DropCommaRuns(x + z, closers) == DropCommaRuns(x, closers) + DropCommaRuns(z, closers)
    decreases |x|
  {
    if x == [] {
      assert x + z == z;
    } else if CommaRunAt(x, closers) {
      var k := SkipSpace(x, 1);
      DropCommaRunsAppend(x[k + 1..], z, closers);
      AppendAfterRun(x, z, closers, k);
    } else {
      DropCommaRunsAppend(x[1..], z, closers);
      AppendAfterChar(x, z, closers);
    }
  }

  /** The inductive step of `DropCommaRunsAppend` when `x` opens with a comma run ending at `k`. */
  lemma AppendAfterRun(x: string, z: string, closers: set<char>, k: nat)
    requires x != [] && CommaRunAt(x, closers) && k == SkipSpace(x, 1)
    requires z == [] || (!IsSpace(z[0]) && z[0] !in closers)
    requires DropCommaRuns(x[k + 1..] + z, closers) == DropCommaRuns(x[k + 1..], closers) + DropCommaRuns(z, closers)
    ensures DropCommaRuns(x + z, closers) == DropCommaRuns(x, closers) + DropCommaRuns(z, closers)
  {
    UnfoldRunAppend(x, z, closers);
    UnfoldRun(x, closers);
    AppendAssoc([x[k]], DropCommaRuns(x[k + 1..], closers), DropCommaRuns(z, closers));
  }

  lemma UnfoldRun(x: string, closers: set<char>)
    requires x != [] && CommaRunAt(x, closers)
    ensures var k := SkipSpace(x, 1);
      DropCommaRuns(x, closers) == [x[k]] + DropCommaRuns(x[k + 1..], closers)
  {
  }

  lemma UnfoldRunAppend(x: string, z: string, closers: set<char>)
    requires x != [] && CommaRunAt(x, closers)
    requires z == [] || (!IsSpace(z[0]) && z[0] !in closers)
    ensures var k := SkipSpace(x, 1);
      DropCommaRuns(x + z, closers) == [x[k]] + DropCommaRuns(x[k + 1..] + z, closers)
  {
    var k := SkipSpace(x, 1);
    CommaRunAtAppend(x, z, closers);
    assert (x + z)[k] == x[k];
    DropAppend(x, z, k + 1);
  }

  /** The inductive step of `DropCommaRunsAppend` when the first character of `x` is kept. */
  lemma AppendAfterChar(x: string, z: string, closers: set<char>)
    requires x != [] && !CommaRunAt(x, closers)
    requires z == [] || (!IsSpace(z[0]) && z[0] !in closers)
    requires DropCommaRuns(x[1..] + z, closers) == DropCommaRuns(x[1..], closers) + DropCommaRuns(z, closers)
    ensures DropCommaRuns(x + z, closers) == DropCommaRuns(x, closers) + DropCommaRuns(z, closers)
  {
    UnfoldCharAppend(x, z, closers);
    var c, a, b := x[0], DropCommaRuns(x[1..], closers), DropCommaRuns(z, closers);
    assert DropCommaRuns(x, closers) == [c] + a;
    AppendAssoc([c], a, b);
  }

  lemma UnfoldCharAppend(x: string, z: string, closers: set<char>)
    requires x != [] && !CommaRunAt(x, closers)
    requires z == [] || (!IsSpace(z[0]) && z[0] !in closers)
    ensures DropCommaRuns(x + z, closers) == [x[0]] + DropCommaRuns(x[1..] + z, closers)
  {
    CommaRunAtAppend(x, z, closers);
    DropAppend(x, z, 1);
  }

  /** Whether a nonempty text opens with a comma run is not changed by what follows it. */
  lemma CommaRunAtAppend(x: string, z: string, closers: set<char>)
    requires x != []
    requires z == [] || (!IsSpace(z[0]) && z[0] !in closers)
    ensures CommaRunAt(x + z, closers) == CommaRunAt(x, closers)
    ensures CommaRunAt(x, closers) ==> SkipSpace(x + z, 1) == SkipSpace(x, 1) < |x|
    ensures (x + z)[0] == x[0]
  {
    var xz := x + z;
    assert xz[0] == x[0];
    SkipSpaceAppend(x, z, 1);
    var k := SkipSpace(x, 1);
    if k < |x| {
      assert xz[k] == x[k];
    } else if z != [] {
      assert SkipSpace(z, 0) == 0;
      assert xz[|x|] == z[0];
    }
  }

  /** A comma, a whitespace run and a closer shrink to the closer. */
  lemma DropCommaRunsRun(w: string, b: char, y: string, closers: set<char>)
    requires forall i :: 0 <= i < |w| ==> IsSpace(w[i])
    requires b in closers && !IsSpace(b)
    ensures DropCommaRuns([','] + w + [b] + y, closers) == [b] + DropCommaRuns(y, closers)
  {
    var s := [','] + w + [b] + y;
    AppendAssoc([','], w + [b], y);
    AppendAssoc([','], w, [b]);
    AppendAssoc(w, [b], y);
    SkipSpaceShift([','], w + [b] + y, 0);
    SkipSpaceUpTo(w, [b] + y);
    assert s[|w| + 1] == b;
    DropLeft([','] + w + [b], y);
    UnfoldRun(s, closers);
  }

  lemma {:induction false} SkipSpaceUpTo(w: string, z: string)
    requires forall i :: 0 <= i < |w| ==> IsSpace(w[i])
    requires z != [] && !IsSpace(z[0])
    ensures SkipSpace(w + z, 0) == |w|
  {
    SkipSpaceAppend(w, z, 0);
    SkipSpaceAll(w, 0);
  }

  lemma {:induction false} SkipSpaceAll(w: string, j: nat)
    requires j <= |w|
    requires forall i :: 0 <= i < |w| ==> IsSpace(w[i])
    ensures SkipSpace(w, j) == |w|
    decreases |w| - j
  {
    if j < |w| {
      SkipSpaceAll(w, j + 1);
    }
  }

  /**
   * A trailing comma before a closing bracket disappears and everything around
   * it is repaired on its own (generator.py:136).
   */
  lemma TrailingCommaRemoved(x: string, w: string, b: char, y: string, closers: set<char>)
    requires forall i :: 0 <= i < |w| ==> IsSpace(w[i])
    requires b in closers && !IsSpace(b) && ',' !in closers
    ensures DropCommaRuns(x + [','] + w + [b] + y, closers)
         == DropCommaRuns(x, closers) + [b] + DropCommaRuns(y, closers)
  {
    var z := [','] + w + [b] + y;
    AppendAssoc(x, [','] + w + [b], y);
    AppendAssoc(x, [','] + w, [b]);
    AppendAssoc(x, [','], w);
    DropCommaRunsAppend(x, z, closers);
    DropCommaRunsRun(w, b, y, closers);
    AppendAssoc(DropCommaRuns(x, closers), [b], DropCommaRuns(y, closers));
  }

  /** Text without commas is left alone. */
  lemma {:induction false} DropCommaRunsNoComma(s: string, closers: set<char>)
    requires ',' !in s
    ensures DropCommaRuns(s, closers) == s
    decreases |s|
  {
    if s != [] {
      assert ',' !in s[1..] by {
        forall i | 0 <= i < |s[1..]| ensures s[1..][i] != ',' { assert s[1..][i] == s[i + 1]; }
      }
      DropCommaRunsNoComma(s[1..], closers);
      assert s == [s[0]] + s[1..];
    }
  }

  /** No comma of `s` starts a whitespace run that ends at one of `closers`. */
  predicate NoCommaRun(s: string, closers: set<char>) {
    forall i :: 0 <= i < |s| && s[i] == ',' ==> !CommaRunAt(s[i..], closers)
  }

  lemma {:induction false} DropCommaRunsNoRun(s: string, closers: set<char>)
    requires NoCommaRun(s, closers)
    ensures DropCommaRuns(s, closers) == s
    decreases |s|
  {
    if s != [] {
      assert !CommaRunAt(s, closers) by {
        if s[0] == ',' {
          assert s[0..] == s;
        }
      }
      forall i | 0 <= i < |s[1..]| && s[1..][i] == ','
        ensures !CommaRunAt(s[1..][i..], closers)
      {
        assert s[1..][i..] == s[i + 1..];
      }
      DropCommaRunsNoRun(s[1..], closers);
      assert s == [s[0]] + s[1..];
    }
  }

  /** A comma, a whitespace run and a character that is no space all lie in one comma run, ended by that character. */
  lemma CommaRunEnd(w: string, b: char, y: string)
    requires forall i :: 0 <= i < |w| ==> IsSpace(w[i])
    requires !IsSpace(b)
    ensures SkipSpace([','] + w + [b] + y, 1) == |w| + 1
  {
    SkipSpaceShift([','], w + [b] + y, 0);
    SkipSpaceUpTo(w, [b] + y);
    assert w + ([b] + y) == w + [b] + y;
    assert [','] + (w + [b] + y) == [','] + w + [b] + y;
  }

  /** A character that is neither a comma, whitespace nor a closer splits the repair in two. */
  lemma DropCommaRunsKeepChar(x: string, c: char, y: string, closers: set<char>)
    requires c != ',' && !IsSpace(c) && c !in closers
    ensures DropCommaRuns(x + [c] + y, closers) == DropCommaRuns(x, closers) + [c] + DropCommaRuns(y, closers)
  {
    AppendAssoc(x, [c], y);
    DropCommaRunsAppend(x, [c] + y, closers);
    UnfoldChar([c] + y, closers);
    ConsTail(c, y);
    AppendAssoc(DropCommaRuns(x, closers), [c], DropCommaRuns(y, closers));
  }

  /**
   * A comma and whitespace before a character that is not one of `closers`
   * are kept, and the text around them is repaired on its own.
   */
  lemma DropCommaRunsPastRun(x: string, w: string, b: char, y: string, closers: set<char>)
    requires forall i :: 0 <= i < |w| ==> IsSpace(w[i])
    requires b != ',' && !IsSpace(b) && b !in closers && ',' !in closers
    ensures DropCommaRuns(x + [','] + w + [b] + y, closers)
         == DropCommaRuns(x, closers) + [','] + w + [b] + DropCommaRuns(y, closers)
  {
    var s := [','] + w + [b] + y;
    Regroup(x, [','], w, [b], y);
    DropCommaRunsAppend(x, s, closers);
    CommaRunKept(w, b, y, closers);
    Regroup(DropCommaRuns(x, closers), [','], w, [b], DropCommaRuns(y, closers));
  }

  /** A comma followed by whitespace and a character that is not a closer is kept with that whitespace. */
  lemma CommaRunKept(w: string, b: char, y: string, closers: set<char>)
    requires forall i :: 0 <= i < |w| ==> IsSpace(w[i])
    requires b != ',' && !IsSpace(b) && b !in closers && ',' !in closers
    ensures DropCommaRuns([','] + w + [b] + y, closers) == [','] + w + [b] + DropCommaRuns(y, closers)
  {
    var s := [','] + w + [b] + y;
    AppendAssoc([','] + w, [b], y);
    AppendAssoc([','], w, [b] + y);
    CommaRunEnd(w, b, y);
    assert s[|w| + 1] == b;
    UnfoldChar(s, closers);
    assert s[1..] == w + [b] + y;
    DropCommaRunsKeepChar(w, b, y, closers);
    assert ',' !in w by {
      assert !IsSpace(',');
    }
    DropCommaRunsNoComma(w, closers);
    AppendAssoc([','], w + [b], DropCommaRuns(y, closers));
    AppendAssoc([','], w, [b]);
  }

  /** The characters that are neither commas nor whitespace, in order. */
  function Solid(s: string): (r: string)
    ensures |r| <= |s|
  {
    if s == [] then [] else (if s[0] == ',' || IsSpace(s[0]) then [] else [s[0]]) + Solid(s[1..])
  }

  lemma {:induction false} SolidAppend(x: string, z: string)
    ensures Solid(x + z) == Solid(x) + Solid(z)
    decreases |x|
  {
    if x == [] {
      assert x + z == z;
    } else {
      assert (x + z)[1..] == x[1..] + z;
      SolidAppend(x[1..], z);
    }
  }

  lemma {:induction false} SolidOfSpaces(s: string, j: nat, k: nat)
    requires j <= k <= |s|
    requires forall m :: j <= m < k ==> IsSpace(s[m])
    ensures Solid(s[j..k]) == []
    decreases k - j
  {
    if j < k {
      assert s[j..k][1..] == s[j + 1..k];
      SolidOfSpaces(s, j + 1, k);
    }
  }

  lemma SolidSplit(s: string, k: nat)
    requires k <= |s|
    ensures Solid(s) == Solid(s[..k]) + Solid(s[k..])
  {
    assert s == s[..k] + s[k..];
    SolidAppend(s[..k], s[k..]);
  }

  lemma SolidAt(s: string, k: nat)
    requires k < |s|
    ensures Solid(s[k..]) == (if s[k] == ',' || IsSpace(s[k]) then [] else [s[k]]) + Solid(s[k + 1..])
  {
    assert s[k..][1..] == s[k + 1..];
  }

  /** A comma followed by whitespace holds nothing solid. */
  lemma SolidOfCommaRun(s: string, k: nat)
    requires 1 <= k <= |s| && s[0] == ','
    requires forall m :: 1 <= m < k ==> IsSpace(s[m])
    ensures Solid(s[..k]) == []
  {
    assert s[..k][1..] == s[1..k];
    SolidOfSpaces(s, 1, k);
  }

  lemma UnfoldChar(s: string, closers: set<char>)
    requires s != [] && !CommaRunAt(s, closers)
    ensures DropCommaRuns(s, closers) == [s[0]] + DropCommaRuns(s[1..], closers)
  {
  }

  /** Only commas and whitespace are ever removed: every other character survives, in order. */
  lemma {:induction false} DropCommaRunsKeepsSolid(s: string, closers: set<char>)
    requires forall c :: c in closers ==> c != ',' && !IsSpace(c)
    ensures Solid(DropCommaRuns(s, closers)) == Solid(s)
    decreases |s|
  {
    if s != [] {
      if CommaRunAt(s, closers) {
        var k := SkipSpace(s, 1);
        UnfoldRun(s, closers);
        DropCommaRunsKeepsSolid(s[k + 1..], closers);
        SolidAppend([s[k]], DropCommaRuns(s[k + 1..], closers));
        SolidSplit(s, k);
        SolidAt(s, k);
        SkipSpaceSkipped(s, 1);
        SolidOfCommaRun(s, k);
      } else {
        UnfoldChar(s, closers);
        DropCommaRunsKeepsSolid(s[1..], closers);
        SolidAppend([s[0]], DropCommaRuns(s[1..], closers));
      }
    }
  }

  /** No smart quote occurs in `s`. */
  predicate NoSmartQuote(s: string) {
    '\U{201C}' !in s && '\U{201D}' !in s && '\U{2019}' !in s
  }

  /** Text with no smart quote and no comma run before a closer is its own repair. */
  lemma RepairedUnchanged(s: string)
    requires NoSmartQuote(s) && NoCommaRun(s, {']', '}'})
    ensures Repaired(s) == s
  {
    ReplaceCharAbsent(s, '\U{201C}', '"');
    ReplaceCharAbsent(s, '\U{201D}', '"');
    ReplaceCharAbsent(s, '\U{2019}', '\'');
    DropCommaRunsNoRun(s, {']', '}'});
  }

  /**
   * A strict success is returned as it is; otherwise the result is the one
   * parse of the repaired text, and when the repairs find nothing to change
   * the strict error is raised again (generator.py:126-141).
   */
  lemma SafeJsonLoadSpec(s: string, parse: Parser)
    ensures parse(s).Ok? ==> SafeJsonLoad(s, parse) == parse(s)
    ensures parse(s).Err? ==> SafeJsonLoad(s, parse) == parse(Repaired(s))
    ensures NoSmartQuote(s) && NoCommaRun(s, {']', '}'}) ==> SafeJsonLoad(s, parse) == parse(s)
  {
    if NoSmartQuote(s) && NoCommaRun(s, {']', '}'}) {
      RepairedUnchanged(s);
    }
  }

  /**
   * A reply such as `[{"a": 1}, {"b": 2},\n]` whose strict parse fails is
   * loaded as the parse of the text without its trailing comma: every other
   * comma of the text before it is followed by something other than a closer,
   * no smart quote occurs, and any whitespace may precede the bracket.
   */
  lemma TrailingCommaRepaired(x: string, w: string, b: char, parse: Parser)
    requires NoSmartQuote(x) && NoCommaRun(x, {']', '}'})
    requires forall i :: 0 <= i < |w| ==> IsSpace(w[i])
    requires b == ']' || b == '}'
    requires parse(x + [','] + w + [b]).Err?
    ensures SafeJsonLoad(x + [','] + w + [b], parse) == parse(x + [b])
  {
    var s := x + [','] + w + [b];
    StraightTrailing(x, w, b);
    AppendNil(s);
    TrailingCommaRemoved(x, w, b, [], {']', '}'});
    DropCommaRunsNoRun(x, {']', '}'});
    AppendNil(x + [b]);
    assert Repaired(s) == x + [b];
  }

  /** Straightening quotes leaves a text with no smart quote alone. */
  lemma StraightTrailing(x: string, w: string, b: char)
    requires NoSmartQuote(x)
    requires forall i :: 0 <= i < |w| ==> IsSpace(w[i])
    requires b == ']' || b == '}'
    ensures StraightenQuotes(x + [','] + w + [b]) == x + [','] + w + [b]
  {
    var s := x + [','] + w + [b];
    forall c | c == '\U{201C}' || c == '\U{201D}' || c == '\U{2019}'
      ensures c !in s
    {
      assert !IsSpace(c);
    }
    ReplaceCharAbsent(s, '\U{201C}', '"');
    ReplaceCharAbsent(s, '\U{201D}', '"');
    ReplaceCharAbsent(s, '\U{2019}', '\'');
  }
}
