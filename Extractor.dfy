/**
 * `_extract_json_from_text` of generator.py: pick the JSON payload out of a
 * model reply.  Brackets are counted without regard to quoting, exactly as
 * the Python loops do, so a bracket inside a JSON string is counted too.
 */
module Extractor {
  import opened Wrappers
  import opened PyStr

  /** Occurrences of `c` in `s`. */
  function Count(s: string, c: char): (n: nat)
    ensures n <= |s|
  {
    if s == [] then 0 else Count(s[..|s| - 1], c) + (if s[|s| - 1] == c then 1 else 0)
  }

  lemma CountSnoc(s: string, i: nat, j: nat, c: char)
    requires i <= j < |s|
    ensures Count(s[i..j + 1], c) == Count(s[i..j], c) + (if s[j] == c then 1 else 0)
  {
    SlicePrefix(s, i, j + 1, j - i);
  }

  /** The bracket depth the source's counter holds after scanning `s`. */
  function Balance(s: string, open: char, close: char): int {
    Count(s, open) - Count(s, close)
  }

  /** Position `i` holds the `close` that brings the depth counted from `a` back to zero. */
  predicate ClosesAt(t: string, a: nat, i: nat, open: char, close: char) {
    a <= i < |t| && t[i] == close && Balance(t[a..i + 1], open, close) == 0
  }

  /** The first position at or after `from` that closes the bracket opened at `a`. */
  function FindClose(t: string, a: nat, from: nat, open: char, close: char): (r: Option<nat>)
    requires a <= from <= |t|
    ensures r.Some? ==> from <= r.value && ClosesAt(t, a, r.value, open, close)
    ensures forall j :: from <= j < (if r.Some? then r.value else |t|) ==> !ClosesAt(t, a, j, open, close)
    decreases |t| - from
  {
    if from == |t| then None
    else if ClosesAt(t, a, from, open, close) then Some(from)
    else FindClose(t, a, from + 1, open, close)
  }

  /**
   * `s` opens with `open`, closes with `close`, holds as many of one as of the
   * other, and every proper prefix holds more `open` than `close`.
   */
  predicate BalancedSpan(s: string, open: char, close: char) {
    && |s| >= 2 && s[0] == open && s[|s| - 1] == close
    && Count(s, open) == Count(s, close)
    && forall m :: 1 <= m < |s| ==> StillOpen(s, m, open, close)
  }

  /** The first `m` characters of `s` hold more `open` than `close`. */
  predicate StillOpen(s: string, m: nat, open: char, close: char)
    requires m <= |s|
  {
    Count(s[..m], open) > Count(s[..m], close)
  }

  lemma {:induction false} PrefixesStayOpen(t: string, a: nat, i: nat, m: nat, open: char, close: char)
    requires a < |t| && t[a] == open && open != close
    requires a <= i < |t| && forall j :: a <= j < i ==> !ClosesAt(t, a, j, open, close)
    requires 1 <= m && a + m <= i
    ensures Balance(t[a..a + m], open, close) >= 1
    decreases m
  {
    if m == 1 {
      CountSnoc(t, a, a, open);
      CountSnoc(t, a, a, close);
    } else {
      PrefixesStayOpen(t, a, i, m - 1, open, close);
      CountSnoc(t, a, a + m - 1, open);
      CountSnoc(t, a, a + m - 1, close);
      assert !ClosesAt(t, a, a + m - 1, open, close);
    }
  }

  /** The span the depth counter returns is balanced (generator.py:64-71). */
  lemma {:induction false} FirstCloseIsBalanced(t: string, a: nat, open: char, close: char)
    requires a < |t| && t[a] == open && open != close
    requires FindClose(t, a, a, open, close).Some?
    ensures BalancedSpan(t[a..FindClose(t, a, a, open, close).value + 1], open, close)
  {
    var i := FindClose(t, a, a, open, close).value;
    var s := t[a..i + 1];
    if i == a {
      CountSnoc(t, a, a, open);
      CountSnoc(t, a, a, close);
      assert false;
    }
    forall m | 1 <= m < |s|
      ensures StillOpen(s, m, open, close)
    {
      SlicePrefix(t, a, i + 1, m);
      PrefixesStayOpen(t, a, i, m, open, close);
    }
  }

  /**
   * The depth-counting loop the source writes three times (generator.py:64-71,
   * 76-82, 100-109): the index of the matching `close`, or -1.
   */
  method ScanToMatch(t: string, start: nat, open: char, close: char) returns (end: int)
    requires start <= |t| && open != close
    ensures -1 <= end < |t|
    ensures end == -1 <==> FindClose(t, start, start, open, close).None?
    ensures end != -1 ==> FindClose(t, start, start, open, close) == Some(end as nat)
  {
    var depth := 0;
    for i := start to |t|
      invariant depth == Balance(t[start..i], open, close)
      invariant FindClose(t, start, i, open, close) == FindClose(t, start, start, open, close)
    {
      CountSnoc(t, start, i, open);
      CountSnoc(t, start, i, close);
      if t[i] == open {
        depth := depth + 1;
      } else if t[i] == close {
        depth := depth - 1;
        if depth == 0 {
          return i;
        }
      }
    }
    return -1;
  }

  /**
   * Where the next sibling object lies after position `j`: whitespace, a
   * comma, whitespace, then a `{` whose depth count returns to zero.  The
   * result is the positions of that `{` and of its matching `}`.
   */
  function NextObject(t: string, j: nat): (r: Option<(nat, nat)>)
    requires j <= |t|
    ensures r.Some? ==> j < r.value.0 <= r.value.1 < |t| && t[r.value.0] == '{'
    ensures r.Some? ==> FindClose(t, r.value.0, r.value.0, '{', '}') == Some(r.value.1)
  {
    var j1 := SkipSpace(t, j);
    if j1 < |t| && t[j1] == ',' then
      var j2 := SkipSpace(t, j1 + 1);
      if j2 < |t| && t[j2] == '{' then
        match FindClose(t, j2, j2, '{', '}')
        case Some(k) => Some((j2, k))
        case None => None
      else None
    else None
  }

  /**
   * The text from `j` up to the `{` at `a` is whitespace, one comma at `c`,
   * and whitespace (generator.py:90-97).
   */
  predicate Separated(t: string, j: nat, c: nat, a: nat) {
    && j <= c < a < |t|
    && (forall m :: j <= m < c ==> IsSpace(t[m]))
    && t[c] == ','
    && (forall m :: c < m < a ==> IsSpace(t[m]))
    && t[a] == '{'
  }

  /** A found sibling is separated from `j` by whitespace, one comma and whitespace. */
  lemma NextObjectSeparated(t: string, j: nat)
    requires j <= |t| && NextObject(t, j).Some?
    ensures exists c :: Separated(t, j, c, NextObject(t, j).value.0)
  {
    var c := SkipSpace(t, j);
    SkipSpaceSkipped(t, j);
    SkipSpaceSkipped(t, c + 1);
    assert Separated(t, j, c, NextObject(t, j).value.0);
  }

  /** Whitespace, a comma, whitespace and a balanced `{...}` are always found. */
  lemma NextObjectFinds(t: string, j: nat, c: nat, a: nat)
    requires Separated(t, j, c, a) && FindClose(t, a, a, '{', '}').Some?
    ensures NextObject(t, j) == Some((a, FindClose(t, a, a, '{', '}').value))
  {
    SkipSpaceAt(t, j, c);
    SkipSpaceAt(t, c + 1, a);
  }

  /**
   * No sibling follows `j` exactly when no separator leads from `j` to a `{`
   * whose depth count returns to zero; any other text ends the run.
   */
  lemma NextObjectNone(t: string, j: nat)
    requires j <= |t|
    ensures NextObject(t, j).None? <==>
      forall c, a :: Separated(t, j, c, a) ==> FindClose(t, a, a, '{', '}').None?
  {
    if NextObject(t, j).Some? {
      NextObjectSeparated(t, j);
    }
    forall c, a | Separated(t, j, c, a) && FindClose(t, a, a, '{', '}').Some?
      ensures NextObject(t, j).Some?
    {
      NextObjectFinds(t, j, c, a);
    }
  }

  /**
   * The sibling objects that follow position `j`, each introduced by a comma
   * with optional whitespace around it (generator.py:86-111).
   */
  function Siblings(t: string, j: nat): (objs: seq<string>)
    requires j <= |t|
    decreases |t| - j
  {
    match NextObject(t, j)
    case Some((a, k)) => [t[a..k + 1]] + Siblings(t, k + 1)
    case None => []
  }

  /** Every element of `objs` is a balanced `{...}` span. */
  predicate AllObjects(objs: seq<string>) {
    objs == [] || (BalancedSpan(objs[0], '{', '}') && AllObjects(objs[1..]))
  }

  lemma {:induction false} AllObjectsAt(objs: seq<string>, n: nat)
    requires AllObjects(objs) && n < |objs|
    ensures BalancedSpan(objs[n], '{', '}')
  {
    if n > 0 {
      AllObjectsAt(objs[1..], n - 1);
    }
  }

  /** Every collected sibling is a balanced `{...}` span. */
  lemma {:induction false} SiblingsAreObjects(t: string, j: nat)
    requires j <= |t|
    ensures AllObjects(Siblings(t, j))
    decreases |t| - j
  {
    match NextObject(t, j)
    case Some((a, k)) =>
      SiblingsAreObjects(t, k + 1);
      SiblingsStep(t, j, a, k);
      FirstCloseIsBalanced(t, a, '{', '}');
      ConsTail(t[a..k + 1], Siblings(t, k + 1));
    case None =>
  }

  /**
   * `re.search(r'(\[.*\])', s, flags=re.S)` and its `{...}` twin: from the first
   * `open` to the last `close`, when some `close` follows the first `open`.
   */
  function GreedySpan(s: string, open: char, close: char): (r: Option<string>) {
    var p := Find(s, open);
    var q := RFind(s, close);
    if 0 <= p < q then Some(s[p..q + 1]) else None
  }

  /** The greedy match exists exactly when some `open` precedes some `close`. */
  lemma GreedySpanSpec(s: string, open: char, close: char)
    ensures GreedySpan(s, open, close).Some? <==>
      exists p, q :: 0 <= p < q < |s| && s[p] == open && s[q] == close
    ensures GreedySpan(s, open, close).Some? ==>
      var r := GreedySpan(s, open, close).value;
      exists p, q :: 0 <= p < q < |s| && r == s[p..q + 1]
        && s[p] == open && open !in s[..p] && s[q] == close && close !in s[q + 1..]
  {
    var p := Find(s, open);
    var q := RFind(s, close);
    if exists p', q' :: 0 <= p' < q' < |s| && s[p'] == open && s[q'] == close {
      var p', q' :| 0 <= p' < q' < |s| && s[p'] == open && s[q'] == close;
      assert open in s;
      assert close in s;
    }
  }

  /** The first-array path (generator.py:60-71): the balanced span from the first `[`. */
  function ArraySpan(t: string): (r: Option<string>) {
    var a := Find(t, '[');
    if a != -1 && FindClose(t, a, a, '[', ']').Some? then
      Some(t[a..FindClose(t, a, a, '[', ']').value + 1])
    else None
  }

  /** The first `{`...`}` object of `t` followed by its siblings (generator.py:73-111). */
  function ObjectRun(t: string): (objs: seq<string>)
    requires Find(t, '{') != -1 && FindClose(t, Find(t, '{'), Find(t, '{'), '{', '}').Some?
  {
    var o := Find(t, '{');
    var i := FindClose(t, o, o, '{', '}').value;
    [t[o..i + 1]] + Siblings(t, i + 1)
  }

  /**
   * The object path (generator.py:72-114): the first balanced `{...}` and its
   * comma-separated siblings, wrapped into an array when there is more than one.
   */
  function ObjectSpan(t: string): (r: Option<string>) {
    var o := Find(t, '{');
    if o != -1 && FindClose(t, o, o, '{', '}').Some? then
      var objs := ObjectRun(t);
      Some(if |objs| > 1 then "[" + Join(",", objs) + "]" else objs[0])
    else None
  }

  /** The regex fallbacks and the last resort (generator.py:115-123). */
  function LooseSpan(t: string): (r: string) {
    if GreedySpan(t, '[', ']').Some? then GreedySpan(t, '[', ']').value
    else if GreedySpan(t, '{', '}').Some? then GreedySpan(t, '{', '}').value
    else t
  }

  /** What `_extract_json_from_text` returns for `text` (generator.py:52-123). */
  function Extracted(text: string): string {
    var t := Strip(text);
    if ArraySpan(t).Some? then ArraySpan(t).value
    else if ObjectSpan(t).Some? then ObjectSpan(t).value
    else LooseSpan(t)
  }

  /** The whitespace-skipping loops of generator.py:90-91 and 95-96. */
  method SkipSpaces(t: string, j: nat) returns (k: nat)
    requires j <= |t|
    ensures k == SkipSpace(t, j)
  {
    k := j;
    while k < |t| && IsSpace(t[k])
      invariant j <= k <= |t|
      invariant SkipSpace(t, k) == SkipSpace(t, j)
    {
      k := k + 1;
    }
  }

  lemma NextObjectFound(t: string, j0: nat, j1: nat, j2: nat, k: nat)
    requires j0 <= |t| && SkipSpace(t, j0) == j1 && j1 < |t| && t[j1] == ','
    requires SkipSpace(t, j1 + 1) == j2 && j2 < |t| && t[j2] == '{'
    requires FindClose(t, j2, j2, '{', '}') == Some(k)
    ensures NextObject(t, j0) == Some((j2, k))
  {
  }

  lemma SiblingsStep(t: string, j: nat, a: nat, k: nat)
    requires j <= |t| && NextObject(t, j) == Some((a, k))
    ensures Siblings(t, j) == [t[a..k + 1]] + Siblings(t, k + 1)
  {
  }

  lemma SiblingsFound(t: string, j0: nat, j1: nat, j2: nat, k: nat)
    requires j0 <= |t| && SkipSpace(t, j0) == j1 && j1 < |t| && t[j1] == ','
    requires SkipSpace(t, j1 + 1) == j2 && j2 < |t| && t[j2] == '{'
    requires FindClose(t, j2, j2, '{', '}') == Some(k)
    ensures Siblings(t, j0) == [t[j2..k + 1]] + Siblings(t, k + 1)
  {
    NextObjectFound(t, j0, j1, j2, k);
    SiblingsStep(t, j0, j2, k);
  }

  lemma NextObjectEnd(t: string, j0: nat, j1: nat)
    requires j0 <= |t| && SkipSpace(t, j0) == j1
    requires j1 < |t| && t[j1] == ',' ==>
      var j2 := SkipSpace(t, j1 + 1);
      j2 < |t| && t[j2] == '{' ==> FindClose(t, j2, j2, '{', '}').None?
    ensures NextObject(t, j0).None?
  {
  }

  lemma SiblingsEnd(t: string, j0: nat, j1: nat)
    requires j0 <= |t| && SkipSpace(t, j0) == j1
    requires j1 < |t| && t[j1] == ',' ==>
      var j2 := SkipSpace(t, j1 + 1);
      j2 < |t| && t[j2] == '{' ==> FindClose(t, j2, j2, '{', '}').None?
    ensures Siblings(t, j0) == []
  {
    NextObjectEnd(t, j0, j1);
  }

  /**
   * One pass of the sibling loop's body (generator.py:90-109): skip whitespace, a
   * comma and whitespace, then scan a `{...}` object.  `scanned` tells whether an
   * opening brace was reached; `obj` is the object when it also closed.
   */
  method NextSibling(t: string, j: nat) returns (scanned: bool, obj: Option<string>, next: nat)
    requires j <= |t|
    ensures next <= |t|
    ensures scanned ==> j < next
    ensures obj.Some? ==> scanned && Siblings(t, j) == [obj.value] + Siblings(t, next)
    ensures obj.None? ==> Siblings(t, j) == [] && (scanned ==> Siblings(t, next) == [])
  {
    var j1 := SkipSpaces(t, j);
    next := j1;
    scanned, obj := false, None;
    if j1 < |t| && t[j1] == ',' {
      next := SkipSpaces(t, j1 + 1);
      if next < |t| && t[next] == '{' {
        scanned := true;
        var k := ScanToMatch(t, next, '{', '}');
        if k != -1 {
          SiblingsFound(t, j, j1, next, k);
          obj := Some(t[next..k + 1]);
          next := k + 1;
        } else {
          SiblingsEnd(t, j, j1);
          SiblingsEnd(t, next, next);
        }
        return;
      }
    }
    SiblingsEnd(t, j, j1);
  }

  /**
   * The sibling loop of generator.py:86-111: starting after the first object,
   * keep collecting `, {...}` objects while they follow.
   */
  method CollectObjects(t: string, candidate: string, i: nat) returns (objs: seq<string>)
    requires i < |t|
    ensures objs == [candidate] + Siblings(t, i + 1)
  {
    ghost var all := [candidate] + Siblings(t, i + 1);
    var j := i + 1;
    objs := [candidate];
    while true
      invariant i + 1 <= j <= |t|
      invariant objs + Siblings(t, j) == all
      decreases |t| - j
    {
      var scanned, obj, next := NextSibling(t, j);
      if scanned {
        if obj.Some? {
          AppendAssoc(objs, [obj.value], Siblings(t, next));
          objs := objs + [obj.value];
        }
        j := next;
        continue;
      }
      AppendNil(objs);
      break;
    }
  }

  lemma ObjectSpanFound(t: string, o: int, i: nat, objs: seq<string>)
    requires Find(t, '{') == o && o != -1
    requires FindClose(t, o, o, '{', '}') == Some(i)
    requires objs == [t[o..i + 1]] + Siblings(t, i + 1)
    ensures ObjectSpan(t) == Some(if |objs| > 1 then "[" + Join(",", objs) + "]" else t[o..i + 1])
  {
    assert ObjectRun(t) == objs;
  }

  /** Lines 60-71: the balanced span from the first `[`, if the depth count returns to zero. */
  method ScanArray(t: string) returns (r: Option<string>)
    ensures r == ArraySpan(t)
  {
    var arrayStart := Find(t, '[');
    if arrayStart != -1 {
      var e := ScanToMatch(t, arrayStart, '[', ']');
      if e != -1 {
        return Some(t[arrayStart..e + 1]);
      }
    }
    return None;
  }

  /** Lines 72-114: the first balanced object and its siblings. */
  method ScanObjects(t: string) returns (r: Option<string>)
    ensures r == ObjectSpan(t)
  {
    var objStart := Find(t, '{');
    if objStart != -1 {
      var i := ScanToMatch(t, objStart, '{', '}');
      if i != -1 {
        var candidate := t[objStart..i + 1];
        var objs := CollectObjects(t, candidate, i);
        ObjectSpanFound(t, objStart, i, objs);
        if |objs| > 1 {
          return Some("[" + Join(",", objs) + "]");
        }
        return Some(candidate);
      }
    }
    return None;
  }

  /** The extractor as the source writes it, with its scanning loops. */
  method ExtractJsonFromText(text: string) returns (r: string)
    ensures r == Extracted(text)
  {
    var t := Strip(text);
    var arr := ScanArray(t);
    if arr.Some? {
      return arr.value;
    }
    var obj := ScanObjects(t);
    if obj.Some? {
      return obj.value;
    }
    var m := GreedySpan(t, '[', ']');
    if m.Some? {
      return m.value;
    }
    var m2 := GreedySpan(t, '{', '}');
    if m2.Some? {
      return m2.value;
    }
    return t;
  }

  /** The first-array path wins whenever it finds a balanced span (generator.py:59-71). */
  lemma ExtractedArray(text: string)
    requires ArraySpan(Strip(text)).Some?
    ensures Extracted(text) == ArraySpan(Strip(text)).value
  {
  }

  /** The array span starts at the first `[` and is balanced. */
  lemma ArraySpanBalanced(t: string)
    requires ArraySpan(t).Some?
    ensures var a := Find(t, '[');
      && 0 <= a && '[' !in t[..a]
      && ArraySpan(t).value == t[a..a + |ArraySpan(t).value|]
      && BalancedSpan(ArraySpan(t).value, '[', ']')
  {
    FirstCloseIsBalanced(t, Find(t, '['), '[', ']');
  }

  /**
   * When the stripped text holds a `[` whose depth count returns to zero, the
   * result is the balanced span from the first `[` (generator.py:59-71).
   */
  lemma ArrayPathIsBalanced(text: string)
    requires ArraySpan(Strip(text)).Some?
    ensures var t := Strip(text);
      var a := Find(t, '[');
      && 0 <= a && '[' !in t[..a]
      && Extracted(text) == t[a..a + |Extracted(text)|]
      && BalancedSpan(Extracted(text), '[', ']')
  {
    ExtractedArray(text);
    ArraySpanBalanced(Strip(text));
  }

  /** Without a balanced array, the object path wins whenever it finds a balanced object (generator.py:72-114). */
  lemma ExtractedObject(text: string)
    requires ArraySpan(Strip(text)).None? && ObjectSpan(Strip(text)).Some?
    ensures Extracted(text) == ObjectSpan(Strip(text)).value
  {
  }

  /** The collected objects are balanced, and the first starts at the first `{`. */
  lemma ObjectSpanShape(t: string)
    requires ObjectSpan(t).Some?
    ensures var objs := ObjectRun(t);
      && |objs| >= 1
      && (forall n :: 0 <= n < |objs| ==> BalancedSpan(objs[n], '{', '}'))
      && objs[0] == t[Find(t, '{')..Find(t, '{') + |objs[0]|]
      && ObjectSpan(t).value == (if |objs| > 1 then "[" + Join(",", objs) + "]" else objs[0])
  {
    var o := Find(t, '{');
    var i := FindClose(t, o, o, '{', '}').value;
    ConsTail(t[o..i + 1], Siblings(t, i + 1));
    ObjectRunObjects(t);
    AllObjectsBalanced(ObjectRun(t));
  }

  /** A separator and a balanced `{...}` after `j` make that object the next sibling. */
  lemma SiblingsNext(t: string, j: nat, c: nat, a: nat)
    requires Separated(t, j, c, a) && FindClose(t, a, a, '{', '}').Some?
    ensures var k := FindClose(t, a, a, '{', '}').value;
      Siblings(t, j) == [t[a..k + 1]] + Siblings(t, k + 1)
  {
    NextObjectFinds(t, j, c, a);
    SiblingsStep(t, j, a, FindClose(t, a, a, '{', '}').value);
  }

  /** The sibling run stops exactly where no separator leads to a balanced `{...}`. */
  lemma SiblingsNone(t: string, j: nat)
    requires j <= |t|
    ensures Siblings(t, j) == [] <==>
      forall c, a :: Separated(t, j, c, a) ==> FindClose(t, a, a, '{', '}').None?
  {
    NextObjectNone(t, j);
  }

  /** One past the `}` that closes the first object. */
  function FirstObjectEnd(t: string): (e: nat)
    requires ObjectSpan(t).Some?
    ensures e <= |t|
  {
    FindClose(t, Find(t, '{'), Find(t, '{'), '{', '}').value + 1
  }

  lemma ObjectRunIs(t: string)
    requires ObjectSpan(t).Some?
    ensures ObjectRun(t) == [t[Find(t, '{')..FirstObjectEnd(t)]] + Siblings(t, FirstObjectEnd(t))
  {
  }

  /**
   * The first object has siblings exactly when a separator follows it and
   * leads to a balanced `{...}`; otherwise the object path yields the first
   * object alone (generator.py:86-114).
   */
  lemma ObjectRunSiblings(t: string)
    requires ObjectSpan(t).Some?
    ensures |ObjectRun(t)| > 1 <==>
      exists c, a :: Separated(t, FirstObjectEnd(t), c, a) && FindClose(t, a, a, '{', '}').Some?
    ensures |ObjectRun(t)| == 1 ==> ObjectSpan(t) == Some(t[Find(t, '{')..FirstObjectEnd(t)])
  {
    ObjectRunIs(t);
    SiblingsNone(t, FirstObjectEnd(t));
  }

  /** After a separator and a balanced `{...}`, that object is the second one collected. */
  lemma ObjectRunSecond(t: string, c: nat, a: nat)
    requires ObjectSpan(t).Some?
    requires Separated(t, FirstObjectEnd(t), c, a) && FindClose(t, a, a, '{', '}').Some?
    ensures |ObjectRun(t)| > 1 && ObjectRun(t)[1] == t[a..FindClose(t, a, a, '{', '}').value + 1]
  {
    ObjectRunIs(t);
    SiblingsNext(t, FirstObjectEnd(t), c, a);
  }

  /** An empty object `{}` at `a` closes at `a + 1`. */
  lemma EmptyObjectCloses(t: string, a: nat)
    requires a + 1 < |t| && t[a] == '{' && t[a + 1] == '}'
    ensures FindClose(t, a, a, '{', '}') == Some(a + 1)
  {
    var s := t[a..a + 2];
    assert s[..1] == t[a..a + 1] && s[..1][..0] == [];
    assert Balance(t[a..a + 1], '{', '}') == 1;
    assert Balance(s, '{', '}') == 0;
    assert !ClosesAt(t, a, a, '{', '}');
    assert ClosesAt(t, a, a + 1, '{', '}');
    assert FindClose(t, a, a + 1, '{', '}') == Some(a + 1);
  }

  /** A text that opens with `{}` has that as its first object. */
  lemma LeadingEmptyObject(t: string)
    requires 2 <= |t| && t[0] == '{' && t[1] == '}'
    ensures ObjectSpan(t).Some? && Find(t, '{') == 0 && FirstObjectEnd(t) == 2
  {
    EmptyObjectCloses(t, 0);
  }

  /** A character other than whitespace and a comma ends the sibling run. */
  lemma SiblingsStop(t: string, j: nat, c: nat)
    requires j <= c < |t| && (forall m :: j <= m < c ==> IsSpace(t[m]))
    requires !IsSpace(t[c]) && t[c] != ','
    ensures Siblings(t, j) == []
  {
    SkipSpaceAt(t, j, c);
  }

  lemma SiblingsAtEnd(t: string)
    ensures Siblings(t, |t|) == []
  {
  }

  /** `{}`, a comma run and a final `{}` are collected as two objects. */
  lemma TwoEmptyObjects(t: string)
    requires |t| == 6 && t[0] == '{' && t[1] == '}' && t[2] == ',' && t[3] == ' ' && t[4] == '{' && t[5] == '}'
    ensures ObjectSpan(t).Some? && ObjectRun(t) == [t[0..2], t[4..6]]
  {
    LeadingEmptyObject(t);
    EmptyObjectCloses(t, 4);
    assert Separated(t, 2, 2, 4);
    SiblingsNext(t, 2, 2, 4);
    SiblingsAtEnd(t);
    ObjectRunIs(t);
  }

  /** Two collected objects are joined by a comma inside brackets. */
  lemma TwoObjectsWrapped(t: string, x: string, y: string)
    requires ObjectSpan(t).Some? && ObjectRun(t) == [x, y]
    ensures ObjectSpan(t) == Some("[" + x + "," + y + "]")
  {
    assert [x, y][1..] == [y];
    assert Join(",", [x, y]) == x + "," + y;
    assert "[" + (x + "," + y) + "]" == "[" + x + "," + y + "]";
  }

  /** Two objects joined by a comma become an array. */
  lemma ObjectSpanTwo(t: string)
    requires t == "{}, {}"
    ensures ObjectSpan(t) == Some("[{},{}]")
  {
    TwoEmptyObjects(t);
    TwoObjectsWrapped(t, t[0..2], t[4..6]);
    assert "[" + t[0..2] + "," + t[4..6] + "]" == "[{},{}]";
  }

  /** Text other than a comma after the first object ends the run. */
  lemma ObjectSpanOne(u: string)
    requires u == "{} x {}"
    ensures ObjectSpan(u) == Some("{}")
  {
    LeadingEmptyObject(u);
    SiblingsStop(u, 2, 3);
    ObjectRunSiblings(u);
    ObjectRunIs(u);
    assert u[0..2] == "{}";
  }

  lemma AllObjectsBalanced(objs: seq<string>)
    requires AllObjects(objs)
    ensures forall n :: 0 <= n < |objs| ==> BalancedSpan(objs[n], '{', '}')
  {
    forall n | 0 <= n < |objs|
      ensures BalancedSpan(objs[n], '{', '}')
    {
      AllObjectsAt(objs, n);
    }
  }

  lemma ObjectRunObjects(t: string)
    requires Find(t, '{') != -1 && FindClose(t, Find(t, '{'), Find(t, '{'), '{', '}').Some?
    ensures AllObjects(ObjectRun(t))
  {
    var o := Find(t, '{');
    var i := FindClose(t, o, o, '{', '}').value;
    FirstCloseIsBalanced(t, o, '{', '}');
    SiblingsAreObjects(t, i + 1);
    ConsTail(t[o..i + 1], Siblings(t, i + 1));
  }

  /** Without any `[` or `{`, the stripped text comes back unchanged (generator.py:59-61, 73, 116-123). */
  lemma NoBracketsGivesStripped(text: string)
    requires '[' !in text && '{' !in text
    ensures Extracted(text) == Strip(text)
  {
    var t := Strip(text);
    StripKeeps(text, '[');
    StripKeeps(text, '{');
  }
}
