/**
 * The older pipeline of prompts/generator.py: the regex extractor, the
 * repairs of `parse_llm_json`, the default-key sanitising loop and the
 * `"mixed"` fan-out of `generate_questions_from_text`.
 */
module LegacyGenerator {
  import opened Wrappers
  import opened PyStr
  import opened Json
  import Extractor
  import Repair

  /** Why the older pipeline raises. */
  datatype Failure =
    | UnknownType(qtype: string)             // prompts/generator.py:115-116
    | CallFailed(detail: string)             // the template could not be read or the model call raised
    | ParseError(detail: string, raw: string) // prompts/generator.py:78-80
    | NotIterable(parsed: JsonValue)         // `enumerate` of a number, a boolean or null

  /**
   * The template lookup, `str.format` and the model call of lines 118-121,
   * as one step from (source text, type, count, difficulty) to the reply text.
   */
  type Ask = (string, string, int, string) -> Result<string, string>

  const NoJsonFound: string := "No JSON array/object found in LLM response."

  /**
   * The count split of lines 95-97.  Dafny's `/` by a positive constant rounds
   * down like Python's `//`, also for negative `n`.
   */
  function MixedSplit(n: int): (counts: (nat, nat, nat))
    ensures counts.0 >= 1
    ensures counts.0 + counts.1 + counts.2 == if n >= 1 then n else 1
    ensures n <= 1 ==> counts == (1, 0, 0)
  {
    var mcq: nat := if n / 2 > 1 then n / 2 else 1;
    var tf: nat := if n / 4 > 0 then n / 4 else 0;
    var full: nat := if n - mcq - tf > 0 then n - mcq - tf else 0;
    (mcq, tf, full)
  }

  lemma MixedSplitExamples()
    ensures MixedSplit(1) == (1, 0, 0)
    ensures MixedSplit(10) == (5, 2, 3)
  {
  }

  /** Some `open` comes before some `close`, as the greedy regexes need. */
  predicate HasPair(s: string, open: char, close: char) {
    exists p, q :: 0 <= p < q < |s| && s[p] == open && s[q] == close
  }

  /** `_extract_json_from_text` of lines 42-55. */
  function RegexSnippet(text: string): Result<string, string> {
    match Extractor.GreedySpan(text, '[', ']')
    case Some(s) => Ok(s)
    case None =>
      match Extractor.GreedySpan(text, '{', '}')
      case Some(s) => Ok(s)
      case None => Err(NoJsonFound)
  }

  /**
   * The snippet runs from the first `[` to the last `]` when some `[` precedes
   * some `]`, else from the first `{` to the last `}`, else extraction raises
   * (prompts/generator.py:47-55).
   */
  lemma RegexSnippetSpec(text: string)
    ensures HasPair(text, '[', ']') ==>
      exists p, q :: 0 <= p < q < |text| && RegexSnippet(text) == Ok(text[p..q + 1])
        && text[p] == '[' && '[' !in text[..p] && text[q] == ']' && ']' !in text[q + 1..]
    ensures !HasPair(text, '[', ']') && HasPair(text, '{', '}') ==>
      exists p, q :: 0 <= p < q < |text| && RegexSnippet(text) == Ok(text[p..q + 1])
        && text[p] == '{' && '{' !in text[..p] && text[q] == '}' && '}' !in text[q + 1..]
    ensures !HasPair(text, '[', ']') && !HasPair(text, '{', '}') ==> RegexSnippet(text) == Err(NoJsonFound)
  {
    Extractor.GreedySpanSpec(text, '[', ']');
    Extractor.GreedySpanSpec(text, '{', '}');
  }

  /** `re.sub(r",\s*]", "]", …)` then `re.sub(r",\s*}", "}", …)` (lines 72-73). */
  function CommasFixed(s: string): string {
    Repair.DropCommaRuns(Repair.DropCommaRuns(s, {']'}), {'}'})
  }

  function Min(a: int, b: int): int {
    if a < b then a else b
  }

  /** The guard of line 75: a single quote somewhere, and no double quote in the first 50 characters. */
  predicate QuoteGuard(f: string) {
    '\'' in f && '"' !in f[..Min(50, |f|)]
  }

  /** Lines 75-76. */
  function QuotesFixed(f: string): string {
    if QuoteGuard(f) then Repair.ReplaceChar(f, '\'', '"') else f
  }

  /**
   * The conversion changes the text exactly when the guard holds, and then
   * turns every single quote into a double quote and nothing else
   * (prompts/generator.py:75-76).
   */
  lemma QuotesFixedSpec(f: string)
    ensures QuotesFixed(f) != f <==> QuoteGuard(f)
    ensures |QuotesFixed(f)| == |f|
    ensures QuoteGuard(f) ==> '\'' !in QuotesFixed(f)
    ensures QuoteGuard(f) ==> forall i :: 0 <= i < |f| ==> QuotesFixed(f)[i] == (if f[i] == '\'' then '"' else f[i])
  {
    if QuoteGuard(f) {
      var r := QuotesFixed(f);
      var i :| 0 <= i < |f| && f[i] == '\'';
      assert r[i] != f[i];
    }
  }

  /** The repaired snippet that `parse_llm_json` parses (lines 72-76). */
  function FixSnippet(snippet: string): string {
    QuotesFixed(CommasFixed(snippet))
  }

  /** `parse_llm_json`: the raw reply, else the repaired snippet; any failure becomes a `ValueError` carrying the reply (lines 57-80). */
  function ParseLlmJson(raw: string, parse: Parser): (r: Result<JsonValue, Failure>)
    ensures parse(raw).Ok? ==> r == Ok(parse(raw).value)
    ensures r.Ok? <==> parse(raw).Ok? || (RegexSnippet(raw).Ok? && parse(FixSnippet(RegexSnippet(raw).value)).Ok?)
    ensures r.Ok? && parse(raw).Err? ==> r == Ok(parse(FixSnippet(RegexSnippet(raw).value)).value)
    ensures r.Err? ==> r.error.ParseError? && r.error.raw == raw
    ensures parse(raw).Err? && !HasPair(raw, '[', ']') && !HasPair(raw, '{', '}') ==> r == Err(ParseError(NoJsonFound, raw))
  {
    RegexSnippetSpec(raw);
    if parse(raw).Ok? then Ok(parse(raw).value)
    else
      match RegexSnippet(raw)
      case Err(e) => Err(ParseError(e, raw))
      case Ok(snippet) =>
        match parse(FixSnippet(snippet))
        case Ok(v) => Ok(v)
        case Err(e) => Err(ParseError(e, raw))
  }

  /**
   * Wherever it occurs, a comma and the whitespace after it disappear before
   * either closer, and the text on each side is repaired on its own
   * (prompts/generator.py:72-73).
   */
  lemma TrailingCommaDropped(x: string, w: string, b: char, y: string)
    requires forall i :: 0 <= i < |w| ==> IsSpace(w[i])
    requires b == ']' || b == '}'
    ensures CommasFixed(x + [','] + w + [b] + y) == CommasFixed(x) + [b] + CommasFixed(y)
  {
    var x1, y1 := Repair.DropCommaRuns(x, {']'}), Repair.DropCommaRuns(y, {']'});
    if b == ']' {
      Repair.TrailingCommaRemoved(x, w, b, y, {']'});
      Repair.DropCommaRunsKeepChar(x1, b, y1, {'}'});
    } else {
      Repair.DropCommaRunsPastRun(x, w, b, y, {']'});
      Repair.TrailingCommaRemoved(x1, w, b, y1, {'}'});
    }
  }

  /** One element of a sequence given to `dict()`: a key and a value, when it is a pair with a text key. */
  function AsPair(v: JsonValue): Option<(string, JsonValue)> {
    match v
    case JArr(xs) => if |xs| == 2 && xs[0].JStr? then Some((xs[0].s, xs[1])) else None
    case JStr(s) => if |s| == 2 then Some(([s[0]], JStr([s[1]]))) else None
    case JObj(o) => if |o.keys| == 2 then Some((o.keys[0], JStr(o.keys[1]))) else None
    case _ => None
  }

  /** `dict(pairs)`: later pairs overwrite earlier ones; any element that is not a pair raises. */
  function PairsToObj(xs: seq<JsonValue>, acc: Obj): Option<Obj>
    decreases |xs|
  {
    if xs == [] then Some(acc)
    else
      match AsPair(xs[0])
      case None => None
      case Some(p) => PairsToObj(xs[1..], Set(acc, p.0, p.1))
  }

  /** `dict(item)` of line 131, or `None` when it raises and the item is skipped. */
  function ToMapping(v: JsonValue): Option<Obj> {
    match v
    case JObj(o) => Some(o)
    case JArr(xs) => PairsToObj(xs, Empty)
    case JStr(s) => if s == [] then Some(Empty) else None
    case _ => None
  }

  /**
   * `dict(item)` keeps a dict as it is, accepts a list exactly when every
   * element is a pair and then yields a well-formed dict, accepts only the
   * empty string, and rejects numbers, booleans and null (line 131).
   */
  lemma ToMappingSpec(v: JsonValue)
    ensures v.JObj? ==> ToMapping(v) == Some(v.obj)
    ensures v.JStr? ==> (ToMapping(v).Some? <==> v.s == [])
    ensures v.JNull? || v.JBool? || v.JInt? ==> ToMapping(v).None?
    ensures v.JArr? ==> (ToMapping(v).Some? <==> forall i :: 0 <= i < |v.items| ==> AsPair(v.items[i]).Some?)
    ensures v.JArr? && ToMapping(v).Some? ==> Valid(ToMapping(v).value)
  {
    if v.JArr? {
      PairsToObjSome(v.items, Empty);
      PairsToObjValid(v.items, Empty);
    }
  }

  /** `dict()` of a list succeeds exactly when every element is a pair. */
  lemma {:induction false} PairsToObjSome(xs: seq<JsonValue>, acc: Obj)
    ensures PairsToObj(xs, acc).Some? <==> forall i :: 0 <= i < |xs| ==> AsPair(xs[i]).Some?
    decreases |xs|
  {
    if xs != [] && AsPair(xs[0]).Some? {
      var p := AsPair(xs[0]).value;
      PairsToObjSome(xs[1..], Set(acc, p.0, p.1));
      assert forall i :: 1 <= i < |xs| ==> xs[i] == xs[1..][i - 1];
    }
  }

  /** `dict()` of a well-formed dict or of a list of pairs builds a well-formed dict. */
  lemma {:induction false} PairsToObjValid(xs: seq<JsonValue>, acc: Obj)
    requires Valid(acc)
    ensures PairsToObj(xs, acc).Some? ==> Valid(PairsToObj(xs, acc).value)
    decreases |xs|
  {
    if xs != [] && AsPair(xs[0]).Some? {
      var p := AsPair(xs[0]).value;
      SetValid(acc, p.0, p.1);
      PairsToObjValid(xs[1..], Set(acc, p.0, p.1));
    }
  }

  /** What `enumerate(parsed)` walks over once a lone dict is wrapped (lines 125-129). */
  function Elements(v: JsonValue): (r: Result<seq<JsonValue>, Failure>)
    ensures v.JObj? ==> r == Ok([v])
    ensures v.JArr? ==> r == Ok(v.items)
    ensures v.JStr? ==> r.Ok? && |r.value| == |v.s| && forall i :: 0 <= i < |v.s| ==> r.value[i] == JStr([v.s[i]])
    ensures r.Err? <==> v.JNull? || v.JBool? || v.JInt?
    ensures r.Err? ==> r.error == NotIterable(v)
  {
    match v
    case JObj(_) => Ok([v])
    case JArr(xs) => Ok(xs)
    case JStr(s) => Ok(seq(|s|, i requires 0 <= i < |s| => JStr([s[i]])))
    case _ => Err(NotIterable(v))
  }

  function DefaultDifficulty(difficulty: string): string {
    if difficulty != "auto" then difficulty else "medium"
  }

  /** Lines 134-136 for the item at 1-based position `pos`. */
  function Filled(m: Obj, pos: int, qtype: string, difficulty: string): Obj {
    SetDefault(SetDefault(SetDefault(m, "id", JInt(pos)), "type", JStr(qtype)), "difficulty", JStr(DefaultDifficulty(difficulty)))
  }

  /** The sanitising loop of lines 128-137. */
  function Sanitized(items: seq<JsonValue>, qtype: string, difficulty: string): (out: seq<Obj>)
    ensures |out| <= |items|
  {
    Collected(items, ToMapping, Filler(qtype, difficulty))
  }

  /** The defaults step of the loop, for one request. */
  function Filler(qtype: string, difficulty: string): (Obj, int) -> Obj {
    (m, pos) => Filled(m, pos, qtype, difficulty)
  }

  /** The positions, counted from 0, of the items `dict()` accepts. */
  function Kept(items: seq<JsonValue>): (ps: seq<nat>)
    ensures forall k :: 0 <= k < |ps| ==> ps[k] < |items| && ToMapping(items[ps[k]]).Some?
  {
    Accepted(items, ToMapping)
  }

  /** Every accepted item appears in `Kept`, in increasing order. */
  lemma KeptComplete(items: seq<JsonValue>)
    ensures forall j, k :: 0 <= j < k < |Kept(items)| ==> Kept(items)[j] < Kept(items)[k]
    ensures forall p :: 0 <= p < |items| && ToMapping(items[p]).Some? ==> p in Kept(items)
  {
    AcceptedComplete(items, ToMapping);
  }

  /**
   * Items `dict()` rejects are skipped; the k-th record comes from the k-th
   * accepted item, whose 1-based position is its default id, so skipped items
   * leave gaps; `type` and `difficulty` defaults follow the request
   * (prompts/generator.py:128-138).
   */
  lemma SanitizedAt(items: seq<JsonValue>, qtype: string, difficulty: string)
    ensures |Sanitized(items, qtype, difficulty)| == |Kept(items)|
    ensures forall k :: 0 <= k < |Kept(items)| ==>
      Sanitized(items, qtype, difficulty)[k] ==
        Filled(ToMapping(items[Kept(items)[k]]).value, Kept(items)[k] + 1, qtype, difficulty)
  {
    CollectedAll(items, ToMapping, Filler(qtype, difficulty));
  }

  /** Keys already present are left alone; absent `id`, `type` and `difficulty` get their defaults (lines 134-136). */
  lemma FilledSpec(m: Obj, pos: int, qtype: string, difficulty: string)
    ensures var r := Filled(m, pos, qtype, difficulty);
      && Get(r, "id") == (if Has(m, "id") then Get(m, "id") else Some(JInt(pos)))
      && Get(r, "type") == (if Has(m, "type") then Get(m, "type") else Some(JStr(qtype)))
      && Get(r, "difficulty") == (if Has(m, "difficulty") then Get(m, "difficulty")
                                  else Some(JStr(if difficulty == "auto" then "medium" else difficulty)))
      && forall k :: k != "id" && k != "type" && k != "difficulty" ==> Get(r, k) == Get(m, k)
  {
  }

  /** The loop of lines 128-137. */
  method SanitizeLoop(items: seq<JsonValue>, qtype: string, difficulty: string) returns (out: seq<Obj>)
    ensures out == Sanitized(items, qtype, difficulty)
  {
    out := [];
    for i := 0 to |items|
      invariant out == Sanitized(items[..i], qtype, difficulty)
    {
      assert items[..i + 1][..i] == items[..i];
      var mapping := ToMapping(items[i]);
      if mapping.None? {
        continue;
      }
      var item := mapping.value;
      item := SetDefault(item, "id", JInt(i + 1));
      item := SetDefault(item, "type", JStr(qtype));
      item := SetDefault(item, "difficulty", JStr(if difficulty != "auto" then difficulty else "medium"));
      out := out + [item];
    }
    assert items[..|items|] == items;
  }

  /** The renumbering loop of lines 106-107. */
  function Renumbered(out: seq<Obj>): (r: seq<Obj>)
    ensures |r| == |out|
  {
    seq(|out|, i requires 0 <= i < |out| => Set(out[i], "id", JInt(i + 1)))
  }

  /** After renumbering the ids are exactly 1, 2, …, and no other key changes. */
  lemma RenumberedIds(out: seq<Obj>)
    ensures forall i :: 0 <= i < |out| ==> Get(Renumbered(out)[i], "id") == Some(JInt(i + 1))
    ensures forall i, k :: 0 <= i < |out| && k != "id" ==> Get(Renumbered(out)[i], k) == Get(out[i], k)
  {
  }

  method RenumberLoop(out: seq<Obj>) returns (r: seq<Obj>)
    ensures r == Renumbered(out)
  {
    r := out;
    for i := 0 to |r|
      invariant |r| == |out|
      invariant forall j :: 0 <= j < i ==> r[j] == Set(out[j], "id", JInt(j + 1))
      invariant forall j :: i <= j < |r| ==> r[j] == out[j]
    {
      r := r[i := Set(r[i], "id", JInt(i + 1))];
    }
  }

  /** A sub-request of the mixed fan-out, skipped when its count is zero (lines 99-104). */
  function Part(text: string, qtype: string, k: nat, difficulty: string, ask: Ask, parse: Parser): Result<seq<Obj>, Failure>
    decreases if Lower(qtype) == "mixed" then 1 else 0, 2
  {
    if k > 0 then Generated(text, qtype, k, difficulty, ask, parse) else Ok([])
  }

  /** `generate_questions_from_text` of prompts/generator.py:82-138. */
  function Generated(source: string, qtype: string, n: int, difficulty: string, ask: Ask, parse: Parser): Result<seq<Obj>, Failure>
    decreases if Lower(qtype) == "mixed" then 1 else 0, 1
  {
    var text := Strip(source);
    if text == [] then Ok([])
    else if Lower(qtype) == "mixed" then FanOut(text, n, difficulty, ask, parse)
    else Single(text, Lower(qtype), n, difficulty, ask, parse)
  }

  /** The mixed fan-out of lines 93-108. */
  function FanOut(text: string, n: int, difficulty: string, ask: Ask, parse: Parser): Result<seq<Obj>, Failure>
    decreases 1, 0
  {
    var counts := MixedSplit(n);
    LowerFixed();
    var a := Part(text, "mcq", counts.0, difficulty, ask, parse);
    var b := Part(text, "tf", counts.1, difficulty, ask, parse);
    var c := Part(text, "full", counts.2, difficulty, ask, parse);
    if a.Err? then Err(a.error)
    else if b.Err? then Err(b.error)
    else if c.Err? then Err(c.error)
    else Ok(Renumbered(a.value + b.value + c.value))
  }

  /** One request for a single type (lines 110-138). */
  function Single(text: string, q: string, n: int, difficulty: string, ask: Ask, parse: Parser): Result<seq<Obj>, Failure> {
    if q != "mcq" && q != "tf" && q != "full" then Err(UnknownType(q))
    else
      match ask(text, q, n, difficulty)
      case Err(e) => Err(CallFailed(e))
      case Ok(raw) =>
        match ParseLlmJson(raw, parse)
        case Err(e) => Err(e)
        case Ok(v) =>
          match Elements(v)
          case Err(e) => Err(e)
          case Ok(items) => Ok(Sanitized(items, q, difficulty))
  }

  lemma LowerFixed()
    ensures Lower("mcq") == "mcq" && Lower("tf") == "tf" && Lower("full") == "full"
  {
  }

  /** `generate_questions_from_text` as the source writes it, recursing once for `"mixed"`. */
  method Generate(source: string, qtype: string, n: int, difficulty: string, ask: Ask, parse: Parser)
    returns (r: Result<seq<Obj>, Failure>)
    ensures r == Generated(source, qtype, n, difficulty, ask, parse)
    decreases if Lower(qtype) == "mixed" then 1 else 0, 1
  {
    var text := Strip(source);
    if text == [] {
      return Ok([]);
    }
    var q := Lower(qtype);
    if q == "mixed" {
      r := GenerateMixed(text, n, difficulty, ask, parse);
    } else {
      r := GenerateSingle(text, q, n, difficulty, ask, parse);
    }
  }

  /** Lines 93-108: the three sub-requests, concatenated, then renumbered. */
  method GenerateMixed(text: string, n: int, difficulty: string, ask: Ask, parse: Parser)
    returns (r: Result<seq<Obj>, Failure>)
    ensures r == FanOut(text, n, difficulty, ask, parse)
    decreases 1, 0
  {
    var counts := MixedSplit(n);
    LowerFixed();
    var a := GeneratePart(text, "mcq", counts.0, difficulty, ask, parse);
    if a.Err? {
      return Err(a.error);
    }
    var b := GeneratePart(text, "tf", counts.1, difficulty, ask, parse);
    if b.Err? {
      return Err(b.error);
    }
    var c := GeneratePart(text, "full", counts.2, difficulty, ask, parse);
    if c.Err? {
      return Err(c.error);
    }
    var out := RenumberLoop(a.value + b.value + c.value);
    return Ok(out);
  }

  /** One sub-request of the fan-out, skipped when its count is zero. */
  method GeneratePart(text: string, qtype: string, k: nat, difficulty: string, ask: Ask, parse: Parser)
    returns (r: Result<seq<Obj>, Failure>)
    ensures r == Part(text, qtype, k, difficulty, ask, parse)
    decreases if Lower(qtype) == "mixed" then 1 else 0, 2
  {
    if k > 0 {
      r := Generate(text, qtype, k, difficulty, ask, parse);
    } else {
      r := Ok([]);
    }
  }

  /** Lines 110-138 for one type. */
  method GenerateSingle(text: string, q: string, n: int, difficulty: string, ask: Ask, parse: Parser)
    returns (r: Result<seq<Obj>, Failure>)
    ensures r == Single(text, q, n, difficulty, ask, parse)
  {
    if q != "mcq" && q != "tf" && q != "full" {
      return Err(UnknownType(q));
    }
    var reply := ask(text, q, n, difficulty);
    if reply.Err? {
      return Err(CallFailed(reply.error));
    }
    var parsed := ParseLlmJson(reply.value, parse);
    if parsed.Err? {
      return Err(parsed.error);
    }
    var items := Elements(parsed.value);
    if items.Err? {
      return Err(items.error);
    }
    var out := SanitizeLoop(items.value, q, difficulty);
    return Ok(out);
  }

  /** A blank source text yields no questions, whatever the model would reply (prompts/generator.py:88-90). */
  lemma BlankSourceGivesNothing(source: string, qtype: string, n: int, difficulty: string, parse: Parser)
    requires Strip(source) == []
    ensures forall ask: Ask :: Generated(source, qtype, n, difficulty, ask, parse) == Ok([])
  {
  }

  /** After lowercasing, a type other than mixed, mcq, tf and full is rejected (prompts/generator.py:92, 110-116). */
  lemma UnknownTypeRejected(source: string, qtype: string, n: int, difficulty: string, ask: Ask, parse: Parser)
    requires Strip(source) != []
    requires Lower(qtype) != "mixed" && Lower(qtype) != "mcq" && Lower(qtype) != "tf" && Lower(qtype) != "full"
    ensures Generated(source, qtype, n, difficulty, ask, parse) == Err(UnknownType(Lower(qtype)))
  {
  }

  /**
   * A mixed result is the mcq, then tf, then full sub-results concatenated,
   * with ids overwritten to 1, 2, … and nothing else changed
   * (prompts/generator.py:93-108).
   */
  lemma MixedFanOut(source: string, qtype: string, n: int, difficulty: string, ask: Ask, parse: Parser)
    requires Strip(source) != [] && Lower(qtype) == "mixed"
    requires Generated(source, qtype, n, difficulty, ask, parse).Ok?
    ensures var text := Strip(source);
      var counts := MixedSplit(n);
      var a := Part(text, "mcq", counts.0, difficulty, ask, parse);
      var b := Part(text, "tf", counts.1, difficulty, ask, parse);
      var c := Part(text, "full", counts.2, difficulty, ask, parse);
      && a.Ok? && b.Ok? && c.Ok?
      && var joined := a.value + b.value + c.value;
      && var r := Generated(source, qtype, n, difficulty, ask, parse).value;
      && |r| == |joined|
      && (forall i :: 0 <= i < |r| ==> Get(r[i], "id") == Some(JInt(i + 1)))
      && (forall i, k :: 0 <= i < |r| && k != "id" ==> Get(r[i], k) == Get(joined[i], k))
  {
    var text := Strip(source);
    var counts := MixedSplit(n);
    LowerFixed();
    var a := Part(text, "mcq", counts.0, difficulty, ask, parse);
    var b := Part(text, "tf", counts.1, difficulty, ask, parse);
    var c := Part(text, "full", counts.2, difficulty, ask, parse);
    if a.Ok? && b.Ok? && c.Ok? {
      RenumberedIds(a.value + b.value + c.value);
    }
  }
}
