/**
 * `_normalize_questions` of generator.py and the steps of
 * `generate_questions_from_text` that turn a model reply into question
 * records (generator.py:144-200, 238-253).
 */
module Normalizer {
  import opened Wrappers
  import opened PyStr
  import opened Json
  import Extractor
  import Repair

  /** Why the pipeline raises instead of returning records. */
  datatype Failure =
    | QuestionNotText(question: JsonValue)     // `.strip()` of a truthy non-string question (generator.py:157)
    | ParseFailed(raw: string, detail: string)  // neither parse attempt succeeded (generator.py:240-244)
    | NotAList(parsed: JsonValue)               // the reply parsed to a scalar (generator.py:249-250)

  /** The requested types that are stored as the record type verbatim (generator.py:155). */
  predicate KnownType(t: string) {
    t == "mcq" || t == "tf" || t == "full" || t == "mixed"
  }

  function DefaultType(requested: string): string {
    if KnownType(requested) then requested else "mcq"
  }

  /** `q.get("question", "").strip()` is evaluated, and raises, when the question is truthy but not a string. */
  predicate QuestionRaises(q: Obj) {
    Get(q, "question").Some? && Truthy(Get(q, "question").value) && !Get(q, "question").value.JStr?
  }

  /** `f"Option {len(opts)+1}"`; the padding loop only ever asks for positions 1 to 4. */
  function OptionLabel(k: nat): string
    requires 1 <= k <= 4
  {
    "Option " + [('0' as int + k) as char]
  }

  function Texts(ls: seq<string>): (r: seq<JsonValue>)
    ensures |r| == |ls| && forall i :: 0 <= i < |ls| ==> r[i] == JStr(ls[i])
  {
    seq(|ls|, i requires 0 <= i < |ls| => JStr(ls[i]))
  }

  /**
   * `q.get("options") or []`, with a string split into its stripped non-blank
   * lines and anything else that is not a list replaced by `[]` (generator.py:162-168).
   */
  function SuppliedOptions(v: Option<JsonValue>): seq<JsonValue> {
    if v.None? || !Truthy(v.value) then []
    else match v.value
      case JStr(s) => Texts(NonBlankLines(s))
      case JArr(xs) => xs
      case _ => []
  }

  /** The `while len(opts) < 4` padding followed by `opts[:4]` (generator.py:170-172). */
  function FourOptions(opts: seq<JsonValue>): seq<JsonValue>
    decreases 4 - |opts|
  {
    if |opts| >= 4 then opts[..4] else FourOptions(opts + [JStr(OptionLabel(|opts| + 1))])
  }

  /** Exactly four options: the first supplied ones in order, then `Option i` at 1-based position `i`. */
  lemma {:induction false} FourOptionsShape(opts: seq<JsonValue>)
    ensures |FourOptions(opts)| == 4
    ensures forall i :: 0 <= i < 4 && i < |opts| ==> FourOptions(opts)[i] == opts[i]
    ensures forall i :: |opts| <= i < 4 ==> FourOptions(opts)[i] == JStr(OptionLabel(i + 1))
    decreases 4 - |opts|
  {
    if |opts| < 4 {
      var longer := opts + [JStr(OptionLabel(|opts| + 1))];
      FourOptionsShape(longer);
      assert forall i :: 0 <= i < |opts| ==> longer[i] == opts[i];
    }
  }

  /** The padding loop of generator.py:170-172. */
  method PadOptions(supplied: seq<JsonValue>) returns (r: seq<JsonValue>)
    ensures r == FourOptions(supplied)
  {
    var opts := supplied;
    while |opts| < 4
      invariant FourOptions(opts) == FourOptions(supplied)
      decreases 4 - |opts|
    {
      opts := opts + [JStr(OptionLabel(|opts| + 1))];
    }
    r := opts[..4];
  }

  /** The boolean a tf answer becomes (generator.py:178-183); a missing answer counts as `True`. */
  function TfAnswer(a: Option<JsonValue>): bool {
    var v := if a.Some? then a.value else JBool(true);
    if v.JStr? then Lower(Strip(v.s)) in {"true", "t", "yes"} else Truthy(v)
  }

  /** The keys `_normalize_questions` may write. */
  predicate Touched(k: string) {
    k == "type" || k == "question" || k == "difficulty" || k == "explanation" || k == "options" || k == "answer"
  }

  /** The mcq branch (generator.py:161-175): four options, and `"A"` for a missing or null answer. */
  function McqFixed(q: Obj): Obj {
    var q1 := Set(q, "options", JArr(FourOptions(SuppliedOptions(Get(q, "options")))));
    if Get(q1, "answer").None? || Get(q1, "answer") == Some(JNull) then Set(q1, "answer", JStr("A")) else q1
  }

  /** The tf branch (generator.py:176-183). */
  function TfFixed(q: Obj): Obj {
    Set(q, "answer", JBool(TfAnswer(Get(q, "answer"))))
  }

  /** Lines 154-155: an absent type becomes the requested one when known, else `"mcq"`. */
  function TypeFilled(item: Obj, requested: string): Obj {
    if Has(item, "type") then item else Set(item, "type", JStr(DefaultType(requested)))
  }

  /** Lines 157 and 159: an absent question becomes `""`, an absent difficulty `"medium"`. */
  function Defaulted(q: Obj): Obj {
    SetDefault(SetDefault(q, "question", JStr("")), "difficulty", JStr("medium"))
  }

  /** Lines 161-183: the branch for the record's type. */
  function TypeFixed(q: Obj): Obj {
    var q1 := if Get(q, "type") == Some(JStr("mcq")) then McqFixed(q) else q;
    if Get(q1, "type") == Some(JStr("tf")) then TfFixed(q1) else q1
  }

  /** What one mapping element becomes (generator.py:152-186). */
  function Coerced(item: Obj, requested: string): Result<Obj, Failure> {
    var q1 := TypeFilled(item, requested);
    if QuestionRaises(q1) then Err(QuestionNotText(Get(q1, "question").value))
    else Ok(SetDefault(TypeFixed(Defaulted(q1)), "explanation", JStr("")))
  }

  lemma TypeFilledFacts(item: Obj, requested: string)
    ensures Get(TypeFilled(item, requested), "type") ==
      (if Has(item, "type") then Get(item, "type") else Some(JStr(DefaultType(requested))))
    ensures forall k :: k != "type" ==> Get(TypeFilled(item, requested), k) == Get(item, k)
  {
  }

  lemma DefaultedFacts(q: Obj)
    ensures Get(Defaulted(q), "question") == (if Has(q, "question") then Get(q, "question") else Some(JStr("")))
    ensures Get(Defaulted(q), "difficulty") == (if Has(q, "difficulty") then Get(q, "difficulty") else Some(JStr("medium")))
    ensures forall k :: k != "question" && k != "difficulty" ==> Get(Defaulted(q), k) == Get(q, k)
  {
  }

  lemma TypeFixedFacts(q: Obj)
    ensures forall k :: k != "options" && k != "answer" ==> Get(TypeFixed(q), k) == Get(q, k)
    ensures Get(q, "type") == Some(JStr("mcq")) ==> TypeFixed(q) == McqFixed(q)
    ensures Get(q, "type") == Some(JStr("tf")) ==> TypeFixed(q) == TfFixed(q)
    ensures Get(q, "type") != Some(JStr("mcq")) && Get(q, "type") != Some(JStr("tf")) ==> TypeFixed(q) == q
  {
    var q1 := if Get(q, "type") == Some(JStr("mcq")) then McqFixed(q) else q;
    assert Get(q1, "type") == Get(q, "type");
  }

  /** The body of the first loop of `_normalize_questions`, updating the copy `q` step by step. */
  method CoerceRecord(item: Obj, requested: string) returns (r: Result<Obj, Failure>)
    ensures r == Coerced(item, requested)
  {
    var q := item;
    if !Has(q, "type") {
      q := Set(q, "type", JStr(if KnownType(requested) then requested else "mcq"));
    }
    var question := Get(q, "question");
    if question.Some? && Truthy(question.value) && !question.value.JStr? {
      return Err(QuestionNotText(question.value));
    }
    q := SetDefault(q, "question", JStr(""));
    q := SetDefault(q, "difficulty", JStr("medium"));
    if Get(q, "type") == Some(JStr("mcq")) {
      var opts := PadOptions(SuppliedOptions(Get(q, "options")));
      q := Set(q, "options", JArr(opts));
      var answer := Get(q, "answer");
      if answer.None? || answer == Some(JNull) {
        q := Set(q, "answer", JStr("A"));
      }
    }
    if Get(q, "type") == Some(JStr("tf")) {
      q := Set(q, "answer", JBool(TfAnswer(Get(q, "answer"))));
    }
    q := SetDefault(q, "explanation", JStr(""));
    return Ok(q);
  }

  lemma McqFixedFacts(q: Obj)
    ensures Get(McqFixed(q), "options") == Some(JArr(FourOptions(SuppliedOptions(Get(q, "options")))))
    ensures Get(McqFixed(q), "answer") ==
      (if Get(q, "answer").None? || Get(q, "answer") == Some(JNull) then Some(JStr("A")) else Get(q, "answer"))
  {
  }

  /** The coercion of one record fails exactly when its question is not text. */
  lemma CoercedErr(item: Obj, requested: string)
    ensures Coerced(item, requested).Err? <==> QuestionRaises(item)
    ensures Coerced(item, requested).Err? ==> Coerced(item, requested).error.QuestionNotText?
  {
    TypeFilledFacts(item, requested);
  }

  /** A mapping that does not fail goes through the stages in order. */
  lemma CoercedStages(item: Obj, requested: string)
    ensures Coerced(item, requested).Ok? ==>
      Coerced(item, requested).value == SetDefault(TypeFixed(Defaulted(TypeFilled(item, requested))), "explanation", JStr(""))
  {
  }

  /**
   * Absent `type`, `question`, `difficulty` and `explanation` get their
   * defaults, present ones keep their values, and every key the function does
   * not write is left alone (generator.py:154-159, 185).
   */
  lemma CoercedDefaults(item: Obj, requested: string, r: Obj)
    requires Coerced(item, requested) == Ok(r)
    ensures && Get(r, "type") == (if Has(item, "type") then Get(item, "type") else Some(JStr(DefaultType(requested))))
      && Get(r, "question") == (if Has(item, "question") then Get(item, "question") else Some(JStr("")))
      && Get(r, "difficulty") == (if Has(item, "difficulty") then Get(item, "difficulty") else Some(JStr("medium")))
      && Get(r, "explanation") == (if Has(item, "explanation") then Get(item, "explanation") else Some(JStr("")))
      && (forall k :: !Touched(k) ==> Get(r, k) == Get(item, k))
  {
    CoercedStages(item, requested);
    var q1 := TypeFilled(item, requested);
    var q2 := Defaulted(q1);
    var q3 := TypeFixed(q2);
    assert r == SetDefault(q3, "explanation", JStr(""));
    TypeFilledFacts(item, requested);
    DefaultedFacts(q1);
    TypeFixedFacts(q2);
    assert Has(q2, "explanation") == Has(item, "explanation");
  }

  /** Only an mcq record has its options rewritten, and only mcq and tf records their answer (generator.py:161-183). */
  lemma CoercedKeepsByType(item: Obj, requested: string, r: Obj)
    requires Coerced(item, requested) == Ok(r)
    ensures && (Get(r, "type") != Some(JStr("mcq")) ==> Get(r, "options") == Get(item, "options"))
      && (Get(r, "type") != Some(JStr("mcq")) && Get(r, "type") != Some(JStr("tf")) ==>
            Get(r, "answer") == Get(item, "answer"))
  {
    CoercedStages(item, requested);
    var q1 := TypeFilled(item, requested);
    var q2 := Defaulted(q1);
    TypeFilledFacts(item, requested);
    DefaultedFacts(q1);
    TypeFixedFacts(q2);
  }

  /**
   * An mcq record has exactly four options: the first of those supplied (a
   * string split into its non-blank lines), then `Option i` placeholders; a
   * missing or null answer becomes `"A"` (generator.py:161-175).
   */
  lemma McqRecordShape(item: Obj, requested: string, r: Obj)
    requires Coerced(item, requested) == Ok(r)
    requires Get(r, "type") == Some(JStr("mcq"))
    ensures var supplied := SuppliedOptions(Get(item, "options"));
      && Get(r, "options").Some? && Get(r, "options").value.JArr?
      && var opts := Get(r, "options").value.items;
      && |opts| == 4
      && (forall i :: 0 <= i < 4 && i < |supplied| ==> opts[i] == supplied[i])
      && (forall i :: |supplied| <= i < 4 ==> opts[i] == JStr(OptionLabel(i + 1)))
      && Get(r, "answer") == (if Get(item, "answer").None? || Get(item, "answer") == Some(JNull)
                              then Some(JStr("A")) else Get(item, "answer"))
  {
    CoercedStages(item, requested);
    var q1 := TypeFilled(item, requested);
    var q2 := Defaulted(q1);
    TypeFilledFacts(item, requested);
    DefaultedFacts(q1);
    TypeFixedFacts(q2);
    McqFixedFacts(q2);
    FourOptionsShape(SuppliedOptions(Get(item, "options")));
  }

  /** A tf record's answer is always a boolean, computed from the answer it came with (generator.py:176-183). */
  lemma TfRecordShape(item: Obj, requested: string, r: Obj)
    requires Coerced(item, requested) == Ok(r)
    requires Get(r, "type") == Some(JStr("tf"))
    ensures Get(r, "answer") == Some(JBool(TfAnswer(Get(item, "answer"))))
    ensures Get(item, "answer").None? ==> Get(r, "answer") == Some(JBool(true))
  {
    CoercedStages(item, requested);
    var q1 := TypeFilled(item, requested);
    var q2 := Defaulted(q1);
    TypeFilledFacts(item, requested);
    DefaultedFacts(q1);
    TypeFixedFacts(q2);
  }

  /** The mappings among the parsed elements, in order (generator.py:149-151). */
  function Mappings(raw: seq<JsonValue>): (objs: seq<Obj>)
    ensures |objs| <= |raw|
    decreases |raw|
  {
    if raw == [] then []
    else
      var last := raw[|raw| - 1];
      Mappings(raw[..|raw| - 1]) + (if last.JObj? then [last.obj] else [])
  }

  /** `isinstance(item, dict)` as a conversion: the mapping itself, or nothing. */
  function AsMapping(v: JsonValue): Option<Obj> {
    if v.JObj? then Some(v.obj) else None
  }

  /** The filling step of `Collected` that leaves the mapping as it is. */
  function AsIs(): (Obj, int) -> Obj {
    (m, pos) => m
  }

  lemma {:induction false} MappingsCollected(raw: seq<JsonValue>)
    ensures Mappings(raw) == Collected(raw, AsMapping, AsIs())
    decreases |raw|
  {
    if raw != [] {
      MappingsCollected(raw[..|raw| - 1]);
    }
  }

  /**
   * Exactly the dicts survive, in order: the k-th mapping is the dict at the
   * k-th dict position, those positions increase, and every dict in the list
   * is at one of them (generator.py:149-151).
   */
  lemma MappingsSpec(raw: seq<JsonValue>)
    ensures var ps := Accepted(raw, AsMapping);
      && |Mappings(raw)| == |ps|
      && (forall k :: 0 <= k < |ps| ==> ps[k] < |raw| && raw[ps[k]].JObj? && Mappings(raw)[k] == raw[ps[k]].obj)
      && (forall j, k :: 0 <= j < k < |ps| ==> ps[j] < ps[k])
      && (forall p :: 0 <= p < |raw| && raw[p].JObj? ==> p in ps)
  {
    MappingsCollected(raw);
    CollectedAll(raw, AsMapping, AsIs());
    AcceptedComplete(raw, AsMapping);
  }

  /** The first loop of `_normalize_questions`: non-mappings are skipped, the first failure is raised. */
  function Coerce(raw: seq<JsonValue>, requested: string): Result<seq<Obj>, Failure>
    decreases |raw|
  {
    if raw == [] then Ok([])
    else
      match Coerce(raw[..|raw| - 1], requested)
      case Err(e) => Err(e)
      case Ok(out) =>
        var last := raw[|raw| - 1];
        if !last.JObj? then Ok(out)
        else
          match Coerced(last.obj, requested)
          case Err(e) => Err(e)
          case Ok(q) => Ok(out + [q])
  }

  /** Once a prefix has failed, the whole list fails with the same error. */
  lemma {:induction false} CoerceFailureSticks(raw: seq<JsonValue>, i: nat, requested: string, e: Failure)
    requires i <= |raw| && Coerce(raw[..i], requested) == Err(e)
    ensures Coerce(raw, requested) == Err(e)
    decreases |raw| - i
  {
    if i < |raw| {
      assert raw[..i + 1][..i] == raw[..i];
      CoerceFailureSticks(raw, i + 1, requested, e);
    } else {
      assert raw[..i] == raw;
    }
  }

  /**
   * Output order follows input order and only mappings survive: the k-th
   * record is the k-th mapping, coerced, so there are never more records than
   * elements (generator.py:148-151, 186).
   */
  lemma {:induction false} CoerceKeepsOrder(raw: seq<JsonValue>, requested: string)
    requires Coerce(raw, requested).Ok?
    ensures var out := Coerce(raw, requested).value;
      && |out| == |Mappings(raw)| <= |raw|
      && forall k :: 0 <= k < |out| ==> Coerced(Mappings(raw)[k], requested) == Ok(out[k])
    decreases |raw|
  {
    if raw != [] {
      var init := raw[..|raw| - 1];
      CoerceKeepsOrder(init, requested);
    }
  }

  /** The list fails exactly when some mapping in it fails, and then only with `QuestionNotText`. */
  lemma {:induction false} CoerceFails(raw: seq<JsonValue>, requested: string)
    ensures Coerce(raw, requested).Err? <==>
      exists i :: 0 <= i < |raw| && raw[i].JObj? && QuestionRaises(raw[i].obj)
    ensures Coerce(raw, requested).Err? ==> Coerce(raw, requested).error.QuestionNotText?
    decreases |raw|
  {
    if Coerce(raw, requested).Err? {
      CoerceErrWitness(raw, requested);
    }
    if exists i :: 0 <= i < |raw| && raw[i].JObj? && QuestionRaises(raw[i].obj) {
      var i :| 0 <= i < |raw| && raw[i].JObj? && QuestionRaises(raw[i].obj);
      CoerceErrFrom(raw, requested, i);
    }
  }

  lemma {:induction false} CoerceErrWitness(raw: seq<JsonValue>, requested: string)
    requires Coerce(raw, requested).Err?
    ensures exists i :: 0 <= i < |raw| && raw[i].JObj? && QuestionRaises(raw[i].obj)
    ensures Coerce(raw, requested).error.QuestionNotText?
    decreases |raw|
  {
    var n := |raw| - 1;
    var init := raw[..n];
    if Coerce(init, requested).Err? {
      CoerceErrWitness(init, requested);
      var i :| 0 <= i < |init| && init[i].JObj? && QuestionRaises(init[i].obj);
      assert raw[i] == init[i];
    } else {
      CoercedErr(raw[n].obj, requested);
    }
  }

  lemma {:induction false} CoerceErrFrom(raw: seq<JsonValue>, requested: string, i: nat)
    requires i < |raw| && raw[i].JObj? && QuestionRaises(raw[i].obj)
    ensures Coerce(raw, requested).Err?
    decreases |raw|
  {
    var n := |raw| - 1;
    var init := raw[..n];
    if i < n {
      assert init[i] == raw[i];
      CoerceErrFrom(init, requested, i);
    } else if Coerce(init, requested).Ok? {
      CoercedErr(raw[n].obj, requested);
    }
  }

  /** `isinstance(q.get("id"), int)`: the id a record already holds, as an integer (a boolean is 0 or 1). */
  function SuppliedId(q: Obj): Option<int> {
    var v := Get(q, "id");
    if v.Some? && IsPyInt(v.value) then Some(PyIntValue(v.value)) else None
  }

  /** The second loop of `_normalize_questions`, with `next` the rising watermark (generator.py:188-199). */
  function AssignIds(qs: seq<Obj>, next: int): (r: seq<Obj>)
    ensures |r| == |qs|
    decreases |qs|
  {
    if qs == [] then []
    else
      match SuppliedId(qs[0])
      case Some(id) => [qs[0]] + AssignIds(qs[1..], if id >= next then id + 1 else next)
      case None => [Set(qs[0], "id", JInt(next))] + AssignIds(qs[1..], next + 1)
  }

  /**
   * The watermark after a record: it never falls, a generated id raises it
   * by one, and it always ends above the id the record carries.
   */
  function NextAfter(q: Obj, next: int): (r: int)
    ensures r >= next
    ensures SuppliedId(q).None? ==> r == next + 1
    ensures SuppliedId(q).Some? ==> r > SuppliedId(q).value
    ensures SuppliedId(q).Some? && SuppliedId(q).value < next ==> r == next
  {
    match SuppliedId(q)
    case Some(id) => if id >= next then id + 1 else next
    case None => next + 1
  }

  /** The record as the loop leaves it, given the watermark when it is reached. */
  function WithId(q: Obj, next: int): Obj {
    if SuppliedId(q).Some? then q else Set(q, "id", JInt(next))
  }

  lemma AssignIdsStep(qs: seq<Obj>, next: int)
    requires qs != []
    ensures AssignIds(qs, next) == [WithId(qs[0], next)] + AssignIds(qs[1..], NextAfter(qs[0], next))
  {
  }

  lemma AssignIdsSuffix(qs: seq<Obj>, i: nat, next: int)
    requires i < |qs|
    ensures AssignIds(qs[i..], next) == [WithId(qs[i], next)] + AssignIds(qs[i + 1..], NextAfter(qs[i], next))
  {
    AssignIdsStep(qs[i..], next);
    assert qs[i..][1..] == qs[i + 1..];
  }

  /** One pass of the id loop's body. */
  method AssignOne(q: Obj, nextId: int) returns (q': Obj, nextId': int)
    ensures q' == WithId(q, nextId) && nextId' == NextAfter(q, nextId)
    ensures nextId' >= nextId && (SuppliedId(q).None? ==> nextId' == nextId + 1)
  {
    q', nextId' := q, nextId;
    var id := Get(q, "id");
    if id.None? || !IsPyInt(id.value) {
      q' := Set(q, "id", JInt(nextId));
      nextId' := nextId + 1;
    } else if PyIntValue(id.value) >= nextId {
      nextId' := PyIntValue(id.value) + 1;
    }
  }

  /**
   * Every record ends with an int id. A supplied int id is kept and the
   * record is unchanged; a missing or non-int id is replaced by one at or
   * above the starting watermark, and no other key changes (generator.py:188-199).
   */
  lemma {:induction false} AssignIdsShape(qs: seq<Obj>, next: int, i: nat)
    requires i < |qs|
    ensures SuppliedId(AssignIds(qs, next)[i]).Some?
    ensures SuppliedId(qs[i]).Some? ==> AssignIds(qs, next)[i] == qs[i]
    ensures SuppliedId(qs[i]).None? ==>
      exists id :: id >= next && AssignIds(qs, next)[i] == Set(qs[i], "id", JInt(id))
    ensures forall k :: k != "id" ==> Get(AssignIds(qs, next)[i], k) == Get(qs[i], k)
    decreases |qs|
  {
    AssignIdsStep(qs, next);
    if i == 0 {
      if SuppliedId(qs[0]).None? {
        assert AssignIds(qs, next)[0] == Set(qs[0], "id", JInt(next));
      }
    } else {
      var n := NextAfter(qs[0], next);
      AssignIdsShape(qs[1..], n, i - 1);
      assert AssignIds(qs, next)[i] == AssignIds(qs[1..], n)[i - 1];
      if SuppliedId(qs[i]).None? {
        var id :| id >= n && AssignIds(qs[1..], n)[i - 1] == Set(qs[1..][i - 1], "id", JInt(id));
        assert n >= next;
      }
    }
  }

  /** The id a record holds after assignment. */
  function IdAt(qs: seq<Obj>, next: int, i: nat): int
    requires i < |qs|
  {
    AssignIdsShape(qs, next, i);
    SuppliedId(AssignIds(qs, next)[i]).value
  }

  /** An assigned id is at least the watermark it started from. */
  lemma AutoIdAtLeast(qs: seq<Obj>, next: int, i: nat)
    requires i < |qs| && SuppliedId(qs[i]).None?
    ensures IdAt(qs, next, i) >= next
  {
    AssignIdsShape(qs, next, i);
    var id :| id >= next && AssignIds(qs, next)[i] == Set(qs[i], "id", JInt(id));
  }

  /**
   * Every auto-assigned id exceeds every id earlier in the list, so
   * auto-assigned ids strictly increase and never collide with an earlier
   * supplied one (generator.py:188-199).
   */
  lemma {:induction false} AutoIdsAboveEarlier(qs: seq<Obj>, next: int, j: nat, i: nat)
    requires j < i < |qs| && SuppliedId(qs[i]).None?
    ensures IdAt(qs, next, j) < IdAt(qs, next, i)
    decreases |qs|
  {
    var n := NextAfter(qs[0], next);
    IdAtStep(qs, next, i);
    if j == 0 {
      AutoIdAtLeast(qs[1..], n, i - 1);
      IdAtFirst(qs, next);
    } else {
      IdAtStep(qs, next, j);
      AutoIdsAboveEarlier(qs[1..], n, j - 1, i - 1);
    }
  }

  /**
   * A supplied id at or below an id assigned earlier is kept, so ids can
   * collide: `[{}, {"id": 1}]` ends with the id 1 twice (generator.py:190-197).
   */
  lemma SuppliedIdCollides(qs: seq<Obj>)
    requires qs == [Empty, Set(Empty, "id", JInt(1))]
    ensures IdAt(qs, 1, 0) == 1 && IdAt(qs, 1, 1) == 1
  {
    assert SuppliedId(qs[0]).None?;
    assert SuppliedId(qs[1]) == Some(1);
    AssignIdsStep(qs, 1);
    assert NextAfter(qs[0], 1) == 2;
    AssignIdsStep(qs[1..], 2);
    assert AssignIds(qs, 1) == [Set(Empty, "id", JInt(1)), qs[1]];
  }

  lemma IdAtStep(qs: seq<Obj>, next: int, i: nat)
    requires 0 < i < |qs|
    ensures IdAt(qs, next, i) == IdAt(qs[1..], NextAfter(qs[0], next), i - 1)
  {
    AssignIdsStep(qs, next);
    assert AssignIds(qs, next)[i] == AssignIds(qs[1..], NextAfter(qs[0], next))[i - 1];
  }

  /** The first record's id lies below the watermark it leaves. */
  lemma IdAtFirst(qs: seq<Obj>, next: int)
    requires qs != []
    ensures IdAt(qs, next, 0) < NextAfter(qs[0], next)
  {
    AssignIdsStep(qs, next);
    assert AssignIds(qs, next)[0] == WithId(qs[0], next);
  }

  /** What `_normalize_questions` returns or raises (generator.py:144-200). */
  function Normalized(raw: seq<JsonValue>, requested: string): Result<seq<Obj>, Failure> {
    match Coerce(raw, requested)
    case Err(e) => Err(e)
    case Ok(out) => Ok(AssignIds(out, 1))
  }

  /** The first loop of `_normalize_questions` (generator.py:148-186). */
  method CoerceLoop(raw: seq<JsonValue>, requested: string) returns (r: Result<seq<Obj>, Failure>)
    ensures r == Coerce(raw, requested)
  {
    var out: seq<Obj> := [];
    for i := 0 to |raw|
      invariant Coerce(raw[..i], requested) == Ok(out)
    {
      assert raw[..i + 1][..i] == raw[..i];
      if !raw[i].JObj? {
        continue;
      }
      var q := CoerceRecord(raw[i].obj, requested);
      if q.Err? {
        CoerceFailureSticks(raw, i + 1, requested, q.error);
        return Err(q.error);
      }
      out := out + [q.value];
    }
    assert raw[..|raw|] == raw;
    return Ok(out);
  }

  /** The second loop of `_normalize_questions`, writing ids into the records in place (generator.py:188-199). */
  method AssignIdsLoop(coerced: seq<Obj>) returns (out: seq<Obj>)
    ensures out == AssignIds(coerced, 1)
  {
    out := coerced;
    var nextId := 1;
    for i := 0 to |out|
      invariant |out| == |coerced|
      invariant out[..i] + AssignIds(coerced[i..], nextId) == AssignIds(coerced, 1)
      invariant out[i..] == coerced[i..]
    {
      assert out[i] == coerced[i] by {
        assert out[i..][0] == coerced[i..][0];
      }
      var q, n := AssignOne(out[i], nextId);
      AssignIdsAdvance(coerced, out, i, nextId, q, n);
      out := out[i := q];
      nextId := n;
    }
    assert coerced[|out|..] == [];
  }

  /** One pass of the id loop keeps its invariant. */
  lemma AssignIdsAdvance(coerced: seq<Obj>, out: seq<Obj>, i: nat, next: int, q: Obj, n: int)
    requires i < |coerced| == |out|
    requires out[..i] + AssignIds(coerced[i..], next) == AssignIds(coerced, 1)
    requires out[i..] == coerced[i..]
    requires q == WithId(coerced[i], next) && n == NextAfter(coerced[i], next)
    ensures out[i := q][..i + 1] + AssignIds(coerced[i + 1..], n) == AssignIds(coerced, 1)
    ensures out[i := q][i + 1..] == coerced[i + 1..]
  {
    AssignIdsSuffix(coerced, i, next);
    var out' := out[i := q];
    assert out'[..i + 1] == out[..i] + [q];
    assert out'[i + 1..] == out[i + 1..] by {
      assert out[i + 1..] == out[i..][1..];
    }
    AppendAssoc(out[..i], [q], AssignIds(coerced[i + 1..], n));
  }

  /** `_normalize_questions` with its two loops. */
  method NormalizeQuestions(raw: seq<JsonValue>, requested: string) returns (r: Result<seq<Obj>, Failure>)
    ensures r == Normalized(raw, requested)
  {
    var coerced := CoerceLoop(raw, requested);
    if coerced.Err? {
      return Err(coerced.error);
    }
    var out := AssignIdsLoop(coerced.value);
    return Ok(out);
  }

  /** Every returned record holds an int id, and there are never more records than parsed elements. */
  lemma NormalizedIds(raw: seq<JsonValue>, requested: string)
    requires Normalized(raw, requested).Ok?
    ensures |Normalized(raw, requested).value| <= |raw|
    ensures forall i :: 0 <= i < |Normalized(raw, requested).value| ==>
      SuppliedId(Normalized(raw, requested).value[i]).Some?
  {
    var out := Coerce(raw, requested).value;
    CoerceKeepsOrder(raw, requested);
    forall i | 0 <= i < |out|
      ensures SuppliedId(AssignIds(out, 1)[i]).Some?
    {
      AssignIdsShape(out, 1, i);
    }
  }

  /** The dict-wrap and list check of generator.py:247-250. */
  function AsQuestionList(parsed: JsonValue): Result<seq<JsonValue>, Failure> {
    match parsed
    case JObj(_) => Ok([parsed])
    case JArr(xs) => Ok(xs)
    case _ => Err(NotAList(parsed))
  }

  /** From the model's reply text to the question list (generator.py:238-253). */
  function Processed(reply: string, requested: string, parse: Parser): Result<seq<Obj>, Failure> {
    match Repair.SafeJsonLoad(Extractor.Extracted(reply), parse)
    case Err(e) => Err(ParseFailed(reply, e))
    case Ok(v) =>
      match AsQuestionList(v)
      case Err(e) => Err(e)
      case Ok(items) => Normalized(items, requested)
  }

  /** Lines 238-253 as the source writes them. */
  method ProcessReply(reply: string, requested: string, parse: Parser) returns (r: Result<seq<Obj>, Failure>)
    ensures r == Processed(reply, requested, parse)
  {
    var jsonText := Extractor.ExtractJsonFromText(reply);
    var parsed := Repair.SafeJsonLoad(jsonText, parse);
    if parsed.Err? {
      return Err(ParseFailed(reply, parsed.error));
    }
    var v := parsed.value;
    ghost var items := AsQuestionList(v);
    if v.JObj? {
      v := JArr([v]);
    }
    if !v.JArr? {
      return Err(NotAList(v));
    }
    assert items == Ok(v.items);
    r := NormalizeQuestions(v.items, requested);
  }

  /**
   * The reply is rejected as "not a JSON array" exactly when it parses to
   * something other than an object or a list; a lone object is handled as a
   * one-element list (generator.py:247-253).
   */
  lemma ProcessedListCheck(reply: string, requested: string, parse: Parser)
    ensures var p := Repair.SafeJsonLoad(Extractor.Extracted(reply), parse);
      (Processed(reply, requested, parse).Err? && Processed(reply, requested, parse).error.NotAList?)
      <==> (p.Ok? && !p.value.JObj? && !p.value.JArr?)
    ensures var p := Repair.SafeJsonLoad(Extractor.Extracted(reply), parse);
      p.Ok? && p.value.JObj? ==> Processed(reply, requested, parse) == Normalized([p.value], requested)
  {
    var p := Repair.SafeJsonLoad(Extractor.Extracted(reply), parse);
    if p.Ok? {
      var items := AsQuestionList(p.value);
      if items.Ok? {
        CoerceFails(items.value, requested);
      }
    }
  }
}
