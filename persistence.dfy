/**
 * The persisted form of the attempt log: a JSON array of event records
 * under one browser-storage key, the shallow shape check applied when it is
 * read back, and the reading rule (missing, empty, unparsable or
 * non-array data counts as nothing stored; records failing the shape check
 * are skipped).
 */
module Persistence {
  import opened Wrappers
  import opened Types

  /** A parsed JSON value. Numbers are exact reals. */
  datatype Json =
    | JNull
    | JBool(b: bool)
    | JNumber(n: real)
    | JString(s: string)
    | JArray(items: seq<Json>)
    | JObject(fields: map<string, Json>)

  /**
   * What a storage slot holds: text that parses to a JSON value, or text
   * that does not (the empty string among it).
   */
  datatype Stored = Parsed(value: Json) | Unparsable(text: string)

  /** The storage key of the attempt log. */
  const StorageKey: string := "astra_gap_predictor_events_v1"

  predicate HasString(o: map<string, Json>, k: string) {
    k in o && o[k].JString?
  }

  predicate HasNumber(o: map<string, Json>, k: string) {
    k in o && o[k].JNumber?
  }

  predicate HasBool(o: map<string, Json>, k: string) {
    k in o && o[k].JBool?
  }

  predicate HasArray(o: map<string, Json>, k: string) {
    k in o && o[k].JArray?
  }

  /**
   * `isAttemptEvent`: an object with string `id`, `problemId`, `prompt`,
   * `studentAnswer` and `correctAnswer`, number `ts`, `timeSpentSec` and
   * `hintsUsed`, boolean `isCorrect` and array `conceptTags`. The array's
   * contents and `errorCode` are not looked at.
   */
  predicate IsAttemptEvent(x: Json) {
    && x.JObject?
    && HasString(x.fields, "id")
    && HasNumber(x.fields, "ts")
    && HasString(x.fields, "problemId")
    && HasString(x.fields, "prompt")
    && HasArray(x.fields, "conceptTags")
    && HasString(x.fields, "studentAnswer")
    && HasString(x.fields, "correctAnswer")
    && HasBool(x.fields, "isCorrect")
    && HasNumber(x.fields, "timeSpentSec")
    && HasNumber(x.fields, "hintsUsed")
  }

  function EncodeTags(tags: seq<Concept>): (items: seq<Json>)
    ensures |items| == |tags|
    ensures forall i :: 0 <= i < |tags| ==> items[i] == JString(ConceptName(tags[i]))
  {
    seq(|tags|, i requires 0 <= i < |tags| => JString(ConceptName(tags[i])))
  }

  /** The record `JSON.stringify` writes for one event; `errorCode` is omitted when absent. */
  function EncodeEvent(e: AttemptEvent): (x: Json)
    ensures IsAttemptEvent(x)
    ensures "errorCode" in x.fields <==> e.errorCode.Some?
  {
    var fields := map[
      "id" := JString(e.id),
      "ts" := JNumber(e.ts),
      "problemId" := JString(e.problemId),
      "prompt" := JString(e.prompt),
      "conceptTags" := JArray(EncodeTags(e.conceptTags)),
      "studentAnswer" := JString(e.studentAnswer),
      "correctAnswer" := JString(e.correctAnswer),
      "isCorrect" := JBool(e.isCorrect),
      "timeSpentSec" := JNumber(e.timeSpentSec),
      "hintsUsed" := JNumber(e.hintsUsed)];
    match e.errorCode
    case Some(code) => JObject(fields["errorCode" := JString(ErrorCodeName(code))])
    case None => JObject(fields)
  }

  /** The log as the JSON array the persist effect stores. */
  function EncodeLog(log: seq<AttemptEvent>): (x: Json)
    ensures x.JArray? && |x.items| == |log|
    ensures forall i :: 0 <= i < |log| ==> x.items[i] == EncodeEvent(log[i])
  {
    JArray(seq(|log|, i requires 0 <= i < |log| => EncodeEvent(log[i])))
  }

  /** One stored tag, read as a concept if it names one. */
  function DecodeTag(x: Json): (r: Option<Concept>)
    ensures forall c :: r == Some(c) <==> x == JString(ConceptName(c))
  {
    assert forall c :: ConceptFromName(ConceptName(c)) == Some(c) by {
      forall c ensures ConceptFromName(ConceptName(c)) == Some(c) {
        NamesRoundTrip(c, Careless);
      }
    }
    match x
    case JString(s) => ConceptFromName(s)
    case _ => None
  }

  /** One stored tag's contribution to the read tags: its concept, or nothing. */
  function DecodedTag(x: Json): (r: seq<Concept>)
    ensures |r| <= 1
    ensures forall c :: c in r <==> x == JString(ConceptName(c))
  {
    match DecodeTag(x)
    case Some(c) => [c]
    case None => []
  }

  /** The tags of a stored record that name a concept, in order. */
  function DecodeTags(items: seq<Json>): (tags: seq<Concept>)
    ensures |tags| <= |items|
    ensures forall c :: c in tags <==> JString(ConceptName(c)) in items
  {
    ConcatAtMostOne(items, DecodedTag);
    ConcatMembers(items, DecodedTag);
    Concat(items, DecodedTag)
  }

  /** Reading a stored tag list that starts with `x`. */
  lemma DecodeTagsCons(x: Json, items: seq<Json>)
    ensures DecodeTags([x] + items) == DecodedTag(x) + DecodeTags(items)
  {
    assert ([x] + items)[1..] == items;
  }

  /** Each concept is read as many times as its wire-name string is stored. */
  lemma {:induction false} DecodeTagsCounts(items: seq<Json>)
    ensures forall c :: multiset(DecodeTags(items))[c] == multiset(items)[JString(ConceptName(c))]
  {
    if items != [] {
      var x, rest := items[0], items[1..];
      assert items == [x] + rest;
      DecodeTagsCons(x, rest);
      DecodeTagsCounts(rest);
      forall c ensures multiset(DecodeTags(items))[c] == multiset(items)[JString(ConceptName(c))] {
        var y := JString(ConceptName(c));
        assert multiset(items)[y] == multiset([x])[y] + multiset(rest)[y];
        assert multiset(DecodedTag(x))[c] == multiset([x])[y] by {
          if x == y {
            assert c in DecodedTag(x);
          } else {
            assert c !in DecodedTag(x);
          }
        }
      }
    }
  }

  /** Tags are read one stored string at a time, so reading keeps their order. */
  lemma DecodeTagsAppend(a: seq<Json>, b: seq<Json>)
    ensures DecodeTags(a + b) == DecodeTags(a) + DecodeTags(b)
  {
    ConcatAppend(a, b, DecodedTag);
  }

  /** The stored `errorCode` field, if present, read as a code. */
  function DecodeErrorCode(x: Option<Json>): (r: Option<ErrorCode>)
    ensures forall code :: r == Some(code) <==> x == Some(JString(ErrorCodeName(code)))
  {
    assert forall code :: ErrorCodeFromName(ErrorCodeName(code)) == Some(code) by {
      forall code ensures ErrorCodeFromName(ErrorCodeName(code)) == Some(code) {
        NamesRoundTrip(FractionsAddSub, code);
      }
    }
    match x
    case Some(JString(s)) => ErrorCodeFromName(s)
    case _ => None
  }

  /** A record that passed the shape check, read as an event. */
  function DecodeEvent(x: Json): (e: AttemptEvent)
    requires IsAttemptEvent(x)
    ensures e.id == x.fields["id"].s && e.ts == x.fields["ts"].n && e.problemId == x.fields["problemId"].s
    ensures e.prompt == x.fields["prompt"].s && e.studentAnswer == x.fields["studentAnswer"].s
    ensures e.correctAnswer == x.fields["correctAnswer"].s && e.isCorrect == x.fields["isCorrect"].b
    ensures e.timeSpentSec == x.fields["timeSpentSec"].n && e.hintsUsed == x.fields["hintsUsed"].n
    ensures forall c :: c in e.conceptTags <==> JString(ConceptName(c)) in x.fields["conceptTags"].items
    ensures forall code :: e.errorCode == Some(code) <==>
      "errorCode" in x.fields && x.fields["errorCode"] == JString(ErrorCodeName(code))
  {
    var o := x.fields;
    AttemptEvent(
      o["id"].s, o["ts"].n, o["problemId"].s, o["prompt"].s,
      DecodeTags(o["conceptTags"].items),
      o["studentAnswer"].s, o["correctAnswer"].s, o["isCorrect"].b,
      o["timeSpentSec"].n, o["hintsUsed"].n,
      DecodeErrorCode(if "errorCode" in o then Some(o["errorCode"]) else None))
  }

  /** One record's contribution to the filtered log. */
  function Keep(x: Json): (r: seq<AttemptEvent>)
    ensures |r| <= 1
    ensures |r| == 1 <==> IsAttemptEvent(x)
    ensures forall e :: e in r ==> IsAttemptEvent(x) && e == DecodeEvent(x)
  {
    if IsAttemptEvent(x) then [DecodeEvent(x)] else []
  }

  /** Each item's contribution, concatenated in order. */
  function Concat<T, U>(items: seq<T>, f: T -> seq<U>): seq<U> {
    if items == [] then [] else f(items[0]) + Concat(items[1..], f)
  }

  lemma {:induction false} ConcatAppend<T, U>(a: seq<T>, b: seq<T>, f: T -> seq<U>)
    ensures Concat(a + b, f) == Concat(a, f) + Concat(b, f)
  {
    if a == [] {
      assert a + b == b;
    } else {
      ConcatAppend(a[1..], b, f);
      assert (a + b)[0] == a[0];
      assert (a + b)[1..] == a[1..] + b;
    }
  }

  /** `parsed.filter(isAttemptEvent)`: the records passing the check, in order. */
  function ValidRecords(items: seq<Json>): seq<AttemptEvent> {
    Concat(items, Keep)
  }

  /**
   * `readFromStorage`: nothing for an absent, empty or unparsable slot or
   * for a value that is not an array; otherwise the valid records.
   */
  function ReadFromStorage(slot: Option<Stored>): (r: Option<seq<AttemptEvent>>)
    ensures r.Some? <==> slot.Some? && slot.value.Parsed? && slot.value.value.JArray?
  {
    match slot
    case Some(Parsed(JArray(items))) => Some(ValidRecords(items))
    case _ => None
  }

  // ---------------------------------------------------------------------------
  // Properties
  // ---------------------------------------------------------------------------

  lemma {:induction false} TagsRoundTrip(tags: seq<Concept>)
    ensures DecodeTags(EncodeTags(tags)) == tags
  {
    if tags != [] {
      var head, rest := EncodeTags(tags)[0], EncodeTags(tags[1..]);
      assert EncodeTags(tags) == [head] + rest;
      DecodeTagsCons(head, rest);
      TagsRoundTrip(tags[1..]);
      assert DecodedTag(head) == [tags[0]] by {
        assert DecodeTag(head) == Some(tags[0]);
      }
    }
  }

  /** The fields of the record written for one event. */
  lemma EncodedFields(e: AttemptEvent)
    ensures var o := EncodeEvent(e).fields;
      && o["id"] == JString(e.id) && o["ts"] == JNumber(e.ts)
      && o["problemId"] == JString(e.problemId) && o["prompt"] == JString(e.prompt)
      && o["conceptTags"] == JArray(EncodeTags(e.conceptTags))
      && o["studentAnswer"] == JString(e.studentAnswer)
      && o["correctAnswer"] == JString(e.correctAnswer)
      && o["isCorrect"] == JBool(e.isCorrect)
      && o["timeSpentSec"] == JNumber(e.timeSpentSec) && o["hintsUsed"] == JNumber(e.hintsUsed)
      && (e.errorCode.Some? ==> o["errorCode"] == JString(ErrorCodeName(e.errorCode.value)))
  {
  }

  /** Writing an event and reading it back yields the same event. */
  lemma EventRoundTrip(e: AttemptEvent)
    ensures IsAttemptEvent(EncodeEvent(e))
    ensures DecodeEvent(EncodeEvent(e)) == e
  {
    var x := EncodeEvent(e);
    EncodedFields(e);
    var d := DecodeEvent(x);
    assert d.conceptTags == e.conceptTags by {
      TagsRoundTrip(e.conceptTags);
    }
    assert d.errorCode == e.errorCode by {
      if e.errorCode.Some? {
        NamesRoundTrip(FractionsAddSub, e.errorCode.value);
      }
    }
  }

  lemma {:induction false} LogRoundTrip(log: seq<AttemptEvent>)
    ensures ValidRecords(EncodeLog(log).items) == log
  {
    if log != [] {
      LogRoundTrip(log[1..]);
      assert EncodeLog(log).items[1..] == EncodeLog(log[1..]).items;
      EventRoundTrip(log[0]);
    }
  }

  /** What the persist effect stores reads back as the log itself, even an empty one. */
  lemma StoredLogReadsBack(log: seq<AttemptEvent>)
    ensures ReadFromStorage(Some(Parsed(EncodeLog(log)))) == Some(log)
  {
    LogRoundTrip(log);
  }

  /** The filter keeps the order of the records it keeps. */
  lemma ValidRecordsAppend(a: seq<Json>, b: seq<Json>)
    ensures ValidRecords(a + b) == ValidRecords(a) + ValidRecords(b)
  {
    ConcatAppend(a, b, Keep);
  }

  lemma {:induction false} ConcatMembers<T, U>(items: seq<T>, f: T -> seq<U>)
    ensures forall y :: y in Concat(items, f) ==> exists i :: 0 <= i < |items| && y in f(items[i])
    ensures forall i, y :: 0 <= i < |items| && y in f(items[i]) ==> y in Concat(items, f)
  {
    if items != [] {
      var tail := items[1..];
      ConcatMembers(tail, f);
      assert Concat(items, f) == f(items[0]) + Concat(tail, f);
      forall y | y in Concat(items, f) ensures exists i :: 0 <= i < |items| && y in f(items[i]) {
        if y !in f(items[0]) {
          assert y in Concat(tail, f);
          var j :| 0 <= j < |tail| && y in f(tail[j]);
          assert items[j + 1] == tail[j];
        }
      }
      forall i, y | 0 <= i < |items| && y in f(items[i]) ensures y in Concat(items, f) {
        if i > 0 {
          assert items[i] == tail[i - 1];
          assert y in Concat(tail, f);
        }
      }
    }
  }

  /** Items contributing at most one element each contribute at most as many elements as there are items. */
  lemma {:induction false} ConcatAtMostOne<T, U>(items: seq<T>, f: T -> seq<U>)
    requires forall x :: |f(x)| <= 1
    ensures |Concat(items, f)| <= |items|
  {
    if items != [] {
      ConcatAtMostOne(items[1..], f);
    }
  }

  lemma {:induction false} ConcatSingletons<T, U>(items: seq<T>, f: T -> seq<U>)
    requires forall i :: 0 <= i < |items| ==> |f(items[i])| == 1
    ensures |Concat(items, f)| == |items|
    ensures forall i :: 0 <= i < |items| ==> Concat(items, f)[i] == f(items[i])[0]
  {
    if items != [] {
      var tail := items[1..];
      assert forall i :: 0 <= i < |tail| ==> tail[i] == items[i + 1];
      ConcatSingletons(tail, f);
    }
  }

  /**
   * Records failing the shape check are skipped, and only those: the result
   * holds exactly the decoded passing records, and all of them, in order,
   * when all pass.
   */
  lemma ValidRecordsMembers(items: seq<Json>)
    ensures forall e :: e in ValidRecords(items) <==>
      exists i :: 0 <= i < |items| && IsAttemptEvent(items[i]) && DecodeEvent(items[i]) == e
    ensures (forall i :: 0 <= i < |items| ==> IsAttemptEvent(items[i])) ==>
      |ValidRecords(items)| == |items| &&
      forall i :: 0 <= i < |items| ==> ValidRecords(items)[i] == DecodeEvent(items[i])
  {
    ConcatMembers(items, Keep);
    if forall i :: 0 <= i < |items| ==> IsAttemptEvent(items[i]) {
      ConcatSingletons(items, Keep);
    }
  }

  /** The fields `isAttemptEvent` looks at. */
  const RequiredFields: set<string> := {
    "id", "ts", "problemId", "prompt", "conceptTags",
    "studentAnswer", "correctAnswer", "isCorrect", "timeSpentSec", "hintsUsed" }

  /** Every field the check names is needed: a record missing it, or holding `null` there, fails. */
  lemma ShapeCheckNeedsEveryField(fields: map<string, Json>, k: string)
    requires k in RequiredFields
    ensures !IsAttemptEvent(JObject(fields - {k}))
    ensures !IsAttemptEvent(JObject(fields[k := JNull]))
  {
  }

  /** Only objects pass the check. */
  lemma ShapeCheckNeedsObject(x: Json)
    requires !x.JObject?
    ensures !IsAttemptEvent(x)
  {
  }

  /**
   * The check is shallow: a record with a malformed `errorCode` and tags that
   * name no concept still passes, and reads as an event with neither.
   */
  lemma ShapeCheckIsShallow(x: Json)
    requires IsAttemptEvent(x)
    ensures var y := JObject(x.fields["conceptTags" := JArray([JNumber(7.0), JNull])]["errorCode" := JBool(true)]);
      IsAttemptEvent(y) && DecodeEvent(y).conceptTags == [] && DecodeEvent(y).errorCode == None
  {
    var y := JObject(x.fields["conceptTags" := JArray([JNumber(7.0), JNull])]["errorCode" := JBool(true)]);
    assert [JNumber(7.0), JNull][1..] == [JNull];
  }
}
