/**
 Replay compares JSON artifacts by a normal form: volatile values become placeholders, source-only keys
 disappear, text is rewritten.  Two trees have the same normal form exactly when they agree everywhere else.
 */
module ReplayNormalForm {

  datatype Json =
    | JNull
    | JBool(b: bool)
    | JNumber(n: int)
    | JString(s: string)
    | JArray(items: seq<Json>)
    | JObject(fields: map<string, Json>)

  const VOLATILE_JSON_KEYS := {
    "agent_attempt_id", "message_id", "scorer_attempt_id", "started_at", "ended_at", "timestamp_utc",
    "duration_ms", "latency_ms", "stdout_bytes", "stderr_bytes" }

  const SOURCE_ONLY_REPLAY_JSON_KEYS := {"eval_attempt"}

  function Upper(s: string): string {
    seq(|s|, i requires 0 <= i < |s| => if 'a' <= s[i] <= 'z' then ((s[i] as int) - 32) as char else s[i])
  }

  function Placeholder(key: string): Json {
    JString("<" + Upper(key) + ">")
  }

  function NormalForm(v: Json, text: string -> string): Json {
    match v
    case JObject(fields) =>
      JObject(map key | key in fields && key !in SOURCE_ONLY_REPLAY_JSON_KEYS ::
        if key in VOLATILE_JSON_KEYS then Placeholder(key) else NormalForm(fields[key], text))
    case JArray(items) => JArray(seq(|items|, i requires 0 <= i < |items| => NormalForm(items[i], text)))
    case JString(s) => JString(text(s))
    case _ => v
  }

  function ComparedKeys(fields: map<string, Json>): set<string> {
    fields.Keys - SOURCE_ONLY_REPLAY_JSON_KEYS
  }

  /** Agreement, said without normalising: same shape, and the same value wherever a value is compared. */
  predicate Agree(a: Json, b: Json, text: string -> string) {
    match a
    case JObject(fields) =>
      && b.JObject?
      && ComparedKeys(fields) == ComparedKeys(b.fields)
      && forall key :: key in ComparedKeys(fields) && key !in VOLATILE_JSON_KEYS ==> Agree(fields[key], b.fields[key], text)
    case JArray(items) =>
      && b.JArray? && |items| == |b.items|
      && forall i :: 0 <= i < |items| ==> Agree(items[i], b.items[i], text)
    case JString(s) => b.JString? && text(s) == text(b.s)
    case _ => a == b
  }

  lemma {:induction false} NormalFormDecidesAgreement(a: Json, b: Json, text: string -> string)
    ensures NormalForm(a, text) == NormalForm(b, text) <==> Agree(a, b, text)
  {
    var na, nb := NormalForm(a, text), NormalForm(b, text);
    match a
    case JObject(fields) =>
      if b.JObject? {
        assert na.fields.Keys == ComparedKeys(fields) && nb.fields.Keys == ComparedKeys(b.fields);
        if ComparedKeys(fields) == ComparedKeys(b.fields) {
          forall key | key in ComparedKeys(fields)
            ensures na.fields[key] == nb.fields[key] <==> key in VOLATILE_JSON_KEYS || Agree(fields[key], b.fields[key], text)
          {
            NormalFormDecidesAgreement(fields[key], b.fields[key], text);
          }
          assert na.fields == nb.fields <==> forall key :: key in ComparedKeys(fields) ==> na.fields[key] == nb.fields[key];
        }
      }
    case JArray(items) =>
      if b.JArray? && |items| == |b.items| {
        forall i | 0 <= i < |items|
          ensures na.items[i] == nb.items[i] <==> Agree(items[i], b.items[i], text)
        {
          NormalFormDecidesAgreement(items[i], b.items[i], text);
        }
        assert na.items == nb.items <==> forall i :: 0 <= i < |items| ==> na.items[i] == nb.items[i];
      } else if b.JArray? {
        assert |na.items| != |nb.items|;
      }
    case _ =>
  }

  /** Comparing normal forms a second time changes nothing. */
  lemma {:induction false} NormalFormIsStable(v: Json, text: string -> string)
    requires forall s :: text(text(s)) == text(s)
    ensures NormalForm(NormalForm(v, text), text) == NormalForm(v, text)
  {
    var n := NormalForm(v, text);
    match v
    case JObject(fields) =>
      forall key | key in n.fields && key !in VOLATILE_JSON_KEYS
        ensures NormalForm(n.fields[key], text) == n.fields[key]
      {
        NormalFormIsStable(fields[key], text);
      }
      assert NormalForm(n, text).fields == n.fields;
    case JArray(items) =>
      forall i | 0 <= i < |items|
        ensures NormalForm(n.items[i], text) == n.items[i]
      {
        NormalFormIsStable(items[i], text);
      }
      assert NormalForm(n, text).items == n.items;
    case _ =>
  }

  /** The declared identity of a source attempt never shows up in a comparison. */
  lemma DeclaredIdentityIsInvisible(fields: map<string, Json>, evalAttempt: Json, text: string -> string)
    requires "eval_attempt" !in fields
    ensures NormalForm(JObject(fields["eval_attempt" := evalAttempt]), text) == NormalForm(JObject(fields), text)
  {
    var a, b := JObject(fields["eval_attempt" := evalAttempt]), JObject(fields);
    assert NormalForm(a, text).fields == NormalForm(b, text).fields;
  }
}
