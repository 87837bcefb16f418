/**
 * JSON values and the JSON.stringify / JSON.parse pair, kept abstract: a codec is a pair of
 * function values; `Lawful` and `LawfulJson` are the round-trip laws the rest of the model assumes of them.
 */
module Codecs {
  import opened Wrappers

  /** A value that JSON.parse can produce. Numbers are modelled as integers. */
  datatype Json =
    | JNull
    | JBool(b: bool)
    | JNum(n: int)
    | JStr(s: string)
    | JArr(items: seq<Json>)
    | JObj(fields: seq<(string, Json)>)

  /** JavaScript truthiness (`!!v`) of a parsed value. */
  predicate Truthy(v: Json)
    ensures !Truthy(v) <==> v == JNull || v == JBool(false) || v == JNum(0) || v == JStr("")
  {
    match v
    case JNull => false
    case JBool(b) => b
    case JNum(n) => n != 0
    case JStr(s) => s != ""
    case JArr(_) => true
    case JObj(_) => true
  }

  /** JSON.stringify and JSON.parse at type T; `parse` answers None where JSON.parse throws. */
  datatype Codec<!T> = Codec(stringify: T -> string, parse: string -> Option<T>)

  /** What the model assumes of JSON: the empty text does not parse, and every value round-trips. */
  ghost predicate Lawful<T(!new)>(c: Codec<T>) {
    && c.parse("") == None
    && forall v :: c.parse(c.stringify(v)) == Some(v)
  }

  /** The largest integer a JavaScript number holds exactly (Number.MAX_SAFE_INTEGER). */
  const MAX_SAFE_INTEGER: int := 0x1F_FFFF_FFFF_FFFF

  /** A key written in canonical decimal, which JavaScript moves to the front when it builds an object. */
  predicate IndexLike(k: string) {
    && k != []
    && (forall i :: 0 <= i < |k| ==> '0' <= k[i] <= '9')
    && (k[0] == '0' ==> |k| == 1)
  }

  /**
   * A value JSON.stringify and JSON.parse carry over unchanged: integers a number holds exactly,
   * and objects whose keys are distinct and keep their order.
   */
  predicate Portable(v: Json)
    decreases v
  {
    match v
    case JNum(n) => -MAX_SAFE_INTEGER <= n <= MAX_SAFE_INTEGER
    case JArr(items) => forall i :: 0 <= i < |items| ==> Portable(items[i])
    case JObj(fields) =>
      && (forall i, j :: 0 <= i < j < |fields| ==> fields[i].0 != fields[j].0)
      && (forall i :: 0 <= i < |fields| ==> !IndexLike(fields[i].0) && Portable(fields[i].1))
    case _ => true
  }

  /** What the model assumes of JSON.stringify and JSON.parse on parsed values: the round trip on portable values. */
  ghost predicate LawfulJson(c: Codec<Json>) {
    && c.parse("") == None
    && forall v :: Portable(v) ==> c.parse(c.stringify(v)) == Some(v)
  }

  /** The same for the JSON codec: the text of a portable value is never empty. */
  lemma JsonStringifyNonEmpty(c: Codec<Json>, v: Json)
    requires LawfulJson(c) && Portable(v)
    ensures c.stringify(v) != ""
  {
    assert c.parse(c.stringify(v)) == Some(v);
  }

  /** A lawful codec never produces the empty (falsy) text. */
  lemma StringifyNonEmpty<T(!new)>(c: Codec<T>, v: T)
    requires Lawful(c)
    ensures c.stringify(v) != ""
  {
    assert c.parse(c.stringify(v)) == Some(v);
  }
}
