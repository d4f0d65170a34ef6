/**
 * Request validation at the edge: the body schema of the create route (an object
 * with a string `title`, a numeric `amount` and a `type` of "credit" or "debit")
 * and the UUID format the get-by-id route demands of its path parameter.
 */
module Schema {
  import opened Wrappers

  /** A decoded JSON request body; a missing body is `JNull`. Numbers are integers. */
  datatype Json =
    | JNull
    | JBool(b: bool)
    | JNum(n: int)
    | JStr(s: string)
    | JArr(items: seq<Json>)
    | JObj(fields: map<string, Json>)

  /** Where a validation issue sits: the whole input, or one of its fields. */
  datatype Field = Root | Title | Amount | Type | Id

  /** The direction of a transaction. */
  datatype Kind = Credit | Debit

  /** A create-route body that passed validation. */
  datatype Body = Body(title: string, amount: int, kind: Kind)

  /** The value at `key`, or None when the key is missing (JavaScript `undefined`). */
  function Get(fields: map<string, Json>, key: string): Option<Json>
  {
    if key in fields then Some(fields[key]) else None
  }

  predicate IsString(v: Option<Json>) { v.Some? && v.value.JStr? }

  predicate IsNumber(v: Option<Json>) { v.Some? && v.value.JNum? }

  /** The enum check on `type`: exactly the strings "credit" and "debit". */
  function ParseKind(v: Option<Json>): (r: Option<Kind>)
    ensures r == Some(Credit) <==> v == Some(JStr("credit"))
    ensures r == Some(Debit) <==> v == Some(JStr("debit"))
  {
    if v == Some(JStr("credit")) then Some(Credit)
    else if v == Some(JStr("debit")) then Some(Debit)
    else None
  }

  /** The spelling of a kind on the wire. */
  function KindName(k: Kind): string
  {
    match k
    case Credit => "credit"
    case Debit => "debit"
  }

  /**
   * The object schema's parse: a non-object input is one issue at the root; an object
   * gets one issue per failing field, in the schema's key order. Unknown keys are ignored.
   */
  function ParseBody(body: Json): (r: Result<Body, seq<Field>>)
    ensures !body.JObj? ==> r == Failure([Root])
    ensures r.Success? <==>
      body.JObj? && IsString(Get(body.fields, "title")) && IsNumber(Get(body.fields, "amount"))
      && ParseKind(Get(body.fields, "type")).Some?
    ensures r.Success? ==>
      Get(body.fields, "title") == Some(JStr(r.value.title)) &&
      Get(body.fields, "amount") == Some(JNum(r.value.amount)) &&
      Get(body.fields, "type") == Some(JStr(KindName(r.value.kind)))
    ensures r.Failure? ==> r.error != []
    ensures r.Failure? && body.JObj? ==>
      Root !in r.error && Id !in r.error &&
      (Title in r.error <==> !IsString(Get(body.fields, "title"))) &&
      (Amount in r.error <==> !IsNumber(Get(body.fields, "amount"))) &&
      (Type in r.error <==> ParseKind(Get(body.fields, "type")).None?)
  {
    match body
    case JObj(fields) =>
      var title := Get(fields, "title");
      var amount := Get(fields, "amount");
      var kind := ParseKind(Get(fields, "type"));
      var issues :=
        (if IsString(title) then [] else [Title]) +
        (if IsNumber(amount) then [] else [Amount]) +
        (if kind.Some? then [] else [Type]);
      if issues == [] then Success(Body(title.value.s, amount.value.n, kind.value))
      else Failure(issues)
    case _ => Failure([Root])
  }

  /** The body a client sends for `b`. */
  function Encode(b: Body): Json
  {
    JObj(map["title" := JStr(b.title), "amount" := JNum(b.amount), "type" := JStr(KindName(b.kind))])
  }

  predicate IsHexDigit(c: char)
  {
    ('0' <= c <= '9') || ('a' <= c <= 'f') || ('A' <= c <= 'F')
  }

  const NilUuid: string := "00000000-0000-0000-0000-000000000000"
  const MaxUuid: string := "ffffffff-ffff-ffff-ffff-ffffffffffff"

  /** Positions of the four hyphens in the 8-4-4-4-12 textual form. */
  predicate IsHyphenPosition(i: int) { i == 8 || i == 13 || i == 18 || i == 23 }

  /**
   * The UUID format accepted by the params schema: 8-4-4-4-12 hexadecimal digits with
   * a version digit 1 to 8 and a variant digit 8, 9, a or b (either case), or the nil
   * and the max UUID.
   */
  predicate IsUuid(s: string)
  {
    s == NilUuid || s == MaxUuid ||
    (|s| == 36 &&
     (forall i | 0 <= i < 36 :: if IsHyphenPosition(i) then s[i] == '-' else IsHexDigit(s[i])) &&
     '1' <= s[14] <= '8' &&
     s[19] in "89abAB")
  }

  /** The params schema of the get-by-id route. */
  function ParseId(id: string): (r: Result<string, seq<Field>>)
    ensures r.Success? <==> IsUuid(id)
    ensures r.Success? ==> r.value == id
    ensures r.Failure? ==> r.error == [Id]
  {
    if IsUuid(id) then Success(id) else Failure([Id])
  }

  /** Every UUID has the 36-character hyphenated shape. */
  lemma UuidShape(s: string)
    requires IsUuid(s)
    ensures |s| == 36 && s[8] == '-' && s[13] == '-' && s[18] == '-' && s[23] == '-'
  {
    if s != NilUuid && s != MaxUuid {
      assert IsHyphenPosition(8) && IsHyphenPosition(13) && IsHyphenPosition(18) && IsHyphenPosition(23);
    }
  }

  /** Decoding what a client encodes gives back the same body. */
  lemma ParseEncode(b: Body)
    ensures ParseBody(Encode(b)) == Success(b)
  {
    var f := Encode(b).fields;
    assert Get(f, "title") == Some(JStr(b.title));
    assert Get(f, "amount") == Some(JNum(b.amount));
    assert Get(f, "type") == Some(JStr(KindName(b.kind)));
  }

  /** Keys outside the schema are stripped: adding one never changes the outcome. */
  lemma ParseIgnoresUnknownKeys(fields: map<string, Json>, key: string, v: Json)
    requires key != "title" && key != "amount" && key != "type"
    ensures ParseBody(JObj(fields[key := v])) == ParseBody(JObj(fields))
  {
    var g := fields[key := v];
    assert Get(g, "title") == Get(fields, "title");
    assert Get(g, "amount") == Get(fields, "amount");
    assert Get(g, "type") == Get(fields, "type");
  }
}
