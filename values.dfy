/** Values that cross the boundary of the gatekeeper: JSON-like values (the
    claims of a token and what handlers keep in a request's context) and
    UUIDs together with the abstract codec that parses and prints them. */
module Values {
  import opened Wrappers

  /** A decoded JSON value, as Go's `any` holds it after decoding. Numbers
      are kept as integers: the model only stores whole seconds in them. */
  datatype Json =
    | JStr(s: string)
    | JNum(n: int)
    | JBool(b: bool)
    | JNull
    | JArr(items: seq<Json>)
    | JObj(fields: map<string, Json>)

  /** A 128-bit UUID. */
  type Uuid = x: int | 0 <= x < 0x1_0000_0000_0000_0000_0000_0000_0000_0000

  /** uuid.Parse and UUID.String, whose internals are not modelled.
      `onError` is the UUID value uuid.Parse returns beside its error: uuid.Nil
      for a string of the wrong length, but the partly decoded value when a
      hex digit is bad, so it is left as a given function of the string. */
  datatype UuidCodec = UuidCodec(parse: string -> Option<Uuid>, show: Uuid -> string, onError: string -> Uuid)

  /** The one law the model relies on: a printed UUID parses back to itself. */
  ghost predicate LawfulCodec(u: UuidCodec) {
    forall x: Uuid {:trigger u.show(x)} :: u.parse(u.show(x)) == Some(x)
  }

  /** `id, _ := uuid.Parse(s)`: the parsed UUID, or whatever uuid.Parse
      returned beside its error when the string does not parse. */
  function ParseIgnoringError(u: UuidCodec, s: string): (r: Uuid)
    ensures u.parse(s).Some? ==> r == u.parse(s).value
    ensures u.parse(s).None? ==> r == u.onError(s)
  {
    match u.parse(s)
    case Some(x) => x
    case None => u.onError(s)
  }

  /** The error is ignored safely for a printed UUID: it parses back to
      itself, whatever the codec does with bad strings. */
  lemma ParseIgnoringErrorOfShown(u: UuidCodec, x: Uuid)
    requires LawfulCodec(u)
    ensures ParseIgnoringError(u, u.show(x)) == x
  {
    assert u.parse(u.show(x)) == Some(x);
  }

  /** The string field `key` of a JSON object, if it is there and is a string
      (Go's `m[key].(string)` with the comma-ok check). */
  function StringField(m: map<string, Json>, key: string): (r: Option<string>)
    ensures r.Some? <==> key in m && m[key].JStr?
    ensures r.Some? ==> m[key] == JStr(r.value)
  {
    if key in m && m[key].JStr? then Some(m[key].s) else None
  }
}
