/**
 * The plain-error codec: a total classification of any thrown value into
 * the serialisable record `{name, message, stack?}` that crosses the
 * process boundary.
 */
module PlainErrors {
  import opened JsValues

  /**
   * `{name, message, stack?}`. The fields are copied from the thrown value
   * without conversion, so they hold JavaScript values; an absent `stack`
   * is `Undefined`.
   */
  datatype PlainError = PlainError(name: JsValue, message: JsValue, stack: JsValue)

  /** The guard of `makePlainError`: a truthy object carrying a `message` or a `name` key. */
  predicate IsErrorShaped(v: JsValue)
  {
    Truthy(v) && TypeOf(v) == "object" && (HasKey(v, "message") || HasKey(v, "name"))
  }

  /** `makePlainError`: never throws, and returns a record for every input. */
  function MakePlainError(error: JsValue): (r: PlainError)
    ensures IsErrorShaped(error) ==>
              r.name == Get(error, "name") && r.message == Get(error, "message") && r.stack == Get(error, "stack")
    ensures !IsErrorShaped(error) ==>
              r.name == Str("UnknownError") && r.message == Str(JsString(error)) && r.stack.Undefined?
  {
    if IsErrorShaped(error) then
      PlainError(Get(error, "name"), Get(error, "message"), Get(error, "stack"))
    else
      PlainError(Str("UnknownError"), Str(JsString(error)), Undefined)
  }

  /** The object literal a `PlainError` is in JavaScript; `stack` is left out when absent. */
  function AsObject(p: PlainError): (v: JsValue)
    ensures v.Obj? && "name" in v.props && "message" in v.props
  {
    var fields := map["name" := p.name, "message" := p.message];
    Obj(if p.stack.Undefined? then fields else fields["stack" := p.stack], "[object Object]")
  }

  /** Every value that is not an object is classified as `UnknownError`, whatever its truthiness. */
  lemma NonObjectIsUnknown(v: JsValue)
    requires !v.Obj?
    ensures MakePlainError(v) == PlainError(Str("UnknownError"), Str(JsString(v)), Undefined)
  {
  }

  /** Falsy values (`null`, `undefined`, `false`, `0`, `""`) become `UnknownError` with `String(value)`. */
  lemma FalsyIsUnknown(v: JsValue)
    requires !Truthy(v)
    ensures MakePlainError(v) == PlainError(Str("UnknownError"), Str(JsString(v)), Undefined)
  {
  }

  /** An object with neither a `message` nor a `name` key is `UnknownError`, message `String(value)`. */
  lemma KeylessObjectIsUnknown(props: map<string, JsValue>, shown: string)
    requires "message" !in props && "name" !in props
    ensures MakePlainError(Obj(props, shown)) == PlainError(Str("UnknownError"), Str(shown), Undefined)
  {
  }

  /**
   * Encoding a record again gives the record back: `makePlainError` is a
   * projection, so a plain error re-thrown across a second boundary is
   * unchanged.
   */
  lemma {:induction false} ReencodeIsIdentity(p: PlainError)
    ensures MakePlainError(AsObject(p)) == p
  {
    var v := AsObject(p);
    assert IsErrorShaped(v);
    assert Get(v, "stack") == p.stack;
  }

  /** Hence classifying twice is classifying once. */
  lemma {:induction false} MakePlainErrorIdempotent(v: JsValue)
    ensures MakePlainError(AsObject(MakePlainError(v))) == MakePlainError(v)
  {
    ReencodeIsIdentity(MakePlainError(v));
  }
}
