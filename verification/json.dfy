/** Parsed JSON values as JavaScript sees them after the search client has
    decoded a response body, together with the nullness test of fp-ts. */
module Json {
  import opened Fp

  /** A JSON value. Numbers are integers here: only counts and lengths are
      ever read from them. */
  datatype Json =
    | Null
    | Bool(b: bool)
    | Num(n: int)
    | Str(s: string)
    | Arr(items: seq<Json>)
    | Obj(fields: map<string, Json>)

  /** The property read `v[key]`: `None` is JavaScript `undefined`. Only
      objects have members in this model. */
  function Member(v: Json, key: string): Option<Json>
  {
    if v.Obj? && key in v.fields then Some(v.fields[key]) else None
  }

  /** JavaScript `x == null`: true of `undefined` and of `null`, and of no
      other value (in particular not of `false`, `0` or `""`). */
  predicate IsNullish(x: Option<Json>)
  {
    x.None? || x.value.Null?
  }

  /** fp-ts `fromNullable(e)(a)`. */
  function FromNullable<E>(e: E, a: Option<Json>): Either<E, Json>
  {
    if IsNullish(a) then Left(e) else Right(a.value)
  }
}
