/**
 * The single "validated value" rule behind every decoded field: take the
 * payload's value under a key when it has an acceptable type and range,
 * otherwise use the field's default, exactly as if the key were absent.
 */
module ValidatedValue {
  import opened Wrappers
  import opened JsonValues

  /** A duration field accepts any JSON number that is not negative. */
  function AsNonNegative(v: Json): (r: Option<real>)
    ensures r.Some? <==> v.JNumber? && v.n >= 0.0
    ensures r.Some? ==> r.value == v.n
  {
    if v.JNumber? && v.n >= 0.0 then Some(v.n) else None
  }

  /** The value under `key` when `accept` takes it, else `default`. */
  function DecodeOr<T>(j: Json, key: string, accept: Json -> Option<T>, default: T): (r: T)
    ensures Lookup(j, key).Some? && accept(Lookup(j, key).value).Some? ==>
              r == accept(Lookup(j, key).value).value
    ensures Lookup(j, key).None? || accept(Lookup(j, key).value).None? ==> r == default
  {
    match Lookup(j, key)
    case Some(v) => (match accept(v) case Some(x) => x case None => default)
    case None => default
  }

  /**
   * `x` is what a duration field under `key` decodes to: the payload's number
   * there when it is not negative, and `default` for anything else.
   */
  predicate IsDurationField(j: Json, key: string, default: real, x: real)
  {
    match Lookup(j, key)
    case Some(JNumber(n)) => x == (if n >= 0.0 then n else default)
    case _ => x == default
  }

  /** A non-negative duration, or `default` when absent, negative or not a number. */
  function NonNegativeOr(j: Json, key: string, default: real): (r: real)
    ensures default >= 0.0 ==> r >= 0.0
    ensures Lookup(j, key).Some? && AsNonNegative(Lookup(j, key).value).Some? ==> r == Lookup(j, key).value.n
    ensures r == default || (Lookup(j, key).Some? && Lookup(j, key).value == JNumber(r) && r >= 0.0)
    ensures IsDurationField(j, key, default, r)
  {
    DecodeOr(j, key, AsNonNegative, default)
  }

  /** A value the rule rejects decodes exactly as if its key were missing. */
  lemma InvalidActsAsAbsent<T>(fields: map<string, Json>, key: string, v: Json,
                               accept: Json -> Option<T>, default: T)
    requires accept(v).None?
    ensures DecodeOr(JObject(fields[key := v]), key, accept, default)
         == DecodeOr(JObject(fields - {key}), key, accept, default)
         == default
  {
  }

  /** A value the rule accepts is what the field decodes to, whatever the default. */
  lemma AcceptedIsKept<T>(fields: map<string, Json>, key: string, v: Json,
                          accept: Json -> Option<T>, default: T, x: T)
    requires accept(v) == Some(x)
    ensures DecodeOr(JObject(fields[key := v]), key, accept, default) == x
  {
  }
}
