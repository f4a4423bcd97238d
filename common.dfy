/** Shared vocabulary of the two assessment servers and the form: optional values,
    results, the JSON scalars carried in a request item, and the "first item that
    raised" search both request handlers share. */
module Common {

  datatype Option<T> = None | Some(value: T)

  datatype Result<T, E> = Success(value: T) | Failure(error: E)

  /** A JSON scalar as it arrives in a request field and is copied back out. */
  datatype Value = Num(n: int) | Text(s: string)

  /** One JSON object of the request's `responses` array. */
  type JsonObject = map<string, Value>

  /** `obj.get(key, default)`. */
  function Get(obj: JsonObject, key: string, default: Value): Value
  {
    if key in obj then obj[key] else default
  }

  /** The field `key` of `obj` was read with `obj.get(key, default)` and gave `v`. */
  predicate Defaulted(obj: JsonObject, key: string, default: Value, v: Value)
  {
    (key in obj ==> v == obj[key]) && (key !in obj ==> v == default)
  }

  /** The text an f-string interpolation `{v}` produces. */
  function Render(v: Value): string
  {
    match v
    case Text(s) => s
    case Num(n) => if n < 0 then "-" + Digits(-n) else Digits(n)
  }

  function Digits(n: nat): string
    decreases n
  {
    if n < 10 then [DigitChar(n)] else Digits(n / 10) + [DigitChar(n % 10)]
  }

  function DigitChar(d: nat): char
    requires d < 10
  {
    "0123456789"[d]
  }

  /** The position of the first failure among the per-item outcomes, or |rs| when
      every item succeeded: a handler that processes items in order stops there. */
  function FirstFailure<T, E>(rs: seq<Result<T, E>>): (k: nat)
    ensures k <= |rs|
    ensures forall j :: 0 <= j < k ==> rs[j].Success?
    ensures k < |rs| ==> rs[k].Failure?
  {
    if |rs| == 0 then 0
    else if rs[0].Failure? then 0
    else 1 + FirstFailure(rs[1..])
  }

  /** Every outcome succeeded exactly when the first failure lies past the end. */
  lemma FirstFailureAtEnd<T, E>(rs: seq<Result<T, E>>)
    ensures FirstFailure(rs) == |rs| <==> forall j :: 0 <= j < |rs| ==> rs[j].Success?
  {
  }
}
