/** Values shared by the agents and the UI state machines: optional values,
    settled outcomes of external calls, and what a JavaScript `catch` sees. */
module Common {

  /** An absent value versus a present one. Where the source treats `null`
      and `undefined` differently (the role a page reads), its own type
      keeps them apart. */
  datatype Option<+T> = None | Some(value: T)

  /** What a `catch` block receives: an `Error` object (with its message) or
      any other thrown value. */
  datatype Thrown = ErrorValue(message: string) | OtherValue

  /** The settled outcome of a promise or of a call that may throw. */
  datatype Result<+T> = Ok(value: T) | Err(error: Thrown)

  /** `err instanceof Error ? err.message : fallback` */
  function MessageOf(e: Thrown, fallback: string): (m: string)
    ensures e.ErrorValue? ==> m == e.message
    ensures e.OtherValue? ==> m == fallback
  {
    match e
    case ErrorValue(msg) => msg
    case OtherValue => fallback
  }

  /** JavaScript truthiness of an optional string: `undefined`, `null` and
      `''` are falsy. */
  predicate Truthy(s: Option<string>) {
    s.Some? && s.value != ""
  }

  /** A suggested follow-up action (the `NextStep` record of the study tools). */
  datatype NextStep = NextStep(title: string, description: string, toolId: string,
                               prefilledTopic: string, cta: string)

  /** A key of the browser's session storage counts as unset when
      `getItem` returns `null` or the falsy empty string. */
  predicate SessionFlagUnset(session: map<string, string>, key: string) {
    key !in session || session[key] == ""
  }

  /** `r.status === 'fulfilled' ? r.value : undefined` */
  function Settled<T>(r: Result<T>): (v: Option<T>)
    ensures v.Some? <==> r.Ok?
    ensures v.Some? ==> v.value == r.value
  {
    if r.Ok? then Some(r.value) else None
  }

  /** The request every MCQ generator call takes. */
  datatype McqRequest = McqRequest(topic: string, count: nat, difficulty: string, examType: string)

  /** The `media` part of an image generation response. */
  datatype Media = Media(url: Option<string>)

  /** Sequence concatenation is associative; the filter lemmas regroup
      their pieces with it. */
  lemma ConcatAssoc<T>(x: seq<T>, y: seq<T>, z: seq<T>)
    ensures x + (y + z) == (x + y) + z
  {
  }
}
