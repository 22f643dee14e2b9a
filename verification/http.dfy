/** What a `fetch` call gives an adapter: a reply (status, status text and a body that
    `response.json()` either parses or rejects) or a thrown network error. The network itself is
    not modelled; each adapter reads one of these values. */
module Http {
  import opened Basics
  import Strings
  import opened Json

  /** The outcome of `await response.json()`: a value, or the SyntaxError message it throws. */
  datatype Body = Parsed(value: Json) | Unparseable(message: string)

  datatype Reply = Reply(status: nat, statusText: string, body: Body)

  /** `await fetch(...)`: a reply, or the value the call throws. */
  datatype Fetch = Replied(reply: Reply) | NetworkError(thrown: Thrown)

  /** `response.ok`: the status is in the range 200-299. */
  predicate Ok(status: nat) {
    200 <= status <= 299
  }

  /** `${response.status}`: decimal digits that read back as the status. */
  function StatusText(status: nat): (r: string)
    ensures Strings.AllDigits(r) && r != []
    ensures Strings.DigitsValue(r) == status
  {
    Strings.DigitsRoundTrip(status);
    Strings.NatToString(status)
  }

  const NullReadPrefix := "Cannot read properties of null (reading '"

  /** The TypeError message V8 throws for `data.key` when `data` is `null`: it quotes the key. */
  function NullRead(key: string): (r: string)
    ensures |r| == |NullReadPrefix| + |key| + 2
    ensures r[..|NullReadPrefix|] == NullReadPrefix
    ensures r[|NullReadPrefix|..|r| - 2] == key
    ensures r[|r| - 2..] == "')"
  {
    NullReadPrefix + key + "')"
  }

  /** Two null reads give the same message only when they read the same key. */
  lemma NullReadNamesKey(a: string, b: string)
    ensures NullRead(a) == NullRead(b) ==> a == b
  {
    if NullRead(a) == NullRead(b) {
      var r := NullRead(a);
      assert a == r[|NullReadPrefix|..|r| - 2];
    }
  }

  /** The body a failed call echoes: `await response.json().catch(() => ({}))`. */
  function BodyOrEmpty(b: Body): (j: Json)
    ensures b.Parsed? ==> j == b.value
    ensures b.Unparseable? ==> j == Obj([])
  {
    match b
    case Parsed(v) => v
    case Unparseable(_) => Obj([])
  }

  /** `const data = await response.json()` followed by a first unguarded read `data.key`: the
      SyntaxError of an unparseable body and the TypeError of a `null` body both throw. */
  function ReadJson(b: Body, key: string): (r: Call<Json>)
    ensures r.Returned? <==> b.Parsed? && !b.value.Null?
    ensures r.Returned? ==> r.value == b.value
    ensures b.Unparseable? ==> r == Threw(ErrorValue(b.message))
    ensures b.Parsed? && b.value.Null? ==> r == Threw(ErrorValue(NullRead(key)))
  {
    match b
    case Unparseable(m) => Threw(ErrorValue(m))
    case Parsed(data) => if data.Null? then Threw(ErrorValue(NullRead(key))) else Returned(data)
  }

  /** The `try` block every generating adapter method shares: send, throw on a status outside
      200-299 (with a message built from the reply), parse the body, and hand the parsed value
      to the method-specific reading, which may itself return or throw. */
  function Exchange<T>(f: Fetch, httpError: Reply -> string, firstKey: string, onData: Json -> Call<T>): (r: Call<T>)
    ensures f.NetworkError? ==> r == Threw(f.thrown)
    ensures f.Replied? && !Ok(f.reply.status) ==> r == Threw(ErrorValue(httpError(f.reply)))
    ensures f.Replied? && Ok(f.reply.status) && f.reply.body.Unparseable? ==> r == Threw(ErrorValue(f.reply.body.message))
    ensures f.Replied? && Ok(f.reply.status) && f.reply.body == Parsed(Null) ==> r == Threw(ErrorValue(NullRead(firstKey)))
    ensures f.Replied? && Ok(f.reply.status) && f.reply.body.Parsed? && !f.reply.body.value.Null? ==> r == onData(f.reply.body.value)
  {
    match f
    case NetworkError(e) => Threw(e)
    case Replied(reply) =>
      if !Ok(reply.status) then Threw(ErrorValue(httpError(reply)))
      else
        match ReadJson(reply.body, firstKey)
        case Threw(e) => Threw(e)
        case Returned(data) => onData(data)
  }

  /** A 2xx reply whose body parsed to a value other than `null`: the only replies that reach the
      method-specific reading of `Exchange`. */
  predicate Delivered(f: Fetch) {
    f.Replied? && Ok(f.reply.status) && f.reply.body.Parsed? && !f.reply.body.value.Null?
  }

  /** `isAvailable()` of the adapters that probe with a plain request: `response.ok`, and false
      when the request throws. */
  predicate ReplyOk(f: Fetch) {
    f.Replied? && Ok(f.reply.status)
  }
}
