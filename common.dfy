/** Vocabulary shared by the two HTTP handler modules: the HTTP outcome of a
    request, optional request fields, JavaScript truthiness of a string field,
    and `Array.prototype.join`. */
module Common {

  datatype Option<+T> = None | Some(value: T)

  /** The status a handler sends back. `NoResponse` stands for a request the
      handler never answers: its promise rejects with nobody catching it, or it
      never settles. The others are the codes of the `http-status-codes`
      package: 200, 400, 401, 404 and 500. */
  datatype Status = OK | BadRequest | Unauthorized | NotFound | InternalError | NoResponse

  /** JavaScript truthiness of an optional string field of a JSON body:
      `undefined` and `""` are falsy, every other string is truthy. */
  predicate Truthy(v: Option<string>)
  {
    v.Some? && v.value != ""
  }

  /** `parts.join(sep)`: the parts in order with `sep` between neighbours. */
  function Join(parts: seq<string>, sep: string): (r: string)
  {
    if parts == [] then ""
    else if |parts| == 1 then parts[0]
    else parts[0] + sep + Join(parts[1..], sep)
  }

  /** Pushing one more part extends the joined string by a separator and that
      part, or starts it when nothing was pushed yet. No proof here needs it:
      it records the `push`-then-`join` behaviour that `/update` builds its
      message with, for any number of notes. */
  lemma {:induction false} JoinPush(parts: seq<string>, p: string, sep: string)
    ensures Join(parts + [p], sep) == if parts == [] then p else Join(parts, sep) + sep + p
  {
    if |parts| > 1 {
      assert (parts + [p])[1..] == parts[1..] + [p];
      JoinPush(parts[1..], p, sep);
    } else if |parts| == 1 {
      assert (parts + [p])[1..] == [p];
    }
  }
}
