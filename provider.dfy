/** The uniform envelope every provider adapter answers with, and the shape of
    an outbound HTTP exchange once the transport is abstracted away. */
module Provider {
  import opened Js

  /** `{ ok: true, normalized, fallback? }` or `{ ok: false, error }`.
      `fallback` is true only for results synthesised by the worker. */
  datatype Reply<N> = Ok(normalized: N, fallback: bool) | Fail(error: string)

  /** What one adapter invocation does: settle with a reply, or throw (an
      adapter throws only on invalid arguments). */
  datatype Call<N> = Returned(reply: Reply<N>) | Threw(message: string)

  /** The outcome of the single HTTP request an adapter makes: the request
      failed (network, timeout, bad status, unparsable body) or it produced
      the decoded body. */
  datatype Http<D> = TransportError(message: string) | Response(data: D)

  /** `result?.normalized` for a reply that may be null. */
  function Normalized<N>(r: Option<Reply<N>>): Option<N> {
    if r.Some? && r.value.Ok? then Some(r.value.normalized) else None
  }

  /** `promise.catch((e) => ({ ok: false, error: e.message }))`. */
  function Caught<N>(c: Call<N>): (r: Reply<N>)
    ensures c.Returned? ==> r == c.reply
    ensures c.Threw? ==> r == Fail(c.message)
  {
    match c
    case Returned(reply) => reply
    case Threw(m) => Fail(m)
  }
}
