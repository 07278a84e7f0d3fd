/** The `HttpMessageHandler` pipeline walk of the demo programs. */
module Handlers {
  import opened Wrappers

  /** A handler is either a `DelegatingHandler` with a (possibly null) inner
      handler, or any other handler. */
  datatype HttpHandler = Delegating(name: string, inner: Option<HttpHandler>) | Plain(name: string)

  /** `x` is reached from `h` by following InnerHandler links (including `h`). */
  predicate Reaches(h: Option<HttpHandler>, x: HttpHandler) {
    match h
    case None => false
    case Some(Plain(_)) => h == Some(x)
    case Some(Delegating(_, inner)) => h == Some(x) || Reaches(inner, x)
  }

  /** The chain from `h` stops at a null InnerHandler rather than at a plain handler. */
  predicate EndsInNull(h: Option<HttpHandler>) {
    match h
    case None => true
    case Some(Plain(_)) => false
    case Some(Delegating(_, inner)) => EndsInNull(inner)
  }

  /** `GetMostInnerHandler`: a non-delegating handler is its own answer; a
      delegating one recurses into its InnerHandler. The extension method is
      also called on a null InnerHandler, where `self as DelegatingHandler` is
      null and null comes back. */
  function GetMostInnerHandler(h: Option<HttpHandler>): (r: Option<HttpHandler>)
    ensures r.Some? ==> r.value.Plain? && Reaches(h, r.value)
    ensures r.None? <==> EndsInNull(h)
    ensures h.Some? && h.value.Plain? ==> r == h
  {
    match h
    case None => None
    case Some(Plain(_)) => h
    case Some(Delegating(_, inner)) => GetMostInnerHandler(inner)
  }

  /** The innermost handler is its own innermost handler. */
  lemma MostInnerIsIdempotent(h: Option<HttpHandler>)
    ensures GetMostInnerHandler(GetMostInnerHandler(h)) == GetMostInnerHandler(h)
  {
  }

  /** Wrapping a pipeline in one more delegating handler does not change its innermost handler. */
  lemma WrappingKeepsMostInner(name: string, h: HttpHandler)
    ensures GetMostInnerHandler(Some(Delegating(name, Some(h)))) == GetMostInnerHandler(Some(h))
  {
  }
}
