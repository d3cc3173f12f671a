/**
 * Types shared by both versions of AndroidStreamableContent: URIs, the content
 * resolver (which answers type queries; opening streams is I/O and is only
 * recorded as the request the resolver would receive) and the exceptions thrown.
 */
module Content {
  import opened Wrappers

  /** An Android Uri; `getScheme()` may be null. */
  datatype Uri = Uri(scheme: Option<string>, rest: string)

  /** The resolver's answers to `getType(uri)`. */
  datatype ContentResolver = ContentResolver(typeOf: Uri -> Option<string>)

  /** A call made on the resolver, with the URI it is given (possibly null). */
  datatype ResolverRequest =
    | OpenInputStream(uri: Option<Uri>)
    | OpenOutputStream(uri: Option<Uri>)
    | OpenAssetFileDescriptor(uri: Option<Uri>, mode: string)

  datatype ContentError =
    | IllegalArgumentException
    | IllegalStateException
    | BadContentResolverUriException
    | NullPointerException

  const FILE_SCHEME: string := "file"

  /** `"file".equals(uri.getScheme())`, which throws when the URI itself is null. */
  function IsFileScheme(uri: Option<Uri>): (r: Result<bool, ContentError>)
    ensures uri.None? <==> r == Err(NullPointerException)
    ensures r == Ok(true) <==> uri.Some? && uri.value.scheme == Some(FILE_SCHEME)
    ensures uri.Some? ==> r.Ok?
  {
    match uri
    case None => Err(NullPointerException)
    case Some(u) => Ok(u.scheme.Some? && FILE_SCHEME == u.scheme.value)
  }
}
