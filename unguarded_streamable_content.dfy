/**
 * AndroidStreamableContent as found under src/com: the same role as the
 * guarded version, but the resolver may be null, stream operations pass the
 * data URI to the resolver without checking it, and the resolver's content type
 * takes precedence over the one stored in the object.
 */
module UnguardedStreamableContent {
  import opened Wrappers
  import opened Content

  class AndroidStreamableContent {
    /** `mContentResolver`, which the constructor does not check */
    var resolver: Option<ContentResolver>
    /** `mDataUri`, null until set */
    var dataUri: Option<Uri>
    /** `mContentType`, set by subclasses */
    var contentType: Option<string>

    /** No null check: a null resolver is stored as it is. */
    constructor (resolver: Option<ContentResolver>)
      ensures this.resolver == resolver && dataUri == None && contentType == None
    {
      this.resolver := resolver;
      dataUri := None;
      contentType := None;
    }

    /** `setDataUri`: a null URI is refused with BadContentResolverUriException and the URI stays as it was. */
    method SetDataUri(uri: Option<Uri>) returns (r: Result<(), ContentError>)
      modifies this`dataUri
      ensures uri.None? ==> r == Err(BadContentResolverUriException) && dataUri == old(dataUri)
      ensures uri.Some? ==> r == Ok(()) && dataUri == uri
    {
      if uri.None? {
        return Err(BadContentResolverUriException);
      }
      dataUri := uri;
      r := Ok(());
    }

    /** One call on the resolver, which throws NullPointerException when the resolver is null. */
    function OnResolver(request: ResolverRequest): (r: Result<ResolverRequest, ContentError>)
      reads this
      ensures resolver.None? ==> r == Err(NullPointerException)
      ensures resolver.Some? ==> r == Ok(request)
    {
      if resolver.None? then Err(NullPointerException) else Ok(request)
    }

    /** `openOutputStream`: the resolver is asked for the data URI, set or not. */
    function OpenOutputStream(): (r: Result<ResolverRequest, ContentError>)
      reads this
      ensures resolver.Some? ==> r == Ok(Content.OpenOutputStream(dataUri))
      ensures resolver.None? ==> r == Err(NullPointerException)
    {
      OnResolver(Content.OpenOutputStream(dataUri))
    }

    /** `openInputStream`: the resolver is asked for the data URI, set or not. */
    function OpenInputStream(): (r: Result<ResolverRequest, ContentError>)
      reads this
      ensures resolver.Some? ==> r == Ok(Content.OpenInputStream(dataUri))
      ensures resolver.None? ==> r == Err(NullPointerException)
    {
      OnResolver(Content.OpenInputStream(dataUri))
    }

    /**
     * `getContentType`: the resolver's type for the data URI when a URI is set and
     * the resolver knows a type for it; otherwise the stored content type.
     */
    function GetContentType(): (t: Result<Option<string>, ContentError>)
      reads this
      ensures dataUri.None? ==> t == Ok(contentType)
      ensures dataUri.Some? && resolver.None? ==> t == Err(NullPointerException)
      ensures (dataUri.Some? && resolver.Some? && resolver.value.typeOf(dataUri.value).Some?)
              ==> t == Ok(resolver.value.typeOf(dataUri.value))
      ensures (dataUri.Some? && resolver.Some? && resolver.value.typeOf(dataUri.value).None?)
              ==> t == Ok(contentType)
    {
      if dataUri.Some? then
        if resolver.None? then Err(NullPointerException)
        else
          var resolved := resolver.value.typeOf(dataUri.value);
          if resolved.Some? then Ok(resolved) else Ok(contentType)
      else Ok(contentType)
    }

    /**
     * `getStreamLength`: a missing URI is only logged (`logsError`); the resolver
     * is asked for the asset file descriptor of the data URI in every case.
     */
    function GetStreamLength(): (r: (bool, Result<ResolverRequest, ContentError>))
      reads this
      ensures r.0 <==> dataUri.None?
      ensures resolver.Some? ==> r.1 == Ok(OpenAssetFileDescriptor(dataUri, "r"))
      ensures resolver.None? ==> r.1 == Err(NullPointerException)
    {
      var logsError := dataUri.None?;
      (logsError, OnResolver(OpenAssetFileDescriptor(dataUri, "r")))
    }

    /** `isFileSchemeUri`: whether the data URI's scheme is "file"; throws when no URI is set. */
    function IsFileSchemeUri(): (r: Result<bool, ContentError>)
      reads this
      ensures dataUri.None? <==> r == Err(NullPointerException)
      ensures r == Ok(true) <==> dataUri.Some? && dataUri.value.scheme == Some(FILE_SCHEME)
      ensures dataUri.Some? ==> r.Ok?
    {
      IsFileScheme(dataUri)
    }
  }
}
