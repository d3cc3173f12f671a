/**
 * AndroidStreamableContent as found under src/main/java: content whose data is
 * reached through a content resolver and a data URI. The resolver must not be
 * null, every stream and length operation first checks that a URI is set, and
 * a content type declared by the superclass takes precedence over the resolver's.
 */
module GuardedStreamableContent {
  import opened Wrappers
  import opened Content

  class AndroidStreamableContent {
    /** `mContentResolver` */
    const resolver: ContentResolver
    /** `mDataUri`, null until set */
    var dataUri: Option<Uri>

    constructor (resolver: ContentResolver)
      ensures this.resolver == resolver && dataUri == None
    {
      this.resolver := resolver;
      dataUri := None;
    }

    /** The constructor: a null resolver is rejected with IllegalArgumentException. */
    static method Create(resolver: Option<ContentResolver>) returns (r: Result<AndroidStreamableContent, ContentError>)
      ensures resolver.None? <==> r == Err(IllegalArgumentException)
      ensures resolver.Some? ==> r.Ok? && fresh(r.value) && r.value.resolver == resolver.value && r.value.dataUri == None
    {
      if resolver.None? {
        return Err(IllegalArgumentException);
      }
      var c := new AndroidStreamableContent(resolver.value);
      r := Ok(c);
    }

    /** `setDataUri`: a null URI is refused with BadContentResolverUriException and the URI stays as it was. */
    method SetDataUri(uri: Option<Uri>) returns (r: Result<(), ContentError>)
      modifies this`dataUri
      ensures uri.None? ==> r == Err(BadContentResolverUriException) && dataUri == old(dataUri)
      ensures uri.Some? ==> r == Ok(()) && dataUri == uri
    {
      if uri.None? {
        return Err(BadContentResolverUriException);
      }
      dataUri := uri;
      r := Ok(());
    }

    /** `assertUriNotNull` followed by one resolver call with the data URI. */
    function Guarded(request: ResolverRequest): (r: Result<ResolverRequest, ContentError>)
      reads this
      ensures dataUri.None? ==> r == Err(IllegalStateException)
      ensures dataUri.Some? ==> r == Ok(request)
    {
      if dataUri.None? then Err(IllegalStateException) else Ok(request)
    }

    /** `openRawInputStream`: fails with IllegalStateException before the resolver is asked when no URI is set. */
    function OpenRawInputStream(): (r: Result<ResolverRequest, ContentError>)
      reads this
      ensures dataUri.None? <==> r == Err(IllegalStateException)
      ensures dataUri.Some? ==> r == Ok(OpenInputStream(dataUri))
    {
      Guarded(OpenInputStream(dataUri))
    }

    /** `openRawOutputStream`: as `openRawInputStream`, for writing. */
    function OpenRawOutputStream(): (r: Result<ResolverRequest, ContentError>)
      reads this
      ensures dataUri.None? <==> r == Err(IllegalStateException)
      ensures dataUri.Some? ==> r == Ok(OpenOutputStream(dataUri))
    {
      Guarded(OpenOutputStream(dataUri))
    }

    /** `openNewInputStream` delegates to `openRawInputStream`. */
    function OpenNewInputStream(): (r: Result<ResolverRequest, ContentError>)
      reads this
      ensures r == OpenRawInputStream()
    {
      OpenRawInputStream()
    }

    /** `openNewOutputStream` delegates to `openRawOutputStream`. */
    function OpenNewOutputStream(): (r: Result<ResolverRequest, ContentError>)
      reads this
      ensures r == OpenRawOutputStream()
    {
      OpenRawOutputStream()
    }

    /** `getNewStreamLength`: the guarded request for the data URI's asset file descriptor. */
    function GetNewStreamLength(): (r: Result<ResolverRequest, ContentError>)
      reads this
      ensures dataUri.None? <==> r == Err(IllegalStateException)
      ensures dataUri.Some? ==> r == Ok(OpenAssetFileDescriptor(dataUri, "r"))
    {
      Guarded(OpenAssetFileDescriptor(dataUri, "r"))
    }

    /** `getRawStreamLength`: the same guarded request. */
    function GetRawStreamLength(): (r: Result<ResolverRequest, ContentError>)
      reads this
      ensures dataUri.None? <==> r == Err(IllegalStateException)
      ensures dataUri.Some? ==> r == Ok(OpenAssetFileDescriptor(dataUri, "r"))
    {
      Guarded(OpenAssetFileDescriptor(dataUri, "r"))
    }

    /**
     * `getContentType`: the type the superclass reports (`superType`), if any;
     * otherwise the resolver's type for the data URI, if one is set; otherwise null.
     */
    function GetContentType(superType: Option<string>): (t: Option<string>)
      reads this
      ensures superType.Some? ==> t == superType
      ensures superType.None? && dataUri.Some? ==> t == resolver.typeOf(dataUri.value)
      ensures superType.None? && dataUri.None? ==> t == None
    {
      if superType.Some? then superType
      else if dataUri.Some? then resolver.typeOf(dataUri.value)
      else None
    }

    /** `isFileSchemeUri`: whether the data URI's scheme is "file"; throws when no URI is set. */
    function IsFileSchemeUri(): (r: Result<bool, ContentError>)
      reads this
      ensures dataUri.None? <==> r == Err(NullPointerException)
      ensures r == Ok(true) <==> dataUri.Some? && dataUri.value.scheme == Some(FILE_SCHEME)
      ensures dataUri.Some? ==> r.Ok?
    {
      IsFileScheme(dataUri)
    }
  }
}
