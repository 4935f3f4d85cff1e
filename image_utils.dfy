/**
 * Resolution of a recipe's image reference to a fetchable URL, against the
 * API gateway's base URL (`app/utils/imageUtils.ts`).
 */
module ImageUtils {
  import opened Wrappers

  const HTTP_SCHEME := "http://"
  const HTTPS_SCHEME := "https://"
  /** The gateway route prefix under which the backend serves images. */
  const IMAGE_API_PREFIX := "/api/image/"

  /** A reference that already carries an `http://` or `https://` scheme. */
  predicate IsAbsolute(path: string) {
    HTTP_SCHEME <= path || HTTPS_SCHEME <= path
  }

  /**
   * The base URL the builder uses: the configured gateway URL, or `""` when
   * none is configured. An empty configured string and a missing one give the same base.
   */
  function ImageApiUrl(config: Option<string>): (apiUrl: string)
    ensures apiUrl == config.GetOr("")
  {
    if Truthy(config) then config.value else ""
  }

  /** `buildImageUrl`: four prefix tests, tried in order. */
  function BuildImageUrl(apiUrl: string, path: string): (url: string)
    ensures IsAbsolute(path) ==> url == path
    ensures !IsAbsolute(path) ==> apiUrl <= url
  {
    if IsAbsolute(path) then path
    else if IMAGE_API_PREFIX <= path then apiUrl + "/" + path[|IMAGE_API_PREFIX|..]
    else if "/" <= path then apiUrl + path
    else apiUrl + "/" + path
  }

  /** `buildImageUrls`: the builder applied to every reference, in order. */
  function BuildImageUrls(apiUrl: string, images: seq<string>): (urls: seq<string>)
    ensures |urls| == |images|
    ensures forall i :: 0 <= i < |images| ==> urls[i] == BuildImageUrl(apiUrl, images[i])
  {
    if images == [] then [] else [BuildImageUrl(apiUrl, images[0])] + BuildImageUrls(apiUrl, images[1..])
  }

  /** A path that starts with `/` carries no scheme. */
  lemma RootedIsNotAbsolute(path: string)
    requires "/" <= path
    ensures !IsAbsolute(path)
  {
    PrefixHead(HTTP_SCHEME, path);
    PrefixHead(HTTPS_SCHEME, path);
  }

  lemma PrefixHead(prefix: string, s: string)
    requires prefix != ""
    ensures prefix <= s ==> s != "" && s[0] == prefix[0]
  {
  }

  /** `/api/image/` + rest drops the route prefix and joins rest to the base with one `/`. */
  lemma ImageApiPathJoined(apiUrl: string, rest: string)
    ensures BuildImageUrl(apiUrl, IMAGE_API_PREFIX + rest) == apiUrl + "/" + rest
  {
    var path := IMAGE_API_PREFIX + rest;
    assert "/" <= path;
    RootedIsNotAbsolute(path);
    assert IMAGE_API_PREFIX <= path;
    assert path[|IMAGE_API_PREFIX|..] == rest;
  }

  /**
   * The `/api/image/` test comes before the generic `/` test: such a path is
   * never concatenated to the base as it is.
   */
  lemma ImageApiTestedBeforeRooted(apiUrl: string, path: string)
    requires IMAGE_API_PREFIX <= path
    ensures BuildImageUrl(apiUrl, path) != apiUrl + path
    ensures |BuildImageUrl(apiUrl, path)| + |IMAGE_API_PREFIX| - 1 == |apiUrl + path|
  {
    assert "/" <= path;
    RootedIsNotAbsolute(path);
  }

  /** Any other path starting with `/` is appended to the base with no extra separator. */
  lemma RootedPathAppended(apiUrl: string, path: string)
    requires "/" <= path && !(IMAGE_API_PREFIX <= path)
    ensures BuildImageUrl(apiUrl, path) == apiUrl + path
  {
    RootedIsNotAbsolute(path);
  }

  /** A path with no recognised prefix is joined to the base with one `/`. */
  lemma RelativePathJoined(apiUrl: string, path: string)
    requires !IsAbsolute(path) && !("/" <= path)
    ensures BuildImageUrl(apiUrl, path) == apiUrl + "/" + path
  {
  }

  /** With no gateway configured, a relative reference `x` becomes `/x`. */
  lemma UnconfiguredRelativePath(path: string)
    requires !IsAbsolute(path) && !("/" <= path)
    ensures BuildImageUrl(ImageApiUrl(None), path) == "/" + path
  {
    RelativePathJoined("", path);
  }

  /** Under a base that carries a scheme, every built URL carries one. */
  lemma BuiltUrlIsAbsolute(apiUrl: string, path: string)
    requires IsAbsolute(apiUrl)
    ensures IsAbsolute(BuildImageUrl(apiUrl, path))
  {
    var url := BuildImageUrl(apiUrl, path);
    if !IsAbsolute(path) {
      assert apiUrl <= url;
      if HTTP_SCHEME <= apiUrl {
        assert url[..|HTTP_SCHEME|] == apiUrl[..|HTTP_SCHEME|];
      } else {
        assert url[..|HTTPS_SCHEME|] == apiUrl[..|HTTPS_SCHEME|];
      }
    }
  }

  /** Under a base that carries a scheme, building a URL twice gives the URL built once. */
  lemma BuildImageUrlIdempotent(apiUrl: string, path: string)
    requires IsAbsolute(apiUrl)
    ensures BuildImageUrl(apiUrl, BuildImageUrl(apiUrl, path)) == BuildImageUrl(apiUrl, path)
  {
    BuiltUrlIsAbsolute(apiUrl, path);
  }

  /**
   * Without a scheme on the base the builder is not idempotent: a doubly
   * prefixed image route loses one prefix per application.
   */
  lemma UnconfiguredNotIdempotent(rest: string)
    ensures var once := BuildImageUrl("", IMAGE_API_PREFIX + IMAGE_API_PREFIX[1..] + rest);
      && once == IMAGE_API_PREFIX + rest
      && BuildImageUrl("", once) == "/" + rest
      && BuildImageUrl("", once) != once
  {
    var inner := IMAGE_API_PREFIX[1..] + rest;
    assert IMAGE_API_PREFIX + IMAGE_API_PREFIX[1..] + rest == IMAGE_API_PREFIX + inner;
    ImageApiPathJoined("", inner);
    assert "/" + inner == IMAGE_API_PREFIX + rest;
    ImageApiPathJoined("", rest);
  }

  /** The list builder commutes with concatenation: order is kept and no element is dropped. */
  lemma BuildImageUrlsAppend(apiUrl: string, xs: seq<string>, ys: seq<string>)
    ensures BuildImageUrls(apiUrl, xs + ys) == BuildImageUrls(apiUrl, xs) + BuildImageUrls(apiUrl, ys)
  {
  }

  /** Under a base that carries a scheme, the list builder is idempotent too. */
  lemma BuildImageUrlsIdempotent(apiUrl: string, images: seq<string>)
    requires IsAbsolute(apiUrl)
    ensures BuildImageUrls(apiUrl, BuildImageUrls(apiUrl, images)) == BuildImageUrls(apiUrl, images)
  {
    var once := BuildImageUrls(apiUrl, images);
    forall i | 0 <= i < |once|
      ensures BuildImageUrls(apiUrl, once)[i] == once[i]
    {
      BuildImageUrlIdempotent(apiUrl, images[i]);
    }
  }
}
