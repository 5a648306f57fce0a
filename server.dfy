/** Request dispatch of the photo server: every request gets the three CORS
    headers, a preflight request stops there, and any other request goes to
    the first handler whose path prefix matches, or is answered 404. */
module Server {
  import opened Strings

  /** Response header fields, one value per name (`Header.Set` replaces any
      earlier values of the name). */
  type Header = map<string, string>

  const OptionsMethod: string := "OPTIONS"

  const AllowOrigin: string := "Access-Control-Allow-Origin"
  const AllowMethods: string := "Access-Control-Allow-Methods"
  const AllowHeaders: string := "Access-Control-Allow-Headers"
  const AnyOrigin: string := "*"
  const AllowedMethods: string := "GET, OPTIONS, POST, PUT, DELETE, HEAD, PATCH"
  const AllowedHeaders: string :=
    "Content-Type, Content-Length, Accept-Encoding, X-CSRF-Token, Authorization, Accept, Origin, Cache-Control, X-Requested-With"

  /** The route prefixes, in the order they are tested. */
  const ListPrefix: string := "/list"
  const PreviewPrefix: string := "/preview"
  const OriginPrefix: string := "/origin"
  const RoutePrefixes: seq<string> := [ListPrefix, PreviewPrefix, OriginPrefix]

  /** The prefixes the file handlers strip to obtain a file name. */
  const PreviewDirPrefix: string := "/preview/"
  const OriginDirPrefix: string := "/origin/"

  /** What the server does with a request. `Preflight` writes nothing (an
      empty 200 response); `NotFound` writes status 404; the other three hand
      over to the listing handler or serve the named file from the preview or
      the photos directory. */
  datatype Route =
    | Preflight
    | List
    | Preview(filename: string)
    | Origin(filename: string)
    | NotFound

  datatype Response = Response(header: Header, route: Route)

  /** The three CORS fields carry their fixed values. */
  predicate HasCors(h: Header)
  {
    && AllowOrigin in h && h[AllowOrigin] == AnyOrigin
    && AllowMethods in h && h[AllowMethods] == AllowedMethods
    && AllowHeaders in h && h[AllowHeaders] == AllowedHeaders
  }

  /** The three `Header.Set` calls: the CORS fields are set, every other
      field keeps its value and no other field appears. */
  function SetCors(h: Header): (r: Header)
    ensures HasCors(r)
    ensures r.Keys == h.Keys + {AllowOrigin, AllowMethods, AllowHeaders}
    ensures forall k :: k in h && k != AllowOrigin && k != AllowMethods && k != AllowHeaders ==> r[k] == h[k]
  {
    h[AllowOrigin := AnyOrigin][AllowMethods := AllowedMethods][AllowHeaders := AllowedHeaders]
  }

  /** The preview handler's file name: the path without `/preview/`. */
  function PreviewFilename(path: string): (name: string)
    ensures HasPrefix(path, PreviewDirPrefix) ==> path == PreviewDirPrefix + name
    ensures !HasPrefix(path, PreviewDirPrefix) ==> name == path
  {
    TrimPrefix(path, PreviewDirPrefix)
  }

  /** The origin handler's file name: the path without `/origin/`. */
  function OriginFilename(path: string): (name: string)
    ensures HasPrefix(path, OriginDirPrefix) ==> path == OriginDirPrefix + name
    ensures !HasPrefix(path, OriginDirPrefix) ==> name == path
  {
    TrimPrefix(path, OriginDirPrefix)
  }

  /** `ServeHTTP`: the response for a request with the given method and URL
      path, starting from the response's header fields `h`. */
  function ServeHTTP(verb: string, path: string, h: Header): (r: Response)
    ensures HasCors(r.header) && r.header == SetCors(h)
    ensures r.route == Preflight <==> verb == OptionsMethod
    ensures r.route.Preview? ==> r.route.filename == PreviewFilename(path)
    ensures r.route.Origin? ==> r.route.filename == OriginFilename(path)
  {
    var header := SetCors(h);
    if verb == OptionsMethod then Response(header, Preflight)
    else if HasPrefix(path, ListPrefix) then Response(header, List)
    else if HasPrefix(path, PreviewPrefix) then Response(header, Preview(PreviewFilename(path)))
    else if HasPrefix(path, OriginPrefix) then Response(header, Origin(OriginFilename(path)))
    else Response(header, NotFound)
  }

  datatype Option<T> = None | Some(value: T)

  /** Reference definition of prefix routing: the index of the first of
      `prefixes` that `path` begins with, if any. */
  function FirstMatch(path: string, prefixes: seq<string>): (r: Option<nat>)
    ensures r.Some? ==> r.value < |prefixes| && HasPrefix(path, prefixes[r.value])
    ensures r.Some? ==> forall j :: 0 <= j < r.value ==> !HasPrefix(path, prefixes[j])
    ensures r.None? ==> forall j :: 0 <= j < |prefixes| ==> !HasPrefix(path, prefixes[j])
  {
    if prefixes == [] then None
    else if HasPrefix(path, prefixes[0]) then Some(0)
    else match FirstMatch(path, prefixes[1..])
      case None => None
      case Some(i) => Some(i + 1)
  }

  /** The index of a route prefix in the table, and the route it leads to. */
  function RouteFor(path: string, index: Option<nat>): Route
  {
    match index
    case None => NotFound
    case Some(i) =>
      if i == 0 then List
      else if i == 1 then Preview(PreviewFilename(path))
      else Origin(OriginFilename(path))
  }

  /** For every method other than OPTIONS, the if-chain picks the route of
      the first prefix in the table that the path begins with, and 404 exactly
      when none does. */
  lemma {:induction false} DispatchIsFirstMatch(verb: string, path: string, h: Header)
    requires verb != OptionsMethod
    ensures ServeHTTP(verb, path, h).route == RouteFor(path, FirstMatch(path, RoutePrefixes))
    ensures ServeHTTP(verb, path, h).route == NotFound <==>
      forall j :: 0 <= j < |RoutePrefixes| ==> !HasPrefix(path, RoutePrefixes[j])
  {
    var m := FirstMatch(path, RoutePrefixes);
    if HasPrefix(path, ListPrefix) {
      assert m == Some(0);
    } else if HasPrefix(path, PreviewPrefix) {
      assert RoutePrefixes[1..][0] == PreviewPrefix;
      assert m == Some(1);
    } else if HasPrefix(path, OriginPrefix) {
      assert RoutePrefixes[1..][1..][0] == OriginPrefix;
      assert m == Some(2);
    } else {
      assert forall j :: 0 <= j < |RoutePrefixes| ==> !HasPrefix(path, RoutePrefixes[j]);
    }
  }

  /** An OPTIONS request gets the CORS headers and nothing else, whatever its
      path. */
  lemma PreflightShortCircuits(path: string, h: Header)
    ensures ServeHTTP(OptionsMethod, path, h) == Response(SetCors(h), Preflight)
  {
  }

  /** A path that begins with `/list` goes to the listing handler, never to
      the preview or origin handler, whatever follows. */
  lemma ListWins(verb: string, path: string, h: Header)
    requires verb != OptionsMethod && HasPrefix(path, ListPrefix)
    ensures ServeHTTP(verb, path, h).route == List
  {
  }

  /** `/preview/<name>` is served as the preview file `<name>`. */
  lemma {:induction false} PreviewPathServesName(verb: string, name: string, h: Header)
    requires verb != OptionsMethod
    ensures ServeHTTP(verb, PreviewDirPrefix + name, h).route == Preview(name)
  {
    var path := PreviewDirPrefix + name;
    NotPrefixWhenDiffer(path, ListPrefix, 1);
    TrimPrefixOfConcat(PreviewPrefix, "/" + name);
    assert PreviewPrefix + ("/" + name) == path;
    TrimPrefixOfConcat(PreviewDirPrefix, name);
  }

  /** `/origin/<name>` is served as the origin file `<name>`. */
  lemma {:induction false} OriginPathServesName(verb: string, name: string, h: Header)
    requires verb != OptionsMethod
    ensures ServeHTTP(verb, OriginDirPrefix + name, h).route == Origin(name)
  {
    var path := OriginDirPrefix + name;
    NotPrefixWhenDiffer(path, ListPrefix, 1);
    NotPrefixWhenDiffer(path, PreviewPrefix, 1);
    TrimPrefixOfConcat(OriginPrefix, "/" + name);
    assert OriginPrefix + ("/" + name) == path;
    TrimPrefixOfConcat(OriginDirPrefix, name);
  }

  /** The route prefixes are tested without the trailing slash the file
      handlers strip: `/listing` is a listing request, and `/previews.jpg`
      reaches the preview handler, which keeps the whole path as the file
      name. A path under none of the prefixes is answered 404. */
  lemma PrefixWithoutSlash(verb: string, h: Header)
    requires verb != OptionsMethod
    ensures ServeHTTP(verb, "/listing", h).route == List
    ensures ServeHTTP(verb, "/previews.jpg", h).route == Preview("/previews.jpg")
    ensures ServeHTTP(verb, "/unknown", h).route == NotFound
  {
    assert "/listing"[..|ListPrefix|] == ListPrefix;
    NotPrefixWhenDiffer("/previews.jpg", ListPrefix, 1);
    assert "/previews.jpg"[..|PreviewPrefix|] == PreviewPrefix;
    NotPrefixWhenDiffer("/previews.jpg", PreviewDirPrefix, 8);
    NotPrefixWhenDiffer("/unknown", ListPrefix, 1);
    NotPrefixWhenDiffer("/unknown", PreviewPrefix, 1);
    NotPrefixWhenDiffer("/unknown", OriginPrefix, 1);
  }
}
