/** The request handler of the test server (`Handler::process_request`):
    the routing decision, with URL parsing left as a parameter. */
module Routing {
  import opened Wrappers
  import opened Paths
  import opened Media
  import opened Assets

  /** The handler state shared by every request and never changed: the
      temporary directory of generated files and the headless flag. */
  datatype Handler = Handler(tmpdir: string, headless: bool)

  /** A response: one of the two built-in root pages (chosen by the
      headless flag), a file with its content type, or an empty 404. */
  datatype Response =
    | Page(headless: bool, contentType: ContentType)
    | File(path: string, contentType: ContentType)
    | NotFound

  /** The routing decision, given the request target and the outcome of
      parsing it: parse failure first, then the root page, then the asset
      lookup over the temporary and the project directory. */
  function Route(h: Handler, target: string, parsed: Option<Url>, fs: set<string>): (r: Response)
    ensures parsed.None? ==> r == NotFound
    ensures parsed.Some? && target == "/" ==> r == Page(h.headless, Html)
    ensures parsed.Some? && target != "/" ==>
      (r == NotFound <==> Resolve(parsed.value.path, h.tmpdir, fs).None?)
    ensures r.File? ==>
      parsed.Some? && target != "/" && r.path in fs && r.contentType == Mime(r.path) &&
      Resolve(parsed.value.path, h.tmpdir, fs) == Some(Served(r.path, r.contentType))
  {
    match parsed
    case None => NotFound
    case Some(url) =>
      if target == "/" then IndexHtmlIsHtml(); Page(h.headless, Mime("index.html"))
      else
        match Resolve(url.path, h.tmpdir, fs)
        case Some(s) => File(s.path, s.contentType)
        case None => NotFound
  }

  /** `process_request` as written: the raw request target is given to
      `Url::parse`, modelled by `parse`. A target that does not parse gets
      404, even `/`, because the parse check comes first; a parsed `/` gets
      the root page; any other parsed target gets 404 exactly when both
      directory lookups fail, and otherwise an existing file labelled with
      its own content type. */
  function ProcessRequest(h: Handler, target: string, parse: string -> Option<Url>, fs: set<string>): (r: Response)
    ensures parse(target).None? ==> r == NotFound
    ensures r.Page? <==> parse(target).Some? && target == "/"
    ensures r.Page? ==> r == Page(h.headless, Html)
    ensures parse(target).Some? && target != "/" ==>
      (r == NotFound <==>
       Lookup(parse(target).value.path, h.tmpdir, fs).None? &&
       Lookup(parse(target).value.path, ProjectDir, fs).None?)
    ensures r.File? ==> r.path in fs && r.contentType == Mime(r.path)
  {
    Route(h, target, parse(target), fs)
  }

  /** The headless and the interactive server answer a parsed `/` with
      different pages. */
  lemma RootPagesDiffer(h: Handler, parse: string -> Option<Url>, fs: set<string>)
    requires parse("/").Some?
    ensures ProcessRequest(h, "/", parse, fs) !=
      ProcessRequest(Handler(h.tmpdir, !h.headless), "/", parse, fs)
  {
  }

  /** `Url::parse` without a base refuses every relative reference, in
      particular every string that starts with `/`. */
  ghost predicate RejectsRelative(parse: string -> Option<Url>) {
    forall s :: StartsWithSlash(s) ==> parse(s).None?
  }

  /** As written, with a parser that refuses relative references, every
      origin-form request target (`/`, `/run.js`, ...) gets 404: the root
      page and the assets are never served. */
  lemma OriginFormTargetsNotFound(h: Handler, target: string, parse: string -> Option<Url>, fs: set<string>)
    requires RejectsRelative(parse)
    requires StartsWithSlash(target)
    ensures ProcessRequest(h, target, parse, fs) == NotFound
  {
  }

  /** The base a relative request target is resolved against. */
  const BaseUrl := "http://localhost"

  /** `process_request` with the target parsed relative to a base URL, so
      that an origin-form target parses. */
  function ProcessRequestWithBase(h: Handler, target: string, parse: string -> Option<Url>, fs: set<string>): (r: Response)
    ensures parse(BaseUrl + target).None? ==> r == NotFound
    ensures r.Page? <==> parse(BaseUrl + target).Some? && target == "/"
    ensures r.File? ==> r.path in fs && r.contentType == Mime(r.path)
  {
    Route(h, target, parse(BaseUrl + target), fs)
  }

  /** `Url::parse` on the base followed by an origin-form target succeeds,
      with a path that starts with `/`. */
  ghost predicate AcceptsBase(parse: string -> Option<Url>) {
    forall t :: StartsWithSlash(t) ==>
      parse(BaseUrl + t).Some? && StartsWithSlash(parse(BaseUrl + t).value.path)
  }

  /** Parsed against the base, `/` gets the root page of the handler's mode,
      and any other origin-form target gets 404 only when both directory
      lookups of its path fail. */
  lemma WithBaseServesOriginForm(h: Handler, target: string, parse: string -> Option<Url>, fs: set<string>)
    requires AcceptsBase(parse)
    requires StartsWithSlash(target)
    ensures target == "/" ==> ProcessRequestWithBase(h, target, parse, fs) == Page(h.headless, Html)
    ensures target != "/" ==>
      (ProcessRequestWithBase(h, target, parse, fs) == NotFound <==>
       Resolve(parse(BaseUrl + target).value.path, h.tmpdir, fs).None?)
  {
  }

  /** A parser that accepts exactly the base followed by an origin-form
      target, with that target as its path. */
  function BaseOnlyParse(s: string): Option<Url>
  {
    if |s| > |BaseUrl| && s[..|BaseUrl|] == BaseUrl && s[|BaseUrl|] == '/'
    then Some(Url(s[|BaseUrl|..]))
    else None
  }

  /** The two assumptions about `Url::parse` can hold together; so the
      lemmas that rest on them are not vacuous. */
  lemma ParserAssumptionsConsistent()
    ensures RejectsRelative(BaseOnlyParse)
    ensures AcceptsBase(BaseOnlyParse)
  {
    forall s | StartsWithSlash(s) ensures BaseOnlyParse(s).None? {
      if |s| > |BaseUrl| {
        assert s[..|BaseUrl|][0] == '/' != BaseUrl[0];
      }
    }
    forall t | StartsWithSlash(t)
      ensures BaseOnlyParse(BaseUrl + t).Some? && StartsWithSlash(BaseOnlyParse(BaseUrl + t).value.path)
    {
      var s := BaseUrl + t;
      assert s[..|BaseUrl|] == BaseUrl;
      assert s[|BaseUrl|] == t[0];
      assert s[|BaseUrl|..] == t;
    }
  }
}
