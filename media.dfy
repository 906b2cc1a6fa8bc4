/** The content-type table of the test server (`mime`). */
module Media {
  import opened Wrappers
  import opened Paths

  /** The content types the server labels responses with. */
  datatype ContentType = JavaScript | Wasm | Html | OctetStream {

    /** The value of the `Content-Type` header. */
    function HeaderValue(): string
    {
      match this
      case JavaScript => "text/javascript"
      case Wasm => "application/wasm"
      case Html => "text/html"
      case OctetStream => "application/octet-stream"
    }
  }

  /** `mime`: the content type served for a path, decided by the path's
      extension alone; total, with a generic binary type for anything
      outside the table. */
  function Mime(p: string): (ct: ContentType)
    ensures ct == JavaScript <==> Extension(p) == Some("js")
    ensures ct == Wasm <==> Extension(p) == Some("wasm")
    ensures ct == Html <==> Extension(p) == Some("html")
    ensures ct == OctetStream <==>
      Extension(p) != Some("js") && Extension(p) != Some("wasm") && Extension(p) != Some("html")
  {
    var e := Extension(p);
    if e == Some("js") then JavaScript
    else if e == Some("wasm") then Wasm
    else if e == Some("html") then Html
    else OctetStream
  }

  /** The root page is labelled through `mime("index.html")`, which is
      `text/html`. */
  lemma IndexHtmlIsHtml()
    ensures Mime("index.html") == Html
  {
    DottedName("index", "html");
    assert "index" + ("." + "html") == "index.html";
    FileNameAfterPrefix("", "index.html");
    assert "" + "index.html" == "index.html";
  }

  /** The `Content-Type` header `mime` builds holds the table's string for
      the path's extension, and the generic binary type for anything else. */
  lemma MimeHeaderValue(p: string)
    ensures Mime(p).HeaderValue() == "text/javascript" <==> Extension(p) == Some("js")
    ensures Mime(p).HeaderValue() == "application/wasm" <==> Extension(p) == Some("wasm")
    ensures Mime(p).HeaderValue() == "text/html" <==> Extension(p) == Some("html")
    ensures Mime(p).HeaderValue() == "application/octet-stream" <==>
      Extension(p) != Some("js") && Extension(p) != Some("wasm") && Extension(p) != Some("html")
  {
  }

  /** A path renamed with `set_extension("js")` is served as JavaScript. */
  lemma SetExtensionJsIsJavaScript(p: string)
    requires FileName(p).Some?
    ensures Mime(SetExtension(p, "js")) == JavaScript
  {
    SetExtensionJs(p);
  }
}
