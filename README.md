# wasm-bindgen test runner: the browser-test HTTP server

A Dafny model of the small HTTP server that `wasm-bindgen-test-runner`
starts when it runs wasm tests in a browser. The model covers two parts.

- **Start-up (`spawn`).** The runner writes a generated `run.js` into a
  temporary directory. The script imports the test module's bindings and
  loads the module's `_bg.wasm` binary. It hands the runtime arguments to the
  test context, using their Rust `Debug` formatting. It registers every test
  by name, in order, and then calls `main`. After the write, the server is
  bound.
- **Requests (`Handler::process_request` and its helpers `try_asset` and
  `mime`).**
  - A request target that does not parse as a URL gets an empty 404.
  - The target `/` gets one of two built-in HTML pages, chosen by the
    headless flag.
  - Any other path is looked up first in the temporary directory and then
    in the current directory `.`. Each lookup tries the joined path itself,
    and, if that path has no extension, the same path with `.js` added.
  - The response's `Content-Type` comes from the file's extension: `js`,
    `wasm` or `html`, and otherwise `application/octet-stream`.

Modelling choices:

- Paths are Unix strings. `Path::join`, `file_name`, `extension` and
  `set_extension` are written out with the standard library's rules
  (module `Paths`).
- The file system a request sees is the set of paths that open. The file
  system that `spawn` writes to is a map from path to contents.
- `Url::parse` is a parameter of the handler. A parsed URL is reduced to its
  path.
- How writing the script ends is a parameter of `Spawn` (`WriteOutcome`):
  the whole text is written, `File::create` fails, or `write_all` stops after
  some number of characters, leaving the file holding only that prefix.
  Whether binding the socket succeeds is the boolean parameter `bindOk`.
- The fixed text of the script (`Bootstrap.RunJs`) is copied exactly, cut at
  the three places that `format!` fills in. The methods and lemmas that
  build the script take that text as a parameter. `Spawn` passes `RunJs`.
- The arguments are written with `char::escape_debug`: `\0`, `\t`, `\r`,
  `\n`, the backslash and both quotes get a backslash, and the
  non-printable and grapheme-extended characters are written `\u{..}` in
  lower-case hex. Which characters those last are comes from Unicode
  tables, so that set is a parameter (`DebugFormat.UnicodeEscapes`); the
  read-back is proved for every such set.

The lookup order is the code's order: the temporary directory, then its
`.js` retry, then `.`, then the `.js` retry in `.`.

Modules: `Wrappers` (Option, Result), `Paths`, `Media` (`mime`), `Assets`
(`try_asset` and the two-directory lookup), `Routing` (`process_request`),
`DebugFormat` (`{:?}` of a list of strings), `Bootstrap` (`spawn`).

## Model

| member | source | states |
|---|---|---|
| Paths.Join | crates/cli/src/bin/wasm-bindgen-test-runner/server.rs:85 | An absolute rest replaces the directory. Otherwise the result is the directory, then one `/` exactly when the directory is not empty and does not already end in `/`, then the rest. |
| Paths.FileName | crates/cli/src/bin/wasm-bindgen-test-runner/server.rs:75 | A file name, when there is one, is not empty, not `.` or `..`, and has no `/`. |
| Paths.Extension | crates/cli/src/bin/wasm-bindgen-test-runner/server.rs:75 | A path without a file name has no extension. |
| Paths.SetExtension | crates/cli/src/bin/wasm-bindgen-test-runner/server.rs:95 | `set_extension` leaves a path without a file name unchanged. |
| Paths.JoinFileName | crates/cli/src/bin/wasm-bindgen-test-runner/server.rs:85 | A plain name joined onto any directory keeps that name as its file name and as the source of its extension. |
| Paths.JoinAppend | crates/cli/src/bin/wasm-bindgen-test-runner/server.rs:85 | Joining a longer relative path extends the joined path by exactly the added text. |
| Paths.DottedName | crates/cli/src/bin/wasm-bindgen-test-runner/server.rs:75 | A stem, a dot and a dot-free extension form a plain name whose extension is exactly that extension. |
| Paths.SetExtensionJs | crates/cli/src/bin/wasm-bindgen-test-runner/server.rs:95 | After `set_extension("js")` the extension is `js`, and the file name is the old stem followed by `.js`. |
| Paths.SetExtensionJsOfJoin | crates/cli/src/bin/wasm-bindgen-test-runner/server.rs:94-95 | For an extension-less name, the `.js` retry path is the directory joined with the name followed by `.js`. |
| Media.Mime | crates/cli/src/bin/wasm-bindgen-test-runner/server.rs:74-82 | The result is JavaScript, Wasm or Html exactly when the extension is `js`, `wasm` or `html`. It is octet-stream exactly when the extension is none of the three, including no extension at all. |
| Media.MimeHeaderValue | crates/cli/src/bin/wasm-bindgen-test-runner/server.rs:76-81 | The header value is `text/javascript`, `application/wasm` or `text/html` exactly when the extension is `js`, `wasm` or `html`, and `application/octet-stream` exactly when it is none of them. |
| Media.IndexHtmlIsHtml | crates/cli/src/bin/wasm-bindgen-test-runner/server.rs:54 | The root page's header, `mime("index.html")`, is `text/html`. |
| Media.SetExtensionJsIsJavaScript | crates/cli/src/bin/wasm-bindgen-test-runner/server.rs:95-97 | Whatever the `.js` retry finds is labelled `text/javascript`. |
| Assets.Candidates | crates/cli/src/bin/wasm-bindgen-test-runner/server.rs:85-95 | No candidate when the URL path has no leading `/`. Otherwise the joined path comes first, and a second candidate exists exactly when the joined path has no extension; that candidate is the joined path after `set_extension("js")`, and, when the joined path has a file name, its extension is `js`. |
| Assets.FirstOpen | crates/cli/src/bin/wasm-bindgen-test-runner/server.rs:86-98 | A found file is the first candidate that exists: it is a candidate, it exists, every earlier candidate is missing, and it is labelled by `mime` of its path. Nothing is found exactly when no candidate exists. |
| Assets.Lookup | crates/cli/src/bin/wasm-bindgen-test-runner/server.rs:84-101 | `try_asset` under one directory: a found file is one of that directory's candidates, exists, and is labelled by `mime` of its own path. Nothing is found exactly when no candidate exists. |
| Assets.LookupSteps | crates/cli/src/bin/wasm-bindgen-test-runner/server.rs:84-101 | The lookup is: no leading `/` gives nothing; otherwise the joined path if it opens; otherwise, if it has no extension, its `.js` variant if that opens; otherwise nothing. |
| Assets.TryAsset | crates/cli/src/bin/wasm-bindgen-test-runner/server.rs:84-101 | The method, which changes the path in place, returns the lookup's result. A path without a leading `/` gives None. A direct hit is served as it is. |
| Assets.LookupNeedsLeadingSlash | crates/cli/src/bin/wasm-bindgen-test-runner/server.rs:85 | The `strip_prefix('/')?` early return: a URL path without a leading `/` finds nothing. |
| Assets.LookupDirectHit | crates/cli/src/bin/wasm-bindgen-test-runner/server.rs:86-88 | An existing joined path is served as it is, labelled by its own extension, and nothing else is tried. |
| Assets.LookupNoRetryWithExtension | crates/cli/src/bin/wasm-bindgen-test-runner/server.rs:94-100 | A missing path that has an extension gets no `.js` retry, so nothing is found. |
| Assets.LookupFallback | crates/cli/src/bin/wasm-bindgen-test-runner/server.rs:90-98 | A result other than the joined path appears only when the joined path is missing and has no extension. That result is the `.js` variant, with extension `js` and type JavaScript. |
| Assets.LookupNoneIff | crates/cli/src/bin/wasm-bindgen-test-runner/server.rs:84-101 | Nothing is found exactly when there is no leading `/`, or the joined path is missing and its `.js` retry is absent or not allowed. |
| Assets.Resolve | crates/cli/src/bin/wasm-bindgen-test-runner/server.rs:62 | A hit in the temporary directory is the answer, whatever `.` holds. A resolved file exists and is labelled by `mime` of its own path. Nothing is resolved exactly when both the temporary-directory and the `.` lookups find nothing. |
| Assets.ResolveIsOrderedCandidates | crates/cli/src/bin/wasm-bindgen-test-runner/server.rs:62 | The two-directory search is the first existing path among the temporary directory's candidates followed by those of `.`. |
| Assets.TmpdirShadowsProjectDir | crates/cli/src/bin/wasm-bindgen-test-runner/server.rs:62 | A hit in the temporary directory is served whatever `.` holds. Otherwise the result is `.`'s lookup. |
| Routing.Route | crates/cli/src/bin/wasm-bindgen-test-runner/server.rs:35-71 | Without a parsed URL the answer is 404. A parsed `/` gets the page of the handler's mode, labelled `text/html`. Another parsed target gets 404 exactly when resolution finds nothing, and a file response is the resolved, existing file with its own type. |
| Routing.ProcessRequest | crates/cli/src/bin/wasm-bindgen-test-runner/server.rs:35-71 | A target that does not parse gets 404, `/` included, because the parse check comes first. A page is served exactly for a parsed `/`, the one of the handler's mode, as `text/html`. Another parsed target gets 404 exactly when both directory lookups fail. Every file response is an existing file with the type of its own path. |
| Routing.RootPagesDiffer | crates/cli/src/bin/wasm-bindgen-test-runner/server.rs:48-53 | The headless and the interactive handler answer `/` with different pages. |
| Routing.OriginFormTargetsNotFound | crates/cli/src/bin/wasm-bindgen-test-runner/server.rs:37 | As written, with a parser that refuses relative references, every target that starts with `/` gets 404. |
| Routing.ProcessRequestWithBase | crates/cli/src/bin/wasm-bindgen-test-runner/server.rs:35-71 | The corrected handler: a target that does not parse against the base gets 404, a page is served exactly for a parsed `/`, and every file response is an existing file with its own type. |
| Routing.WithBaseServesOriginForm | crates/cli/src/bin/wasm-bindgen-test-runner/server.rs:35-71 | With the target parsed against a base URL, `/` gets the root page. Any other origin-form target gets 404 only when both lookups fail. |
| Routing.ParserAssumptionsConsistent | crates/cli/src/bin/wasm-bindgen-test-runner/server.rs:37 | One parser satisfies both assumptions about `Url::parse`, so the two lemmas above are not vacuous. |
| DebugFormat.DebugList | crates/cli/src/bin/wasm-bindgen-test-runner/server.rs:142 | `{:?}` of the argument list is bracketed, and is `[]` exactly when the list is empty. |
| DebugFormat.HexReadsBack | crates/cli/src/bin/wasm-bindgen-test-runner/server.rs:142 | The lower-case hex digits of a `\u{..}` escape read back as the code point. |
| DebugFormat.EscapeReadsBack | crates/cli/src/bin/wasm-bindgen-test-runner/server.rs:142 | The escaped body of a `Debug` string, with backslash, `\'` and `\u{..}` escapes, reads back to the original string at the closing quote, for every set of `\u{..}`-escaped characters. |
| DebugFormat.DebugItemsReadBack | crates/cli/src/bin/wasm-bindgen-test-runner/server.rs:142 | The comma-separated quoted items read back as the items, in order, for every set of `\u{..}`-escaped characters. |
| DebugFormat.DebugListReadsBack | crates/cli/src/bin/wasm-bindgen-test-runner/server.rs:142 | The `{:?}` text of the argument list reads back as exactly that list, empty list included, for every set of `\u{..}`-escaped characters. |
| DebugFormat.SingleQuoteIsEscaped | crates/cli/src/bin/wasm-bindgen-test-runner/server.rs:142 | A single quote in an argument is written `\'`: `["it's"]` is formatted as `["it\'s"]`. |
| Bootstrap.PushLines | crates/cli/src/bin/wasm-bindgen-test-runner/server.rs:151-153 | One registration line of fixed shape per test: the text has the length of the fixed parts once per test plus the names, and is empty exactly when there are no tests. |
| Bootstrap.Script | crates/cli/src/bin/wasm-bindgen-test-runner/server.rs:111-154 | After the fixed text, formatted with the module name and the arguments' `Debug` list, the script is exactly the given tests' registrations, in order, and one call to `main`. |
| Bootstrap.AppendRegistrations | crates/cli/src/bin/wasm-bindgen-test-runner/server.rs:151-154 | The loop appends one registration line per test, in order, and then exactly one `main(tests);` line. |
| Bootstrap.BuildScript | crates/cli/src/bin/wasm-bindgen-test-runner/server.rs:111-154 | The built text is the whole script: the formatted fixed text, the registrations, and the call to `main`. |
| Bootstrap.WriteFile | crates/cli/src/bin/wasm-bindgen-test-runner/server.rs:157 | `fs::write`: it succeeds exactly when the whole text is written, and the file then holds it. If `File::create` fails, nothing changes. If `write_all` fails, the file holds only a prefix of the text, of the length written. No other file changes. |
| Bootstrap.Spawn | crates/cli/src/bin/wasm-bindgen-test-runner/server.rs:103-164 | The script is built first and written to `run.js` under the temporary directory. If the write fails, the result is "failed to write JS file", there is no bind, and no file other than `run.js` changes; a failed `File::create` changes nothing, and a failed `write_all` leaves `run.js` holding a prefix of the script. If the bind fails after a full write, the result is a bind error. Otherwise the result is a handler with the given directory and mode. |
| Bootstrap.RegistrationsReadBack | crates/cli/src/bin/wasm-bindgen-test-runner/server.rs:151-154 | The registration lines read back as exactly the tests, in order, ended by one call to `main`. |
| Bootstrap.ImportInScript | crates/cli/src/bin/wasm-bindgen-test-runner/server.rs:121 | The import source `./<module>` appears right after the import list. |
| Bootstrap.InitInScript | crates/cli/src/bin/wasm-bindgen-test-runner/server.rs:129 | The initialiser call on `./<module>_bg.wasm` appears right after the status text. |
| Bootstrap.ArgsInScript | crates/cli/src/bin/wasm-bindgen-test-runner/server.rs:142 | The call `cx.args(...)`, with the arguments' `Debug` list, appears right after the console hooks. |
| Bootstrap.ScriptNamesModuleAndArgs | crates/cli/src/bin/wasm-bindgen-test-runner/server.rs:111-150 | The module name is filled in twice, in the import and in the wasm path. The arguments are filled in once, after both, and read back as the arguments. |
| Bootstrap.ScriptIsServed | crates/cli/src/bin/wasm-bindgen-test-runner/server.rs:156-157 | Once the script is written, `/run.js` parsed against the base URL is answered with that file, labelled `text/javascript`. |
| Bootstrap.ModuleImportIsServed | crates/cli/src/bin/wasm-bindgen-test-runner/server.rs:90-98 | The script's extension-less import `/<module>` is answered with `<module>.js` from the temporary directory. |
| Bootstrap.WasmBinaryIsServed | crates/cli/src/bin/wasm-bindgen-test-runner/server.rs:129 | The request `/<module>_bg.wasm` is answered with that file, labelled `application/wasm`. |

## Left out

- `Server::run` and its one thread per request are left out. The model handles one request at a time. Concurrency does not change the routing decision, because the handler state never changes after start-up.
- `Server::server_addr`, the socket, the bind address and tiny_http's wire format are left out. A failed bind is the `bindOk` parameter.
- Real file I/O is abstracted. A file "opens" when its path is in the set. Errors other than a missing file, and directories that open as files, are not distinguished.
- The internals of `Url::parse` are not modelled. It is a parameter. The URL's path is taken as `Url::path` gives it, still percent-encoded, and `try_asset` looks up that text as it is: `/a%20b.js` names a file called `a%20b.js`. How `Url::parse` percent-encodes the path and removes dot segments is left out with it.
- The contents of the two HTML pages (`index.html`, `index-headless.html`) are not part of this model. Only which of the two is served is modelled.
- The response bodies, file handles and status lines are left out. A response is the chosen page or path plus its content type, and the `Content-Type` header is reduced to its value (`ContentType.HeaderValue`).
- `mime` reads the extension with `to_str`, which fails for non-UTF-8 names. Paths here are Unicode strings, so that case is left out.
- DebugFormat.DebugList: which characters are non-printable or grapheme-extended, and so written `\u{..}`, is decided by Rust's Unicode tables, which are not part of this model; the set is a parameter. Non-UTF-8 bytes, which `OsStr` writes as `\x..`, are left out, because arguments here are Unicode strings.
- Bootstrap.RegistrationsReadBack: test names are put into the script unescaped, as the source does. The read-back is stated only for names without `'`, because a quote in a name would end the JavaScript string early.
- Bootstrap.BuildScript: it takes the fixed text as a parameter. The form of the fixed text is stated for every such text. `Spawn` passes the exact text, `RunJs`.
- `crates/macro/ui-tests/invalid-enums.rs` is a compile-failure fixture of the macro crate. It is not part of this model.

## Findings

| source | as written | input that shows it | evidently intended | confidence | as-written member | corrected member |
|---|---|---|---|---|---|---|
| crates/cli/src/bin/wasm-bindgen-test-runner/server.rs:37 | `Url::parse(request.url())` is given tiny_http's request target. That target is in origin form, such as `/` or `/run.js`, and `Url::parse` refuses a relative reference without a base. | `GET /run.js`, or `GET /`: both get 404, so neither the page nor the script is served. | Parse the target against a base such as `http://localhost`, so that `/` gets the page and other paths are looked up. | medium, not executed; it rests on the behaviour of the two libraries, which are not part of this model | Routing.OriginFormTargetsNotFound | Routing.WithBaseServesOriginForm (on Routing.ProcessRequestWithBase) |
