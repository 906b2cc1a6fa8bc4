/** The start-up half of the test server (`spawn`): the generated
    `run.js` script that imports the bindings, forwards the runtime
    arguments and registers the tests, its write into the temporary
    directory, and the handler the server is built with. */
module Bootstrap {
  import opened Wrappers
  import opened Paths
  import opened Media
  import opened Assets
  import opened Routing
  import opened DebugFormat

  /** The fixed text of the script, cut at the three places where
      `spawn` fills something in. */
  datatype Template = Template(head: string, afterImport: string, afterInit: string, afterArgs: string)

  /** The text `spawn` formats, with its doubled braces undone. */
  const RunJs: Template := Template(
    // The script up to the import source: the imported bindings.
      "\n"
      + "        import {\n"
      + "            WasmBindgenTestContext as Context,\n"
      + "            __wbgtest_console_debug,\n"
      + "            __wbgtest_console_log,\n"
      + "            __wbgtest_console_info,\n"
      + "            __wbgtest_console_warn,\n"
      + "            __wbgtest_console_error,\n"
      + "            default as init,\n"
      + "        ",
    // From the import to the initialiser call: the status text and the start of `main`.
      "\n"
      + "\n"
      + "        // Now that we've gotten to the point where JS is executing, update our\n"
      + "        // status text as at this point we should be asynchronously fetching the\n"
      + "        // wasm module.\n"
      + "        document.getElementById('output').textContent = \"Loading wasm module...\";\n"
      + "\n"
      + "        async function main(test) {\n"
      + "            const wasm = await ",
    // From the initialiser call to the argument call: the session context and the five console hooks.
      "\n"
      + "\n"
      + "            const cx = new Context();\n"
      + "            window.on_console_debug = __wbgtest_console_debug;\n"
      + "            window.on_console_log = __wbgtest_console_log;\n"
      + "            window.on_console_info = __wbgtest_console_info;\n"
      + "            window.on_console_warn = __wbgtest_console_warn;\n"
      + "            window.on_console_error = __wbgtest_console_error;\n"
      + "\n"
      + "            // Forward runtime arguments. These arguments are also arguments to the\n"
      + "            // `wasm-bindgen-test-runner` which forwards them to node which we\n"
      + "            // forward to the test harness. this is basically only used for test\n"
      + "            // filters for now.\n"
      + "            ",
    // From the argument call to the end of the fixed text: running the tests, closing `main`, and the empty test list.
      "\n"
      + "\n"
      + "            await cx.run(test.map(s => wasm[s]));\n"
      + "        }\n"
      + "\n"
      + "        const tests = [];\n"
      + "    ")

  /** The import statement's closing line, naming the bindings module. */
  function ImportFrom(moduleName: string): string {
    "} from './" + moduleName + "';"
  }

  /** The initialiser call, naming the module's wasm binary. */
  function InitCall(moduleName: string): string {
    "init('./" + moduleName + "_bg.wasm');"
  }

  /** The call that hands the runtime arguments, already formatted, to the
      test context. */
  function ArgsCall(formattedArgs: string): string {
    "cx.args(" + formattedArgs + ");"
  }

  /** The fixed part of the script with the module name and the formatted
      arguments filled in. */
  function Prelude(t: Template, moduleName: string, formattedArgs: string): string {
    t.head + ImportFrom(moduleName) + MainPart(t, moduleName, formattedArgs)
  }

  /** The text after the import: the status line and `main`, which loads
      the module's wasm binary and runs the tests with the arguments. */
  function MainPart(t: Template, moduleName: string, formattedArgs: string): string {
    t.afterImport + InitCall(moduleName) + ContextPart(t, formattedArgs)
  }

  /** The text after the initialiser call: the session context, its
      console hooks and arguments, the run, and the empty test list. */
  function ContextPart(t: Template, formattedArgs: string): string {
    t.afterInit + ArgsCall(formattedArgs) + t.afterArgs
  }

  const PushOpen: string := "tests.push('"
  const PushClose: string := "');\n"

  /** The line that registers one test. */
  function PushLine(test: string): string {
    PushOpen + test + PushClose
  }

  /** The total length of the test names. */
  function NamesLength(tests: seq<string>): nat {
    if tests == [] then 0 else |tests[0]| + NamesLength(tests[1..])
  }

  /** The registration lines of the tests, in order: one line of fixed
      shape per test, each holding that test's name and nothing else. */
  function PushLines(tests: seq<string>): (r: string)
    ensures |r| == |tests| * (|PushOpen| + |PushClose|) + NamesLength(tests)
    ensures r == [] <==> tests == []
  {
    if tests == [] then [] else PushLine(tests[0]) + PushLines(tests[1..])
  }

  /** The line that starts the run. */
  const MainCall: string := "main(tests);\n"

  /** The whole script `spawn` writes: the formatted fixed text, then the
      registrations and the call to `main`. After the fixed text, the
      script is exactly the given tests' registrations, in order, and one
      call to `main`, whenever the names can be read back (no `'`). */
  function Script(t: Template, moduleName: string, args: seq<string>, tests: seq<string>, esc: UnicodeEscapes): (js: string)
    ensures (forall i :: 0 <= i < |tests| ==> '\'' !in tests[i]) ==>
      RegistrationsAfter(Prelude(t, moduleName, DebugList(args, esc)), js) == Some(tests)
  {
    // Both branches are the same text; the read-back lemma is called only
    // under the test on the names. A body that calls it unconditionally
    // makes the proof of `Spawn`, which mentions `Script` of the long fixed
    // text, several times more expensive.
    var p := Prelude(t, moduleName, DebugList(args, esc));
    if forall i :: 0 <= i < |tests| ==> '\'' !in tests[i] then
      RegistrationsAfterPrefix(p, tests); Assemble(p, tests)
    else Assemble(p, tests)
  }

  function Assemble(prefix: string, tests: seq<string>): string {
    prefix + PushLines(tests) + MainCall
  }

  lemma {:induction false} PushLinesAppend(a: seq<string>, b: seq<string>)
    ensures PushLines(a + b) == PushLines(a) + PushLines(b)
  {
    if a == [] {
      assert a + b == b;
    } else {
      assert (a + b)[1..] == a[1..] + b;
      PushLinesAppend(a[1..], b);
    }
  }

  lemma PushLinesSnoc(tests: seq<string>, i: nat)
    requires i < |tests|
    ensures PushLines(tests[..i + 1]) == PushLines(tests[..i]) + PushLine(tests[i])
  {
    PushLinesAppend(tests[..i], [tests[i]]);
    assert tests[..i + 1] == tests[..i] + [tests[i]];
  }

  /** Builds the script as `spawn` does: format the fixed part, then append
      the registrations and the call to `main`. */
  method BuildScript(t: Template, moduleName: string, args: seq<string>, tests: seq<string>, esc: UnicodeEscapes) returns (js: string)
    ensures js == Script(t, moduleName, args, tests, esc)
  {
    js := Prelude(t, moduleName, DebugList(args, esc));
    js := AppendRegistrations(js, tests);
  }

  /** The loop of `spawn`: one registration line per test, in order, pushed
      onto the formatted text, then the call to `main`. */
  method AppendRegistrations(prefix: string, tests: seq<string>) returns (js: string)
    ensures js == prefix + PushLines(tests) + MainCall
  {
    js := prefix;
    for i := 0 to |tests|
      invariant js == prefix + PushLines(tests[..i])
    {
      PushLinesSnoc(tests, i);
      js := js + PushLine(tests[i]);
    }
    assert tests[..|tests|] == tests;
    js := js + MainCall;
  }

  /** Why `spawn` fails: the script could not be written (the error carries
      the context message), or the listening socket could not be bound. */
  datatype SpawnError = WriteFailed(context: string) | BindFailed

  /** The file name of the script inside the temporary directory. */
  const ScriptName: string := "run.js"

  const WriteContext: string := "failed to write JS file"

  /** How `fs::write` ends: the file is created (or emptied) and fully
      written; `File::create` fails and nothing changes; or `write_all`
      fails after `count` characters, leaving the file truncated to what
      was written so far. */
  datatype WriteOutcome = Written | CreateFailed | Interrupted(count: nat)

  function Min(a: nat, b: nat): nat { if a < b then a else b }

  /** `fs::write(path, contents)`: `File::create` then `write_all`. It
      succeeds exactly when the whole contents are written; a failure in
      `write_all` leaves a prefix of the contents in the file. No other
      file changes. */
  method WriteFile(files: map<string, string>, path: string, contents: string, w: WriteOutcome)
    returns (ok: bool, files': map<string, string>)
    ensures ok <==> w.Written?
    ensures w.Written? ==> files' == files[path := contents]
    ensures w.CreateFailed? ==> files' == files
    ensures w.Interrupted? ==>
      path in files' && files'[path] <= contents && |files'[path]| == Min(w.count, |contents|)
    ensures forall p :: p != path ==> (p in files' <==> p in files)
    ensures forall p :: p != path && p in files ==> files'[p] == files[p]
  {
    match w
    case Written =>
      ok, files' := true, files[path := contents];
    case CreateFailed =>
      ok, files' := false, files;
    case Interrupted(n) =>
      ok, files' := false, files[path := contents[..Min(n, |contents|)]];
  }

  /** `spawn`: build the script, write it to `run.js` in the temporary
      directory, then bind the server. The file system is a map from path to
      contents; how the write ends and whether the bind succeeds are
      parameters, and so is the set of characters the arguments' `Debug`
      text writes as `\u{..}`. A failed write stops before the bind; it
      changes no file other than `run.js`, which it may leave holding only
      the start of the script. */
  method Spawn(headless: bool, moduleName: string, tmpdir: string, args: seq<string>, tests: seq<string>,
               esc: UnicodeEscapes, files: map<string, string>, w: WriteOutcome, bindOk: bool)
    returns (r: Result<Handler, SpawnError>, files': map<string, string>)
    ensures !w.Written? ==> r == Failure(WriteFailed(WriteContext))
    ensures w.CreateFailed? ==> files' == files
    ensures w.Interrupted? ==>
      Join(tmpdir, ScriptName) in files' &&
      files'[Join(tmpdir, ScriptName)] <= Script(RunJs, moduleName, args, tests, esc)
    ensures forall p :: p != Join(tmpdir, ScriptName) ==> (p in files' <==> p in files)
    ensures forall p :: p != Join(tmpdir, ScriptName) && p in files ==> files'[p] == files[p]
    ensures w.Written? ==> files' == files[Join(tmpdir, ScriptName) := Script(RunJs, moduleName, args, tests, esc)]
    ensures w.Written? && !bindOk ==> r == Failure(BindFailed)
    ensures w.Written? && bindOk ==> r == Success(Handler(tmpdir, headless))
  {
    var js := BuildScript(RunJs, moduleName, args, tests, esc);
    var jsPath := Join(tmpdir, ScriptName);
    var ok;
    ok, files' := WriteFile(files, jsPath, js, w);
    if !ok {
      return Failure(WriteFailed(WriteContext)), files';
    }
    if !bindOk {
      return Failure(BindFailed), files';
    }
    r := Success(Handler(tmpdir, headless));
  }

  // Reading the registrations back.

  /** Splits off the longest prefix without a single quote. */
  function SplitAtQuote(s: string): (r: (string, string))
    ensures |r.1| <= |s|
  {
    if s == [] then ([], [])
    else if s[0] == '\'' then ([], s)
    else var (n, rest) := SplitAtQuote(s[1..]); ([s[0]] + n, rest)
  }

  lemma {:induction false} SplitAtQuoteBefore(t: string, rest: string)
    requires '\'' !in t
    requires rest != [] && rest[0] == '\''
    ensures SplitAtQuote(t + rest) == (t, rest)
  {
    if t == [] {
      assert t + rest == rest;
    } else {
      assert (t + rest)[0] == t[0] != '\'';
      assert (t + rest)[1..] == t[1..] + rest;
      SplitAtQuoteBefore(t[1..], rest);
      assert [t[0]] + t[1..] == t;
    }
  }

  /** Reads a sequence of registration lines ended by the call to `main`,
      giving the registered names in order. */
  function ParseRegistrations(s: string): Option<seq<string>>
    decreases |s|
  {
    if s == MainCall then Some([])
    else if |s| < |PushOpen| || s[..|PushOpen|] != PushOpen then None
    else
      var (name, rest) := SplitAtQuote(s[|PushOpen|..]);
      if |rest| < |PushClose| || rest[..|PushClose|] != PushClose then None
      else
        match ParseRegistrations(rest[|PushClose|..])
        case None => None
        case Some(names) => Some([name] + names)
  }

  lemma RegistrationStep(test: string, after: string)
    requires '\'' !in test
    ensures ParseRegistrations(PushLine(test) + after) ==
      match ParseRegistrations(after)
      case None => None
      case Some(names) => Some([test] + names)
  {
    var s := PushLine(test) + after;
    assert s[0] == 't';
    assert s[..|PushOpen|] == PushOpen;
    assert s[|PushOpen|..] == test + (PushClose + after);
    SplitAtQuoteBefore(test, PushClose + after);
    assert (PushClose + after)[..|PushClose|] == PushClose;
    assert (PushClose + after)[|PushClose|..] == after;
  }

  lemma PushLinesCons(tests: seq<string>)
    requires tests != []
    ensures PushLines(tests) + MainCall == PushLine(tests[0]) + (PushLines(tests[1..]) + MainCall)
  {
  }

  /** The registration lines read back as the tests, in order, followed by
      exactly one call to `main` and nothing else. */
  lemma {:induction false} RegistrationsReadBack(tests: seq<string>)
    requires forall i :: 0 <= i < |tests| ==> '\'' !in tests[i]
    ensures ParseRegistrations(PushLines(tests) + MainCall) == Some(tests)
  {
    if tests == [] {
      assert PushLines(tests) + MainCall == MainCall;
    } else {
      var rest := PushLines(tests[1..]) + MainCall;
      RegistrationsReadBack(tests[1..]);
      PushLinesCons(tests);
      RegistrationStep(tests[0], rest);
      assert [tests[0]] + tests[1..] == tests;
    }
  }

  /** What follows a given prefix, read as registrations. */
  function RegistrationsAfter(prefix: string, s: string): Option<seq<string>>
  {
    if |s| >= |prefix| && s[..|prefix|] == prefix then ParseRegistrations(s[|prefix|..]) else None
  }

  lemma RegistrationsAfterPrefix(prefix: string, tests: seq<string>)
    ensures (forall i :: 0 <= i < |tests| ==> '\'' !in tests[i]) ==>
      RegistrationsAfter(prefix, Assemble(prefix, tests)) == Some(tests)
  {
    if forall i :: 0 <= i < |tests| ==> '\'' !in tests[i] {
      var s := prefix + PushLines(tests) + MainCall;
      assert s[..|prefix|] == prefix;
      assert s[|prefix|..] == PushLines(tests) + MainCall;
      RegistrationsReadBack(tests);
    }
  }

  /** `x` occurs in `s` at offset `i`. */
  predicate OccursAt(s: string, x: string, i: nat) {
    i + |x| <= |s| && s[i..i + |x|] == x
  }

  lemma OccursInMiddle(a: string, x: string, b: string)
    ensures OccursAt(a + x + b, x, |a|)
  {
    assert (a + x + b)[|a|..|a| + |x|] == x;
  }

  lemma OccursBefore(s: string, x: string, i: nat, t: string)
    requires OccursAt(s, x, i)
    ensures OccursAt(s + t, x, i)
  {
    assert (s + t)[i..i + |x|] == s[i..i + |x|];
  }

  lemma OccursAfter(a: string, s: string, x: string, i: nat)
    requires OccursAt(s, x, i)
    ensures OccursAt(a + s, x, |a| + i)
  {
    assert (a + s)[|a| + i..|a| + i + |x|] == s[i..i + |x|];
  }

  /** Whatever occurs in the fixed part occurs at the same offset in the
      script. */
  lemma OccursInScript(t: Template, moduleName: string, args: seq<string>, tests: seq<string>, esc: UnicodeEscapes, x: string, i: nat)
    requires OccursAt(Prelude(t, moduleName, DebugList(args, esc)), x, i)
    ensures OccursAt(Script(t, moduleName, args, tests, esc), x, i)
  {
    var p := Prelude(t, moduleName, DebugList(args, esc));
    OccursBefore(p, x, i, PushLines(tests));
    OccursBefore(p + PushLines(tests), x, i, MainCall);
  }

  /** Where the import source, the initialiser call and the argument call
      start in the script. */
  function ImportAt(t: Template): nat { |t.head| }

  function InitAt(t: Template, moduleName: string): nat {
    ImportAt(t) + |ImportFrom(moduleName)| + |t.afterImport|
  }

  function ArgsAt(t: Template, moduleName: string): nat {
    InitAt(t, moduleName) + |InitCall(moduleName)| + |t.afterInit|
  }

  lemma ImportInScript(t: Template, moduleName: string, args: seq<string>, tests: seq<string>, esc: UnicodeEscapes)
    ensures OccursAt(Script(t, moduleName, args, tests, esc), ImportFrom(moduleName), ImportAt(t))
  {
    OccursInMiddle(t.head, ImportFrom(moduleName), MainPart(t, moduleName, DebugList(args, esc)));
    OccursInScript(t, moduleName, args, tests, esc, ImportFrom(moduleName), |t.head|);
  }

  lemma InitInScript(t: Template, moduleName: string, args: seq<string>, tests: seq<string>, esc: UnicodeEscapes)
    ensures OccursAt(Script(t, moduleName, args, tests, esc), InitCall(moduleName), InitAt(t, moduleName))
  {
    var a := DebugList(args, esc);
    OccursInMiddle(t.afterImport, InitCall(moduleName), ContextPart(t, a));
    var before := t.head + ImportFrom(moduleName);
    OccursAfter(before, MainPart(t, moduleName, a), InitCall(moduleName), |t.afterImport|);
    assert |before| + |t.afterImport| == InitAt(t, moduleName);
    OccursInScript(t, moduleName, args, tests, esc, InitCall(moduleName), InitAt(t, moduleName));
  }

  lemma ArgsInScript(t: Template, moduleName: string, args: seq<string>, tests: seq<string>, esc: UnicodeEscapes)
    ensures OccursAt(Script(t, moduleName, args, tests, esc), ArgsCall(DebugList(args, esc)), ArgsAt(t, moduleName))
  {
    var a := DebugList(args, esc);
    OccursInMiddle(t.afterInit, ArgsCall(a), t.afterArgs);
    OccursAfter(t.afterImport + InitCall(moduleName), ContextPart(t, a), ArgsCall(a), |t.afterInit|);
    var before := t.head + ImportFrom(moduleName);
    OccursAfter(before, MainPart(t, moduleName, a), ArgsCall(a),
                |t.afterImport + InitCall(moduleName)| + |t.afterInit|);
    assert |before| + (|t.afterImport + InitCall(moduleName)| + |t.afterInit|) == ArgsAt(t, moduleName);
    OccursInScript(t, moduleName, args, tests, esc, ArgsCall(a), ArgsAt(t, moduleName));
  }

  /** The module name is filled in twice, in the import source and then in
      the path of the wasm binary, and the arguments once after both, as
      their `Debug` list, which reads back as the arguments. */
  lemma ScriptNamesModuleAndArgs(t: Template, moduleName: string, args: seq<string>, tests: seq<string>, esc: UnicodeEscapes)
    ensures OccursAt(Script(t, moduleName, args, tests, esc), ImportFrom(moduleName), ImportAt(t))
    ensures OccursAt(Script(t, moduleName, args, tests, esc), InitCall(moduleName), InitAt(t, moduleName))
    ensures OccursAt(Script(t, moduleName, args, tests, esc), ArgsCall(DebugList(args, esc)), ArgsAt(t, moduleName))
    ensures ImportAt(t) + |ImportFrom(moduleName)| <= InitAt(t, moduleName)
    ensures InitAt(t, moduleName) + |InitCall(moduleName)| <= ArgsAt(t, moduleName)
    ensures ParseList(DebugList(args, esc)) == Some(args)
  {
    ImportInScript(t, moduleName, args, tests, esc);
    InitInScript(t, moduleName, args, tests, esc);
    ArgsInScript(t, moduleName, args, tests, esc);
    DebugListReadsBack(args, esc);
  }

  // What the started server serves of what `spawn` wrote.

  /** Once the script is written, a request for `/run.js` parsed against the
      base URL gets that file of the temporary directory, labelled
      `text/javascript`. */
  lemma ScriptIsServed(h: Handler, js: string, files: map<string, string>, parse: string -> Option<Url>)
    requires parse(BaseUrl + "/run.js") == Some(Url("/run.js"))
    ensures ProcessRequestWithBase(h, "/run.js", parse, files[Join(h.tmpdir, ScriptName) := js].Keys)
            == File(Join(h.tmpdir, ScriptName), JavaScript)
  {
    var fs := files[Join(h.tmpdir, ScriptName) := js].Keys;
    assert "/run.js"[1..] == ScriptName;
    assert "run" + ("." + "js") == ScriptName;
    DottedName("run", "js");
    JoinFileName(h.tmpdir, ScriptName);
    LookupDirectHit("/run.js", h.tmpdir, fs);
  }

  /** The script's import `./<module>` is requested as `/<module>`: when no
      file of that exact name exists in the temporary directory and the
      name has no extension, the `.js` file of that name is served. */
  lemma ModuleImportIsServed(tmpdir: string, moduleName: string, fs: set<string>)
    requires PlainName(moduleName) && NameExtension(moduleName).None?
    requires Join(tmpdir, moduleName) !in fs
    requires Join(tmpdir, moduleName + ("." + "js")) in fs
    ensures Resolve("/" + moduleName, tmpdir, fs) ==
            Some(Served(Join(tmpdir, moduleName + ("." + "js")), JavaScript))
  {
    assert ("/" + moduleName)[1..] == moduleName;
    JoinFileName(tmpdir, moduleName);
    SetExtensionJsOfJoin(tmpdir, moduleName);
    SetExtensionJsIsJavaScript(Join(tmpdir, moduleName));
    LookupSteps("/" + moduleName, tmpdir, fs);
  }

  /** The initialiser's `./<module>_bg.wasm` is requested as
      `/<module>_bg.wasm` and, when present in the temporary directory, is
      served labelled `application/wasm`. */
  lemma WasmBinaryIsServed(tmpdir: string, moduleName: string, fs: set<string>)
    requires moduleName != [] && '/' !in moduleName
    requires Join(tmpdir, moduleName + "_bg.wasm") in fs
    ensures Resolve("/" + moduleName + "_bg.wasm", tmpdir, fs) ==
            Some(Served(Join(tmpdir, moduleName + "_bg.wasm"), Wasm))
  {
    var name := moduleName + "_bg.wasm";
    assert ("/" + moduleName + "_bg.wasm")[1..] == name;
    assert (moduleName + "_bg") + ("." + "wasm") == name;
    DottedName(moduleName + "_bg", "wasm");
    JoinFileName(tmpdir, name);
    LookupDirectHit("/" + moduleName + "_bg.wasm", tmpdir, fs);
  }
}
