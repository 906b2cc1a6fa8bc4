/** Unix path operations of Rust's `std::path`, written out on strings:
    `Path::join`, `Path::file_name`, `Path::extension` and
    `PathBuf::set_extension`. The separator is `/`. */
module Paths {
  import opened Wrappers

  /** True when `s` is non-empty and its first character is `/`
      (`Path::has_root` on Unix, and the test `strip_prefix('/')` makes). */
  predicate StartsWithSlash(s: string) {
    |s| > 0 && s[0] == '/'
  }

  /** True when `s` is empty or ends in a separator. */
  predicate DirLike(s: string) {
    s == [] || s[|s| - 1] == '/'
  }

  /** `dir.join(rest)`: an absolute `rest` replaces `dir`; otherwise a
      separator is inserted unless `dir` is empty or already ends in one. */
  function Join(dir: string, rest: string): (p: string)
    ensures StartsWithSlash(rest) ==> p == rest
    ensures !StartsWithSlash(rest) ==>
      |p| >= |dir| + |rest| && p[..|dir|] == dir && p[|p| - |rest|..] == rest
    ensures !StartsWithSlash(rest) ==> DirLike(p[..|p| - |rest|])
    ensures !StartsWithSlash(rest) ==> |p| == |dir| + |rest| + (if DirLike(dir) then 0 else 1)
  {
    if StartsWithSlash(rest) then rest
    else if DirLike(dir) then dir + rest
    else dir + "/" + rest
  }

  /** True when the path's last component is `.`, after a separator. */
  predicate EndsWithSlashDot(p: string) {
    |p| >= 2 && p[|p| - 1] == '.' && p[|p| - 2] == '/'
  }

  /** The path with its trailing separators and trailing `/.` components
      dropped; `Path::components` normalises these away at the end. */
  function TrimTail(p: string): string
    decreases |p|
  {
    if |p| > 0 && p[|p| - 1] == '/' then TrimTail(p[..|p| - 1])
    else if EndsWithSlashDot(p) then TrimTail(p[..|p| - 1])
    else p
  }

  /** The longest suffix of `s` without a separator. */
  function AfterLastSlash(s: string): string
  {
    if |s| == 0 then []
    else if s[|s| - 1] == '/' then []
    else AfterLastSlash(s[..|s| - 1]) + [s[|s| - 1]]
  }

  /** A name that `Path::components` yields as a normal component: not
      empty, not `.` or `..`, and without a separator. */
  predicate PlainName(n: string) {
    && |n| > 0
    && !(|n| == 1 && n[0] == '.')
    && !(|n| == 2 && n[0] == '.' && n[1] == '.')
    && '/' !in n
  }

  /** `Path::file_name`: the last component when it is a normal one; `None`
      for a root, an empty path, or a last component `.` or `..`. */
  function FileName(p: string): (n: Option<string>)
    ensures n.Some? ==> PlainName(n.value)
  {
    var seg := AfterLastSlash(TrimTail(p));
    if PlainName(seg) then Some(seg) else None
  }

  /** Index of the last `.` in `s`, or -1 when there is none. */
  function LastDot(s: string): (i: int)
    ensures -1 <= i < |s|
    ensures i >= 0 ==> s[i] == '.'
    ensures forall k :: i < k < |s| ==> s[k] != '.'
  {
    if |s| == 0 then -1
    else if s[|s| - 1] == '.' then |s| - 1
    else LastDot(s[..|s| - 1])
  }

  /** The extension part of a file name, as `rsplit_file_at_dot` splits it:
      the text after the last `.`, unless there is no `.` or the only text
      before it is empty (a name such as `.profile`). */
  function NameExtension(name: string): Option<string>
  {
    var i := LastDot(name);
    if i <= 0 then None else Some(name[i + 1..])
  }

  /** The stem part of a file name: the name without its extension. */
  function NameStem(name: string): (s: string)
    requires PlainName(name)
    ensures s != [] && '/' !in s
    ensures s + (if NameExtension(name).Some? then "." + NameExtension(name).value else "") == name
  {
    var i := LastDot(name);
    if i <= 0 then name
    else
      assert name[..i] + "." + name[i + 1..] == name by {
        assert name == name[..i] + [name[i]] + name[i + 1..];
      }
      name[..i]
  }

  /** `Path::extension`. */
  function Extension(p: string): (e: Option<string>)
    ensures FileName(p).None? ==> e.None?
  {
    match FileName(p)
    case None => None
    case Some(name) => NameExtension(name)
  }

  /** The part of the trimmed path before its file name: empty, or ending
      in a separator. */
  function DirPrefix(p: string): (d: string)
    requires FileName(p).Some?
    ensures DirLike(d)
    ensures d + FileName(p).value == TrimTail(p)
  {
    var q := TrimTail(p);
    AfterLastSlashSplit(q);
    q[..|q| - |FileName(p).value|]
  }

  /** `PathBuf::set_extension(ext)`: without a file name nothing changes;
      otherwise the path is cut right after the file stem (dropping any old
      extension and trailing separators) and `.ext` is appended when `ext`
      is not empty. */
  function SetExtension(p: string, ext: string): (r: string)
    ensures FileName(p).None? ==> r == p
  {
    match FileName(p)
    case None => p
    case Some(name) => DirPrefix(p) + NameStem(name) + (if ext == "" then "" else "." + ext)
  }

  /** `AfterLastSlash(s)` is a suffix of `s` that starts right after a
      separator or at the start of `s`. */
  lemma {:induction false} AfterLastSlashSplit(s: string)
    ensures |AfterLastSlash(s)| <= |s|
    ensures s[..|s| - |AfterLastSlash(s)|] + AfterLastSlash(s) == s
    ensures DirLike(s[..|s| - |AfterLastSlash(s)|])
  {
    if |s| > 0 && s[|s| - 1] != '/' {
      var s', c := s[..|s| - 1], s[|s| - 1];
      var r' := AfterLastSlash(s');
      AfterLastSlashSplit(s');
      var k := |s'| - |r'|;
      assert AfterLastSlash(s) == r' + [c];
      assert |s| - |AfterLastSlash(s)| == k;
      assert s[..k] == s'[..k];
      assert s' + [c] == s;
      calc {
        s[..k] + AfterLastSlash(s);
        s'[..k] + (r' + [c]);
        (s'[..k] + r') + [c];
      }
    }
  }

  lemma {:induction false} AfterLastSlashAfterPrefix(prefix: string, x: string)
    requires DirLike(prefix)
    requires '/' !in x
    ensures AfterLastSlash(prefix + x) == x
    decreases |x|
  {
    if x == [] {
      assert prefix + x == prefix;
    } else {
      var p := prefix + x;
      var x' := x[..|x| - 1];
      assert p[..|p| - 1] == prefix + x';
      assert x == x' + [x[|x| - 1]];
      AfterLastSlashAfterPrefix(prefix, x');
    }
  }

  /** A plain name after an empty prefix or a prefix ending in a separator
      is the file name of the whole. */
  lemma FileNameAfterPrefix(prefix: string, name: string)
    requires DirLike(prefix)
    requires PlainName(name)
    ensures TrimTail(prefix + name) == prefix + name
    ensures FileName(prefix + name) == Some(name)
  {
    AfterLastSlashAfterPrefix(prefix, name);
  }

  /** Joining a plain name onto any directory gives a path whose file name
      is that name. */
  lemma JoinFileName(dir: string, name: string)
    requires PlainName(name)
    ensures FileName(Join(dir, name)) == Some(name)
    ensures Extension(Join(dir, name)) == NameExtension(name)
  {
    var p := Join(dir, name);
    assert p == p[..|p| - |name|] + name;
    FileNameAfterPrefix(p[..|p| - |name|], name);
  }

  /** A stem, a dot and a dot-free extension make a plain name with that
      extension. */
  lemma DottedName(stem: string, ext: string)
    requires stem != [] && '/' !in stem
    requires ext != [] && '/' !in ext && '.' !in ext
    ensures PlainName(stem + ("." + ext))
    ensures NameExtension(stem + ("." + ext)) == Some(ext)
  {
    var n := stem + ("." + ext);
    assert n[|stem|] == '.';
    assert forall k :: |stem| < k < |n| ==> n[k] == ext[k - |stem| - 1];
    assert LastDot(n) == |stem|;
    assert n[|stem| + 1..] == ext;
  }

  lemma SetExtensionJsShape(p: string)
    requires FileName(p).Some?
    ensures SetExtension(p, "js") == DirPrefix(p) + (NameStem(FileName(p).value) + ("." + "js"))
  {
  }

  /** After `set_extension("js")` on a path with a file name, the extension
      is `js` and the file name is the old stem followed by `.js`. */
  lemma SetExtensionJs(p: string)
    requires FileName(p).Some?
    ensures FileName(SetExtension(p, "js")) == Some(NameStem(FileName(p).value) + ("." + "js"))
    ensures Extension(SetExtension(p, "js")) == Some("js")
  {
    var stem := NameStem(FileName(p).value);
    var n := stem + ("." + "js");
    var prefix := DirPrefix(p);
    DottedName(stem, "js");
    SetExtensionJsShape(p);
    FileNameAfterPrefix(prefix, n);
    assert FileName(prefix + n) == Some(n);
    assert Extension(prefix + n) == Some("js");
  }

  /** Joining a longer relative path extends the joined path by the added
      text. */
  lemma JoinAppend(dir: string, a: string, b: string)
    requires a != [] && !StartsWithSlash(a)
    ensures Join(dir, a + b) == Join(dir, a) + b
  {
    assert (a + b)[0] == a[0];
    if DirLike(dir) {
      assert dir + (a + b) == dir + a + b;
    } else {
      assert dir + "/" + (a + b) == dir + "/" + a + b;
    }
  }

  /** A directory joined with a plain name is its directory part followed
      by the name. */
  lemma JoinDirPrefix(dir: string, name: string)
    requires PlainName(name)
    ensures FileName(Join(dir, name)) == Some(name)
    ensures DirPrefix(Join(dir, name)) + name == Join(dir, name)
  {
    var p := Join(dir, name);
    var prefix := p[..|p| - |name|];
    assert p == prefix + name;
    FileNameAfterPrefix(prefix, name);
  }

  /** `set_extension("js")` on a directory joined with an extension-less
      name is the directory joined with the name followed by `.js`. */
  lemma SetExtensionJsOfJoin(dir: string, name: string)
    requires PlainName(name) && NameExtension(name).None?
    ensures SetExtension(Join(dir, name), "js") == Join(dir, name + ("." + "js"))
  {
    var p := Join(dir, name);
    JoinDirPrefix(dir, name);
    assert NameStem(name) + "" == name;
    SetExtensionJsShape(p);
    JoinAppend(dir, name, "." + "js");
    assert DirPrefix(p) + (name + ("." + "js")) == DirPrefix(p) + name + ("." + "js");
  }
}
