/** Asset resolution of the test server (`try_asset`, and the two-directory
    lookup of `Handler::process_request`). The filesystem is the set of
    paths that `File::open` accepts. */
module Assets {
  import opened Wrappers
  import opened Paths
  import opened Media

  /** The part of a parsed `url::Url` that resolution reads: `Url::path`. */
  datatype Url = Url(path: string)

  /** A file to respond with, and the content type it is labelled with. */
  datatype Served = Served(path: string, contentType: ContentType)

  /** The directory of source-relative assets, the process's working
      directory. */
  const ProjectDir := "."

  /** The joined path `try_asset` opens first: the URL path without its
      leading `/`, joined onto `dir`. */
  function FullPath(urlPath: string, dir: string): string
    requires StartsWithSlash(urlPath)
  {
    Join(dir, urlPath[1..])
  }

  /** The paths `try_asset` tries under `dir`, in order: none when the URL
      path has no leading `/`; the joined path; and, only when the joined
      path has no extension, the joined path with extension `js`. */
  function Candidates(urlPath: string, dir: string): (cs: seq<string>)
    ensures cs == [] <==> !StartsWithSlash(urlPath)
    ensures cs != [] ==> cs[0] == FullPath(urlPath, dir)
    ensures |cs| == 2 <==> StartsWithSlash(urlPath) && Extension(FullPath(urlPath, dir)).None?
    ensures |cs| <= 2
    ensures |cs| == 2 ==> cs[1] == SetExtension(cs[0], "js")
    ensures |cs| == 2 && FileName(cs[0]).Some? ==> Extension(cs[1]) == Some("js")
  {
    if !StartsWithSlash(urlPath) then []
    else
      var full := FullPath(urlPath, dir);
      if Extension(full).None? then
        assert FileName(full).Some? ==> Extension(SetExtension(full, "js")) == Some("js") by {
          if FileName(full).Some? { SetExtensionJs(full); }
        }
        [full, SetExtension(full, "js")]
      else [full]
  }

  /** The first path of `cs` that opens, labelled with the content type of
      that path. */
  function FirstOpen(cs: seq<string>, fs: set<string>): (r: Option<Served>)
    ensures r.Some? ==> r.value.path in cs && r.value.path in fs
    ensures r.Some? ==> exists i :: 0 <= i < |cs| && cs[i] == r.value.path &&
                                    forall j :: 0 <= j < i ==> cs[j] !in fs
    ensures r.Some? ==> r.value.contentType == Mime(r.value.path)
    ensures r.None? <==> forall i :: 0 <= i < |cs| ==> cs[i] !in fs
  {
    if cs == [] then None
    else if cs[0] in fs then Some(Served(cs[0], Mime(cs[0])))
    else FirstOpen(cs[1..], fs)
  }

  /** What `try_asset(url, dir)` yields, as a function of the URL path. */
  function Lookup(urlPath: string, dir: string, fs: set<string>): (r: Option<Served>)
    ensures r.Some? ==> r.value.path in Candidates(urlPath, dir) && r.value.path in fs
    ensures r.Some? ==> r.value.contentType == Mime(r.value.path)
    ensures r.None? <==> forall c :: c in Candidates(urlPath, dir) ==> c !in fs
  {
    FirstOpen(Candidates(urlPath, dir), fs)
  }

  /** The candidate-list lookup, unfolded into the steps `try_asset` takes. */
  lemma LookupSteps(urlPath: string, dir: string, fs: set<string>)
    ensures Lookup(urlPath, dir, fs) ==
      if !StartsWithSlash(urlPath) then None
      else
        var full := FullPath(urlPath, dir);
        if full in fs then Some(Served(full, Mime(full)))
        else if Extension(full).None? && SetExtension(full, "js") in fs then
          Some(Served(SetExtension(full, "js"), Mime(SetExtension(full, "js"))))
        else None
  {
    if StartsWithSlash(urlPath) {
      var full := FullPath(urlPath, dir);
      if Extension(full).None? {
        var js := SetExtension(full, "js");
        assert Candidates(urlPath, dir) == [full, js];
        assert FirstOpen([full, js], fs) ==
          if full in fs then Some(Served(full, Mime(full)))
          else if js in fs then Some(Served(js, Mime(js)))
          else None;
      } else {
        assert Candidates(urlPath, dir) == [full];
      }
    }
  }

  /** `try_asset`: strip the leading `/`, join onto `dir`, serve the file
      there if it opens; otherwise, if that path has no extension, set its
      extension to `js` and try once more. */
  method TryAsset(url: Url, dir: string, fs: set<string>) returns (r: Option<Served>)
    ensures r == Lookup(url.path, dir, fs)
    ensures !StartsWithSlash(url.path) ==> r.None?
    ensures StartsWithSlash(url.path) && FullPath(url.path, dir) in fs ==>
      r == Some(Served(FullPath(url.path, dir), Mime(FullPath(url.path, dir))))
  {
    LookupSteps(url.path, dir, fs);
    if !StartsWithSlash(url.path) {
      return None;
    }
    var fullPath := Join(dir, url.path[1..]);
    if fullPath in fs {
      return Some(Served(fullPath, Mime(fullPath)));
    }
    if Extension(fullPath).None? {
      fullPath := SetExtension(fullPath, "js");
      if fullPath in fs {
        return Some(Served(fullPath, Mime(fullPath)));
      }
    }
    return None;
  }

  /** The lookup over both directories: the temporary directory first, and
      the project directory only when that finds nothing. */
  function Resolve(urlPath: string, tmpdir: string, fs: set<string>): (r: Option<Served>)
    ensures r.Some? ==> r.value.path in fs && r.value.contentType == Mime(r.value.path)
    ensures r.None? <==> Lookup(urlPath, tmpdir, fs).None? && Lookup(urlPath, ProjectDir, fs).None?
    ensures Lookup(urlPath, tmpdir, fs).Some? ==> r == Lookup(urlPath, tmpdir, fs)
  {
    Lookup(urlPath, tmpdir, fs).OrElse(Lookup(urlPath, ProjectDir, fs))
  }

  /** Trying a concatenation of candidate lists is trying the first list,
      then the second. */
  lemma {:induction false} FirstOpenAppend(a: seq<string>, b: seq<string>, fs: set<string>)
    ensures FirstOpen(a + b, fs) == FirstOpen(a, fs).OrElse(FirstOpen(b, fs))
  {
    if a != [] {
      assert (a + b)[0] == a[0];
      assert (a + b)[1..] == a[1..] + b;
      FirstOpenAppend(a[1..], b, fs);
    } else {
      assert a + b == b;
    }
  }

  /** Without a leading `/`, `strip_prefix('/')?` makes the lookup fail. */
  lemma LookupNeedsLeadingSlash(urlPath: string, dir: string, fs: set<string>)
    requires !StartsWithSlash(urlPath)
    ensures Lookup(urlPath, dir, fs) == None
  {
  }

  /** An existing joined path is served as it is, labelled by its own
      extension, and the `.js` retry is not made. */
  lemma LookupDirectHit(urlPath: string, dir: string, fs: set<string>)
    requires StartsWithSlash(urlPath) && FullPath(urlPath, dir) in fs
    ensures Lookup(urlPath, dir, fs) ==
      Some(Served(FullPath(urlPath, dir), Mime(FullPath(urlPath, dir))))
  {
  }

  /** A joined path that has an extension gets no `.js` retry: the lookup
      fails when it does not open. */
  lemma LookupNoRetryWithExtension(urlPath: string, dir: string, fs: set<string>)
    requires StartsWithSlash(urlPath) && Extension(FullPath(urlPath, dir)).Some?
    requires FullPath(urlPath, dir) !in fs
    ensures Lookup(urlPath, dir, fs) == None
  {
  }

  /** When the lookup serves something other than the joined path, that
      was the `.js` retry: the joined path did not open and has a file name
      but no extension, and the served file is the joined path with
      extension `js`, labelled `text/javascript`. */
  lemma LookupFallback(urlPath: string, dir: string, fs: set<string>)
    requires StartsWithSlash(urlPath)
    requires Lookup(urlPath, dir, fs).Some?
    requires Lookup(urlPath, dir, fs).value.path != FullPath(urlPath, dir)
    ensures FullPath(urlPath, dir) !in fs
    ensures Extension(FullPath(urlPath, dir)).None? && FileName(FullPath(urlPath, dir)).Some?
    ensures Lookup(urlPath, dir, fs).value.path == SetExtension(FullPath(urlPath, dir), "js")
    ensures Extension(Lookup(urlPath, dir, fs).value.path) == Some("js")
    ensures Lookup(urlPath, dir, fs).value.contentType == JavaScript
  {
    var full := FullPath(urlPath, dir);
    var r := Lookup(urlPath, dir, fs).value;
    assert Candidates(urlPath, dir) == [full, SetExtension(full, "js")];
    assert r.path == SetExtension(full, "js");
    SetExtensionJs(full);
  }

  /** The lookup under one directory fails exactly when the URL path has no
      leading `/`, or the joined path does not open and either has an
      extension or does not open with extension `js` either. */
  lemma LookupNoneIff(urlPath: string, dir: string, fs: set<string>)
    ensures Lookup(urlPath, dir, fs).None? <==>
      (!StartsWithSlash(urlPath) ||
       (FullPath(urlPath, dir) !in fs &&
        (Extension(FullPath(urlPath, dir)).Some? ||
         SetExtension(FullPath(urlPath, dir), "js") !in fs)))
  {
    LookupSteps(urlPath, dir, fs);
  }

  /** The two-directory lookup is the ordered candidate list: the temporary
      directory as is, then with `.js`, then the project directory as is,
      then with `.js`. */
  lemma ResolveIsOrderedCandidates(urlPath: string, tmpdir: string, fs: set<string>)
    ensures Resolve(urlPath, tmpdir, fs) ==
      FirstOpen(Candidates(urlPath, tmpdir) + Candidates(urlPath, ProjectDir), fs)
  {
    FirstOpenAppend(Candidates(urlPath, tmpdir), Candidates(urlPath, ProjectDir), fs);
  }

  /** A hit in the temporary directory, including one through its `.js`
      retry, shadows anything in the project directory; the project
      directory is consulted only when the temporary one yields nothing. */
  lemma TmpdirShadowsProjectDir(urlPath: string, tmpdir: string, fs: set<string>)
    ensures Lookup(urlPath, tmpdir, fs).Some? ==>
      Resolve(urlPath, tmpdir, fs) == Lookup(urlPath, tmpdir, fs)
    ensures Lookup(urlPath, tmpdir, fs).None? ==>
      Resolve(urlPath, tmpdir, fs) == Lookup(urlPath, ProjectDir, fs)
  {
  }
}
