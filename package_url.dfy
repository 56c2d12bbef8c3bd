/** Extraction of a package name from a published tarball URL of the form
    `<prefix>/<name>/version/<version>/package.tgz` (scripts/index.js, getDependencyNameFromUrl).

    The script matches the URL against a regular expression anchored at the end only, whose
    name group and version part are non-empty and exclude `/`. Since the fixed parts `version` and
    `package.tgz` contain no `/` either, a match exists exactly when the URL has at least four
    `/`, and the four pieces after the last four of them are a non-empty name, `version`, a
    non-empty version and `package.tgz`; the match then captures that name. The model reads the
    URL from the end in this way. */
module PackageUrl {
  import opened Wrappers
  import opened Strings

  const MismatchMessage := "URL does not match the expected pattern: "
  const Marker := "version"
  const Tarball := "package.tgz"

  /** A path segment the pattern `[^/]+` accepts. */
  predicate Segment(x: string)
  {
    x != "" && '/' !in x
  }

  /** The URL the pattern describes, for a given prefix, name and version. */
  function DependencyUrl(prefix: string, name: string, version: string): string
  {
    prefix + "/" + name + "/" + Marker + "/" + version + "/" + Tarball
  }

  /** The four last `/`-separated pieces of a URL and what precedes them. */
  datatype UrlParts = UrlParts(prefix: string, name: string, marker: string, version: string, file: string)

  /** The URL cut at its last four `/`, when it has that many. */
  function LastParts(url: string): (r: Option<UrlParts>)
    ensures r.Some? ==>
              && url == r.value.prefix + "/" + r.value.name + "/" + r.value.marker + "/" + r.value.version + "/" + r.value.file
              && '/' !in r.value.name && '/' !in r.value.marker && '/' !in r.value.version && '/' !in r.value.file
  {
    match SplitLast(url, '/')
    case None => None
    case Some((u1, file)) =>
      match SplitLast(u1, '/')
      case None => None
      case Some((u2, version)) =>
        match SplitLast(u2, '/')
        case None => None
        case Some((u3, marker)) =>
          match SplitLast(u3, '/')
          case None => None
          case Some((prefix, name)) => Some(UrlParts(prefix, name, marker, version, file))
  }

  /** The package name of a dependency URL, or the error the script throws. */
  function ParseDependencyName(url: string): (r: Result<string, string>)
    ensures r.Ok? ==> Segment(r.value)
    ensures r.Err? ==> r.error == MismatchMessage + url
    ensures r.Err? ==> StartsWith(r.error, MismatchMessage) && EndsWith(r.error, url)
  {
    var p := LastParts(url);
    if p.Some? && p.value.file == Tarball && p.value.version != "" && p.value.marker == Marker
       && p.value.name != ""
    then Ok(p.value.name)
    else Err(MismatchMessage + url)
  }

  /** A URL built from four `/`-free pieces after any prefix is cut back into them. */
  lemma LastPartsOf(prefix: string, name: string, marker: string, version: string, file: string)
    requires '/' !in name && '/' !in marker && '/' !in version && '/' !in file
    ensures LastParts(prefix + "/" + name + "/" + marker + "/" + version + "/" + file)
         == Some(UrlParts(prefix, name, marker, version, file))
  {
    var u3 := prefix + "/" + name;
    var u2 := u3 + "/" + marker;
    var u1 := u2 + "/" + version;
    SplitLastAppend(u1, '/', file);
    SplitLastAppend(u2, '/', version);
    SplitLastAppend(u3, '/', marker);
    SplitLastAppend(prefix, '/', name);
  }

  /** Round trip: for any prefix (one that itself contains `/version/` included), a URL built
      from a name and a version that are non-empty and free of `/` parses to exactly that name. */
  lemma ParseDependencyUrl(prefix: string, name: string, version: string)
    requires Segment(name) && Segment(version)
    ensures ParseDependencyName(DependencyUrl(prefix, name, version)) == Ok(name)
  {
    LastPartsOf(prefix, name, Marker, version, Tarball);
  }

  /** Every accepted URL is one the pattern describes: the returned name preceded by a `/` and
      followed by `/version/<v>/package.tgz` for a non-empty, `/`-free `v`. */
  lemma ParsedUrlHasShape(url: string)
    requires ParseDependencyName(url).Ok?
    ensures var p := LastParts(url).value;
            && Segment(p.version)
            && url == DependencyUrl(p.prefix, ParseDependencyName(url).value, p.version)
  {
  }

  /** The parser accepts exactly the URLs the pattern matches, and returns the captured name. */
  lemma ParseCharacterisation(url: string, name: string)
    ensures ParseDependencyName(url) == Ok(name) <==>
            exists prefix, version :: Segment(name) && Segment(version)
                                      && url == DependencyUrl(prefix, name, version)
  {
    if ParseDependencyName(url) == Ok(name) {
      ParsedUrlHasShape(url);
      var p := LastParts(url).value;
      assert url == DependencyUrl(p.prefix, name, p.version);
    }
    if exists prefix, version :: Segment(name) && Segment(version) && url == DependencyUrl(prefix, name, version) {
      var prefix, version :| Segment(name) && Segment(version) && url == DependencyUrl(prefix, name, version);
      ParseDependencyUrl(prefix, name, version);
    }
  }

  /** A URL that does not end in `/package.tgz` is rejected. */
  lemma RejectsMissingTarball(url: string)
    requires !EndsWith(url, "/" + Tarball)
    ensures ParseDependencyName(url).Err?
  {
  }

  /** A URL whose segment after the name is anything but `version` is rejected. */
  lemma RejectsWrongMarker(prefix: string, name: string, marker: string, version: string)
    requires '/' !in name && '/' !in marker && '/' !in version
    requires marker != Marker
    ensures ParseDependencyName(prefix + "/" + name + "/" + marker + "/" + version + "/" + Tarball).Err?
  {
    LastPartsOf(prefix, name, marker, version, Tarball);
  }

  /** A URL whose name or version segment is empty is rejected. */
  lemma RejectsEmptySegment(prefix: string, name: string, version: string)
    requires '/' !in name && '/' !in version
    requires name == "" || version == ""
    ensures ParseDependencyName(DependencyUrl(prefix, name, version)).Err?
  {
    LastPartsOf(prefix, name, Marker, version, Tarball);
  }

  /** A URL with no `/` in front of the name is rejected. */
  lemma RejectsNoLeadingSlash(name: string, version: string)
    requires '/' !in name && '/' !in version
    ensures ParseDependencyName(name + "/" + Marker + "/" + version + "/" + Tarball).Err?
  {
    var u2 := name + "/" + Marker;
    var u1 := u2 + "/" + version;
    SplitLastAppend(u1, '/', Tarball);
    SplitLastAppend(u2, '/', version);
    SplitLastAppend(name, '/', Marker);
  }
}
