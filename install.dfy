/** The package-manager command that pins every configured dependency to its tarball URL
    (scripts/index.js, upgradeDependencies), and the directory name of a repository
    (scripts/index.js, getRepoPath). */
module Install {
  import opened Wrappers
  import opened Strings
  import opened PackageUrl

  const Scope := "@fsa-streamotion/"
  const DirPrefix := "streamotion-web-"
  const DirSuffix := "-widgets"

  /** The install specifier `@fsa-streamotion/<name>@<url>` for one dependency URL. */
  function Specifier(url: string): (r: Result<string, string>)
    ensures r.Ok? <==> ParseDependencyName(url).Ok?
    ensures r.Ok? ==> StartsWith(r.value, Scope) && EndsWith(r.value, "@" + url)
    ensures r.Err? ==> r.error == ParseDependencyName(url).error
  {
    match ParseDependencyName(url)
    case Ok(name) => Ok(Scope + name + "@" + url)
    case Err(e) => Err(e)
  }

  /** The specifiers of all URLs in order, or the error of the first URL that does not parse. */
  function Specifiers(urls: seq<string>): (r: Result<seq<string>, string>)
    ensures r.Ok? ==> |r.value| == |urls|
    ensures r.Err? ==> StartsWith(r.error, MismatchMessage)
  {
    if |urls| == 0 then Ok([])
    else
      match Specifiers(urls[..|urls| - 1])
      case Err(e) => Err(e)
      case Ok(specs) =>
        match Specifier(urls[|urls| - 1])
        case Err(e) => Err(e)
        case Ok(spec) => Ok(specs + [spec])
  }

  /** `npm install <specifiers joined by single spaces> -f`, or the parser's error when some
      URL does not parse; the command then does not exist. */
  function InstallCommand(urls: seq<string>): (r: Result<string, string>)
    ensures r.Ok? ==> StartsWith(r.value, "npm install ") && EndsWith(r.value, " -f")
    ensures r.Err? ==> StartsWith(r.error, MismatchMessage)
  {
    match Specifiers(urls)
    case Err(e) => Err(e)
    case Ok(specs) => Ok("npm install " + Join(specs, " ") + " -f")
  }

  /** There are specifiers exactly when every URL parses. */
  lemma {:induction false} SpecifiersAccept(urls: seq<string>)
    ensures Specifiers(urls).Ok? <==> forall i :: 0 <= i < |urls| ==> ParseDependencyName(urls[i]).Ok?
    decreases |urls|
  {
    if |urls| > 0 {
      var n := |urls|;
      var front := urls[..n - 1];
      SpecifiersAccept(front);
      assert Specifiers(urls).Ok? <==> Specifiers(front).Ok? && Specifier(urls[n - 1]).Ok?;
      if Specifiers(urls).Ok? {
        forall i | 0 <= i < n
          ensures ParseDependencyName(urls[i]).Ok?
        {
          if i < n - 1 {
            assert front[i] == urls[i];
          }
        }
      } else if Specifiers(front).Err? {
        var i :| 0 <= i < n - 1 && !ParseDependencyName(front[i]).Ok?;
        assert front[i] == urls[i];
      }
    }
  }

  /** The i-th specifier pins the i-th URL under the package's scoped name. */
  lemma {:induction false} SpecifiersValues(urls: seq<string>, i: int)
    requires Specifiers(urls).Ok? && 0 <= i < |urls|
    ensures ParseDependencyName(urls[i]).Ok?
    ensures Specifiers(urls).value[i] == Scope + ParseDependencyName(urls[i]).value + "@" + urls[i]
    decreases |urls|
  {
    var front := urls[..|urls| - 1];
    if i < |urls| - 1 {
      SpecifiersValues(front, i);
      assert front[i] == urls[i];
    }
  }

  /** `i` is the first URL of `urls` the parser rejects. */
  predicate FirstRejected(urls: seq<string>, i: int)
  {
    && 0 <= i < |urls|
    && ParseDependencyName(urls[i]).Err?
    && forall j :: 0 <= j < i ==> ParseDependencyName(urls[j]).Ok?
  }

  /** Without specifiers, the error is the parser's error for the first URL it rejects. */
  lemma {:induction false} SpecifiersFirstError(urls: seq<string>)
    requires Specifiers(urls).Err?
    ensures exists i :: FirstRejected(urls, i) && Specifiers(urls).error == ParseDependencyName(urls[i]).error
    decreases |urls|
  {
    var n := |urls|;
    var front := urls[..n - 1];
    if Specifiers(front).Err? {
      SpecifiersFirstError(front);
      var i :| FirstRejected(front, i) && Specifiers(front).error == ParseDependencyName(front[i]).error;
      assert forall j :: 0 <= j <= i ==> front[j] == urls[j];
      assert FirstRejected(urls, i);
    } else {
      SpecifiersAccept(front);
      assert forall j :: 0 <= j < n - 1 ==> front[j] == urls[j];
      assert FirstRejected(urls, n - 1);
    }
  }

  /** Once a prefix of the URLs has no specifiers, the whole list has none, with the same
      error: the first rejected URL decides. */
  lemma {:induction false} SpecifiersKeepError(urls: seq<string>, k: int)
    requires 0 <= k <= |urls| && Specifiers(urls[..k]).Err?
    ensures Specifiers(urls) == Specifiers(urls[..k])
    decreases |urls| - k
  {
    if k < |urls| {
      var front := urls[..|urls| - 1];
      assert front[..k] == urls[..k];
      SpecifiersKeepError(front, k);
    } else {
      assert urls[..k] == urls;
    }
  }

  /** The install command exists exactly when every URL parses; it is `npm install`, then the
      specifiers, which pin each URL under its scoped package name, then `-f`; otherwise the
      error is the parser's error for the first URL it rejects. */
  lemma InstallCommandShape(urls: seq<string>)
    ensures InstallCommand(urls).Ok? <==> forall i :: 0 <= i < |urls| ==> ParseDependencyName(urls[i]).Ok?
    ensures InstallCommand(urls).Ok? ==>
              && |Specifiers(urls).value| == |urls|
              && InstallCommand(urls).value == "npm install " + Join(Specifiers(urls).value, " ") + " -f"
              && forall i :: 0 <= i < |urls| ==>
                   Specifiers(urls).value[i] == Scope + ParseDependencyName(urls[i]).value + "@" + urls[i]
    ensures InstallCommand(urls).Err? ==>
              exists i :: FirstRejected(urls, i) && InstallCommand(urls).error == ParseDependencyName(urls[i]).error
  {
    SpecifiersAccept(urls);
    if Specifiers(urls).Ok? {
      forall i | 0 <= i < |urls|
        ensures Specifiers(urls).value[i] == Scope + ParseDependencyName(urls[i]).value + "@" + urls[i]
      {
        SpecifiersValues(urls, i);
      }
    } else {
      SpecifiersFirstError(urls);
    }
  }

  /** The accumulator loop of the script: parse each URL in turn, push its specifier, and give
      up at the first URL that does not parse. */
  method BuildInstallCommand(urls: seq<string>) returns (r: Result<string, string>)
    ensures r == InstallCommand(urls)
  {
    var specs: seq<string> := [];
    var i := 0;
    while i < |urls|
      invariant 0 <= i <= |urls|
      invariant Specifiers(urls[..i]) == Ok(specs)
    {
      assert urls[..i + 1][..i] == urls[..i];
      var name := ParseDependencyName(urls[i]);
      if name.Err? {
        r := Err(name.error);
        SpecifiersKeepError(urls, i + 1);
        return;
      }
      specs := specs + [Scope + name.value + "@" + urls[i]];
      i := i + 1;
    }
    assert urls[..|urls|] == urls;
    r := Ok("npm install " + Join(specs, " ") + " -f");
  }

  /** The name of the directory that holds the working copy of repository `repoName`. */
  function RepoDirName(repoName: string): (r: string)
    ensures StartsWith(r, DirPrefix) && EndsWith(r, DirSuffix)
    ensures |r| == |DirPrefix| + |repoName| + |DirSuffix|
    ensures r[|DirPrefix|..|r| - |DirSuffix|] == repoName
  {
    DirPrefix + repoName + DirSuffix
  }

  /** Distinct repositories live in distinct directories. */
  lemma RepoDirNameInjective(a: string, b: string)
    requires RepoDirName(a) == RepoDirName(b)
    ensures a == b
  {
    var d := RepoDirName(a);
    assert a == d[|DirPrefix|..|d| - |DirSuffix|];
  }
}
