/**
 * main.py `_parse_repo_ssh_url`: splits a repository SSH address of the
 * form `git@host:owner/repo.git` or `ssh://[user@]host/owner/repo` into
 * (user, host, owner, repo). For the `ssh://` form the split done by
 * `urllib.parse.urlparse` is an input, `UrlParts`.
 */
module SshUrl {
  import opened Wrappers
  import opened Text

  /** `urlparse(url)`: hostname, username and path, "" where urlparse gives None. */
  datatype UrlParts = UrlParts(hostname: string, username: string, path: string)

  datatype Remote = Remote(user: string, host: string, owner: string, repo: string)

  datatype UrlError =
    | EmptyUrl          // "地址不能为空"
    | BadScpForm        // git@… without ':'
    | SshMissingParts   // ssh:// without host or path
    | UnsupportedForm   // neither git@ nor ssh://
    | NoOwnerRepo       // path without '/'
    | NoHost            // empty host

  function IsSlash(c: char): bool { c == '/' }

  /** The `git@` branch: user and host before the first ':', path after it. */
  function SplitScp(url: string): (r: Option<(string, string, string)>)
    ensures ':' !in url ==> r.None?
    ensures r.Some? ==>
      && url == r.value.0 + "@" + r.value.1 + ":" + r.value.2
      && '@' !in r.value.0 && ':' !in r.value.0 && ':' !in r.value.1
    ensures r.None? && ':' in url ==> '@' !in url[..IndexOf(url, ':').value]
  {
    match IndexOf(url, ':')
    case None => None
    case Some(i) =>
      var userHost, path := url[..i], url[i + 1..];
      match IndexOf(userHost, '@')
      case None => None
      case Some(j) => Some((userHost[..j], userHost[j + 1..], path))
  }

  /** The path after `strip("/")` and removal of one trailing ".git". */
  function RepoPath(path: string): (p: string)
    ensures |p| <= |path|
    ensures p != [] ==> p[0] != '/'
    ensures var s := Trim(path, IsSlash);
      (EndsWith(s, ".git") ==> p + ".git" == s) && (!EndsWith(s, ".git") ==> p == s)
  {
    var stripped := Trim(path, IsSlash);
    assert stripped != [] ==> stripped[0] == TrimStart(path, IsSlash)[0];
    if EndsWith(stripped, ".git") then
      DropSuffix(stripped, ".git");
      stripped[..|stripped| - 4]
    else stripped
  }

  lemma DropSuffix(s: string, suffix: string)
    requires EndsWith(s, suffix)
    ensures s[..|s| - |suffix|] + suffix == s
  {
    assert s == s[..|s| - |suffix|] + s[|s| - |suffix|..];
  }

  /** An address that starts with `git@` and splits at its first '@' has the user "git". */
  lemma ScpUserIsGit(url: string, user: string, host: string, path: string)
    requires StartsWith(url, "git@") && url == user + "@" + host + ":" + path && '@' !in user
    ensures user == "git"
  {
    assert url[..4] == "git@";
    assert url[0] == 'g' && url[1] == 'i' && url[2] == 't' && url[3] == '@';
    assert url[|user|] == '@';
    assert forall i :: 0 <= i < |user| ==> user[i] == url[i];
    assert user == url[..3];
  }

  /** The scheme-dependent first half: (user, host, path) or the error for the form. */
  function SplitAddress(url: string, parts: UrlParts): (r: Result<(string, string, string), UrlError>)
    ensures !StartsWith(url, "git@") && !StartsWith(url, "ssh://") ==> r == Failure(UnsupportedForm)
    ensures StartsWith(url, "git@") && ':' !in url ==> r == Failure(BadScpForm)
    ensures StartsWith(url, "git@") ==> (r.Success? <==> SplitScp(url).Some?)
    ensures StartsWith(url, "git@") && r.Success? ==> r.value == SplitScp(url).value && r.value.0 == "git"
    ensures StartsWith(url, "ssh://") ==>
      && (r.Failure? <==> parts.hostname == [] || parts.path == [])
      && (r.Success? ==> r.value == (if parts.username == [] then "git" else parts.username,
                                     parts.hostname, TrimStart(parts.path, IsSlash)))
  {
    if StartsWith(url, "git@") then
      match SplitScp(url)
      case None => Failure(BadScpForm)
      case Some(uhp) =>
        ScpUserIsGit(url, uhp.0, uhp.1, uhp.2);
        Success(uhp)
    else if StartsWith(url, "ssh://") then
      if parts.hostname == [] || parts.path == [] then Failure(SshMissingParts)
      else Success((if parts.username == [] then "git" else parts.username,
                    parts.hostname, TrimStart(parts.path, IsSlash)))
    else Failure(UnsupportedForm)
  }

  /** The common second half: owner and repo from the path, then the host check. */
  function FinishRemote(user: string, host: string, rawPath: string): (r: Result<Remote, UrlError>)
    ensures r.Success? ==> r.value.host != [] && r.value.user != []
    ensures r.Success? ==> r.value.owner != [] && '/' !in r.value.owner
    ensures r.Success? ==> RepoPath(rawPath) == r.value.owner + "/" + r.value.repo
    ensures r.Success? ==> r.value.host == host && r.value.user == (if user == [] then "git" else user)
    ensures '/' !in RepoPath(rawPath) ==> r == Failure(NoOwnerRepo)
    ensures '/' in RepoPath(rawPath) ==> (r.Success? <==> host != []) && (host == [] ==> r == Failure(NoHost))
  {
    var path := RepoPath(rawPath);
    match IndexOf(path, '/')
    case None => Failure(NoOwnerRepo)
    case Some(k) =>
      if host == [] then Failure(NoHost)
      else
        SplitAtSlash(path, k);
        Success(Remote(if user == [] then "git" else user, host, path[..k], path[k + 1..]))
  }

  lemma SplitAtSlash(path: string, k: nat)
    requires k < |path| && path[k] == '/'
    ensures path == path[..k] + "/" + path[k + 1..]
  {
  }

  /** `_parse_repo_ssh_url` after the empty check, on the stripped address. */
  function ParseStripped(url: string, parts: UrlParts): (r: Result<Remote, UrlError>)
    ensures !StartsWith(url, "git@") && !StartsWith(url, "ssh://") ==> r == Failure(UnsupportedForm)
    ensures StartsWith(url, "git@") && ':' !in url ==> r == Failure(BadScpForm)
    ensures r.Success? ==> r.value.host != [] && r.value.user != []
    ensures r.Success? ==> r.value.owner != [] && '/' !in r.value.owner
  {
    match SplitAddress(url, parts)
    case Failure(e) => Failure(e)
    case Success((user, host, rawPath)) => FinishRemote(user, host, rawPath)
  }

  /** `_parse_repo_ssh_url`. */
  function ParseRepoSshUrl(sshUrl: string, parts: UrlParts): (r: Result<Remote, UrlError>)
    ensures sshUrl == [] ==> r == Failure(EmptyUrl)
    ensures var url := Trim(sshUrl, IsSpace);
      sshUrl != [] && !StartsWith(url, "git@") && !StartsWith(url, "ssh://") ==> r == Failure(UnsupportedForm)
    ensures var url := Trim(sshUrl, IsSpace);
      sshUrl != [] && StartsWith(url, "git@") && ':' !in url ==> r == Failure(BadScpForm)
    ensures r.Success? ==> r.value.host != [] && r.value.user != []
    ensures r.Success? ==> r.value.owner != [] && '/' !in r.value.owner
  {
    if sshUrl == [] then Failure(EmptyUrl) else ParseStripped(Trim(sshUrl, IsSpace), parts)
  }

  /**
   * A `git@` address that splits: it is rejected without an owner/repo
   * path, then without a host; otherwise it gives user "git", the host
   * before the ':' and the owner and repo of the stripped path.
   */
  lemma ParseScpForm(sshUrl: string, parts: UrlParts, host: string, rawPath: string)
    requires sshUrl != [] && StartsWith(Trim(sshUrl, IsSpace), "git@")
    requires SplitScp(Trim(sshUrl, IsSpace)) == Some(("git", host, rawPath))
    ensures var r := ParseRepoSshUrl(sshUrl, parts);
      && ('/' !in RepoPath(rawPath) ==> r == Failure(NoOwnerRepo))
      && (r.Success? <==> host != [] && '/' in RepoPath(rawPath))
      && (r.Success? ==> r.value.user == "git" && r.value.host == host
                         && r.value.owner + "/" + r.value.repo == RepoPath(rawPath))
  {
  }

  /**
   * An `ssh://` address: rejected without host or path; otherwise rejected
   * exactly when its stripped path has no '/', and on success the user is
   * the URL's or "git", the host is the URL's, and owner + "/" + repo is
   * the stripped path.
   */
  lemma ParseSshForm(sshUrl: string, parts: UrlParts)
    requires sshUrl != [] && StartsWith(Trim(sshUrl, IsSpace), "ssh://")
    ensures var r := ParseRepoSshUrl(sshUrl, parts);
      && (parts.hostname == [] || parts.path == [] ==> r == Failure(SshMissingParts))
      && (parts.hostname != [] && parts.path != [] ==>
            var path := RepoPath(TrimStart(parts.path, IsSlash));
            && ('/' !in path ==> r == Failure(NoOwnerRepo))
            && (r.Success? <==> '/' in path)
            && (r.Success? ==> r.value.user == (if parts.username == [] then "git" else parts.username)
                               && r.value.host == parts.hostname
                               && r.value.owner + "/" + r.value.repo == path))
  {
  }

  /** The scp-like address git itself prints for a repository. */
  function ScpAddress(host: string, owner: string, repo: string): string {
    "git@" + host + ":" + owner + "/" + repo + ".git"
  }

  /**
   * Round trip: an address built from a host without ':' and a non-empty
   * owner without '/' parses back into its parts, with the default user.
   */
  lemma {:induction false} ScpAddressRoundTrip(host: string, owner: string, repo: string, parts: UrlParts)
    requires host != [] && ':' !in host
    requires owner != [] && '/' !in owner
    ensures ParseRepoSshUrl(ScpAddress(host, owner, repo), parts) == Success(Remote("git", host, owner, repo))
  {
    ScpAddressTrimmed(host, owner, repo);
    ScpAddressSplits(host, owner, repo, parts);
    FinishScpPath(host, owner, repo);
  }

  lemma FinishScpPath(host: string, owner: string, repo: string)
    requires host != [] && owner != [] && '/' !in owner
    ensures FinishRemote("git", host, owner + "/" + repo + ".git") == Success(Remote("git", host, owner, repo))
  {
    RepoPathOfScp(owner, repo);
    var path := owner + "/" + repo;
    assert path[..|owner|] == owner;
    assert path[|owner|] == '/';
    assert IndexOf(path, '/') == Some(|owner|);
    assert path[|owner| + 1..] == repo;
  }

  lemma ScpAddressTrimmed(host: string, owner: string, repo: string)
    ensures Trim(ScpAddress(host, owner, repo), IsSpace) == ScpAddress(host, owner, repo)
  {
    var url := ScpAddress(host, owner, repo);
    assert url[0] == 'g' && url[|url| - 1] == 't';
    assert TrimStart(url, IsSpace) == url;
  }

  lemma ScpAddressSplits(host: string, owner: string, repo: string, parts: UrlParts)
    requires ':' !in host
    ensures SplitAddress(ScpAddress(host, owner, repo), parts) == Success(("git", host, owner + "/" + repo + ".git"))
  {
    var url := ScpAddress(host, owner, repo);
    assert StartsWith(url, "git@");
    var colon := 4 + |host|;
    assert url[colon] == ':';
    assert url[..colon] == "git@" + host;
    assert IndexOf(url, ':') == Some(colon);
    var userHost := url[..colon];
    assert userHost[3] == '@' && userHost[..3] == "git";
    assert IndexOf(userHost, '@') == Some(3);
    assert userHost[..3] == "git" && userHost[4..] == host;
    assert url[colon + 1..] == owner + "/" + repo + ".git";
  }

  lemma RepoPathOfScp(owner: string, repo: string)
    requires owner != [] && '/' !in owner
    ensures RepoPath(owner + "/" + repo + ".git") == owner + "/" + repo
  {
    var rawPath := owner + "/" + repo + ".git";
    assert rawPath[0] == owner[0];
    assert !IsSlash(rawPath[0]) by { assert owner[0] in owner; }
    assert TrimStart(rawPath, IsSlash) == rawPath;
    assert rawPath[|rawPath| - 1] == 't';
    assert TrimEnd(rawPath, IsSlash) == rawPath;
    assert EndsWith(rawPath, ".git");
    assert rawPath[..|rawPath| - 4] == owner + "/" + repo;
  }
}
