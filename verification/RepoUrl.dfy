/** Repository URLs and the cache keys built from them. */
module RepoUrl {
  import opened Wrappers
  import opened Strings

  datatype Repo = Repo(owner: string, repo: string)

  /** strings.SplitN for a one-character separator. */
  function SplitN(s: string, sep: char, n: nat): seq<string>
    requires n > 0
  {
    var i := IndexOf(s, sep);
    if n == 1 || i == |s| then [s] else [s[..i]] + SplitN(s[i + 1..], sep, n - 1)
  }

  function OwnerAndRepo(path: string): Option<Repo> {
    var parts := SplitN(TrimSuffix(path, ".git"), '/', 3);
    if |parts| < 2 then None else Some(Repo(parts[0], parts[1]))
  }

  /** ParseRepoURL; `urlPath` is the decoded path that url.Parse finds, None its error. */
  function ParseRepoURL(url: string, urlPath: string -> Option<string>): Option<Repo> {
    if "git@" <= url || "ssh://" <= url then
      var s := TrimPrefix(url, "ssh://");
      var i := IndexOf(s, ':');
      if i == |s| then None else OwnerAndRepo(s[i + 1..])
    else
      match urlPath(url)
      case None => None
      case Some(path) => OwnerAndRepo(TrimPrefix(path, "/"))
  }

  lemma JoinCons(head: string, tail: seq<string>, sep: string)
    requires tail != []
    ensures Join([head] + tail, sep) == head + sep + Join(tail, sep)
  {
    assert ([head] + tail)[1..] == tail;
  }

  lemma {:induction false} SplitParts(s: string, sep: char, n: nat)
    requires n > 0
    ensures var parts := SplitN(s, sep, n);
            1 <= |parts| <= n && Join(parts, [sep]) == s
            && (forall i :: 0 <= i < |parts| - 1 ==> sep !in parts[i]) && (|parts| < n ==> sep !in parts[|parts| - 1])
    decreases n
  {
    var i := IndexOf(s, sep);
    if n > 1 && i < |s| {
      var rest := SplitN(s[i + 1..], sep, n - 1);
      SplitParts(s[i + 1..], sep, n - 1);
      JoinCons(s[..i], rest, [sep]);
      assert SplitN(s, sep, n) == [s[..i]] + rest;
      assert s == s[..i] + [sep] + s[i + 1..];
    } else {
      assert s[..|s|] == s;
    }
  }

  /** Whatever the URL, owner and repository are free of slashes. */
  lemma ParsedPartsAreSlashFree(url: string, urlPath: string -> Option<string>)
    ensures var r := ParseRepoURL(url, urlPath); r.Some? ==> '/' !in r.value.owner && '/' !in r.value.repo
  {
    forall path ensures OwnerAndRepo(path).Some? ==> '/' !in OwnerAndRepo(path).value.owner && '/' !in OwnerAndRepo(path).value.repo {
      SplitParts(TrimSuffix(path, ".git"), '/', 3);
    }
  }

  lemma DotGit(s: string)
    ensures TrimSuffix(s + ".git", ".git") == s
  {
    var t := s + ".git";
    assert t[|t| - 4..] == ".git" && t[..|t| - 4] == s;
  }

  lemma SplitHead(head: string, tail: string, n: nat)
    requires '/' !in head && n > 1
    ensures SplitN(head + ['/'] + tail, '/', n) == [head] + SplitN(tail, '/', n - 1)
  {
    var s := head + ['/'] + tail;
    FirstIndex(head, '/', tail);
    assert s[..|head|] == head && s[|head| + 1..] == tail;
  }

  lemma OwnerAndRepoOf(owner: string, repo: string)
    requires '/' !in owner && '/' !in repo
    ensures OwnerAndRepo(owner + "/" + repo + ".git") == Some(Repo(owner, repo))
  {
    var s := owner + ['/'] + repo;
    assert owner + "/" + repo + ".git" == s + ".git";
    DotGit(s);
    SplitHead(owner, repo, 3);
    assert IndexOf(repo, '/') == |repo|;
  }

  /** An SSH URL is its text after the first colon. */
  lemma AfterColon(url: string, host: string, path: string, urlPath: string -> Option<string>)
    requires "git@" <= url || "ssh://" <= url
    requires ':' !in host && TrimPrefix(url, "ssh://") == host + [':'] + path
    ensures ParseRepoURL(url, urlPath) == OwnerAndRepo(path)
  {
    FirstIndex(host, ':', path);
    assert (host + [':'] + path)[|host| + 1..] == path;
  }

  /** The scp-like SSH form gives back the owner and repository it was built from. */
  lemma SshRoundTrip(host: string, owner: string, repo: string, urlPath: string -> Option<string>)
    requires ':' !in host && '/' !in owner && '/' !in repo
    ensures ParseRepoURL("git@" + host + ":" + owner + "/" + repo + ".git", urlPath) == Some(Repo(owner, repo))
  {
    var path := owner + "/" + repo + ".git";
    var url := "git@" + host + ":" + owner + "/" + repo + ".git";
    assert url == ("git@" + host) + [':'] + path;
    assert url[0] == 'g' && "ssh://"[0] == 's';
    AfterColon(url, "git@" + host, path, urlPath);
    OwnerAndRepoOf(owner, repo);
  }

  /** Any other URL whose decoded path is /owner/repo.git gives the same answer. */
  lemma HttpsAgreesWithSsh(url: string, owner: string, repo: string, urlPath: string -> Option<string>)
    requires !("git@" <= url) && !("ssh://" <= url) && '/' !in owner && '/' !in repo
    requires urlPath(url) == Some("/" + owner + "/" + repo + ".git")
    ensures ParseRepoURL(url, urlPath) == Some(Repo(owner, repo))
  {
    var path := "/" + owner + "/" + repo + ".git";
    assert "/" <= path && path[1..] == owner + "/" + repo + ".git";
    OwnerAndRepoOf(owner, repo);
  }

  /** The key under which an analysis is cached. */
  function CacheKey(owner: string, repo: string, branch: string): string {
    owner + "/" + repo + "@" + branch
  }

  /** Keys are equal exactly when all three parts are, for parsed owners and repository names without '@'. */
  lemma CacheKeysIdentify(owner: string, repo: string, branch: string, owner': string, repo': string, branch': string)
    requires '/' !in owner && '/' !in owner' && '@' !in repo && '@' !in repo'
    ensures CacheKey(owner, repo, branch) == CacheKey(owner', repo', branch') <==> owner == owner' && repo == repo' && branch == branch'
  {
    if CacheKey(owner, repo, branch) == CacheKey(owner', repo', branch') {
      var rest, rest' := repo + "@" + branch, repo' + "@" + branch';
      assert CacheKey(owner, repo, branch) == owner + ['/'] + rest;
      assert CacheKey(owner', repo', branch') == owner' + ['/'] + rest';
      SplitUnique(owner, rest, owner', rest', '/');
      assert rest == repo + ['@'] + branch && rest' == repo' + ['@'] + branch';
      SplitUnique(repo, branch, repo', branch', '@');
    }
  }

  lemma FirstTwoOfThree(a: string, b: string, c: string)
    requires '/' !in a && '/' !in b
    ensures OwnerAndRepo(a + "/" + b + "/" + c + ".git") == Some(Repo(a, b))
  {
    var tail := b + ['/'] + c;
    var s := a + ['/'] + tail;
    assert a + "/" + b + "/" + c + ".git" == s + ".git";
    DotGit(s);
    SplitHead(a, tail, 3);
    SplitHead(b, c, 2);
  }

  /** The part after a character that occurs, or nothing. */
  function After(s: string, c: char): string {
    if IndexOf(s, c) == |s| then "" else s[IndexOf(s, c) + 1..]
  }

  lemma NoColonNoAnswer(url: string, urlPath: string -> Option<string>)
    requires "ssh://" <= url && ':' !in url[|"ssh://"|..]
    ensures ParseRepoURL(url, urlPath) == None
  {}

  lemma SplitAt(s: string, c: char)
    requires c in s
    ensures c !in s[..IndexOf(s, c)] && s == s[..IndexOf(s, c)] + [c] + After(s, c)
  {
    var i := IndexOf(s, c);
    assert s[..|s|] == s;
    assert i < |s| && s == s[..i] + [s[i]] + s[i + 1..];
  }

  lemma AfterHasNoMore(s: string, c: char, d: char)
    requires d !in s
    ensures d !in After(s, c)
  {}

  /** An `ssh://` URL is its text after the first colon. */
  lemma ColonAt(text: string, host: string, path: string, urlPath: string -> Option<string>)
    requires ':' !in host && text == host + [':'] + path
    ensures ParseRepoURL("ssh://" + text, urlPath) == OwnerAndRepo(path)
  {
    var url := "ssh://" + text;
    assert url[|"ssh://"|..] == text;
    AfterColon(url, host, path, urlPath);
  }

  /** With a port in the authority, the URL is split at the colon before it, so the port is taken for the
      owner and the owner for the repository. */
  lemma SshPortBecomesOwner(authority: string, owner: string, repo: string, urlPath: string -> Option<string>)
    requires '/' !in authority && '/' !in owner && ':' in authority
    ensures ParseRepoURL("ssh://" + (authority + "/" + owner + "/" + repo + ".git"), urlPath) == Some(Repo(After(authority, ':'), owner))
  {
    var host, port := authority[..IndexOf(authority, ':')], After(authority, ':');
    var path := port + "/" + owner + "/" + repo + ".git";
    SplitAt(authority, ':');
    AfterHasNoMore(authority, ':', '/');
    ColonAt(authority + "/" + owner + "/" + repo + ".git", host, path, urlPath);
    FirstTwoOfThree(port, owner, repo);
  }

  lemma ColonInOwner(authority: string, owner: string, repo: string, urlPath: string -> Option<string>)
    requires '/' !in owner && '/' !in repo && ':' !in authority && ':' in owner
    ensures ParseRepoURL("ssh://" + (authority + "/" + owner + "/" + repo + ".git"), urlPath) == Some(Repo(After(owner, ':'), repo))
  {
    var host, rest := authority + "/" + owner[..IndexOf(owner, ':')], After(owner, ':');
    var path := rest + "/" + repo + ".git";
    SplitAt(owner, ':');
    AfterHasNoMore(owner, ':', '/');
    assert authority + "/" + owner + "/" + repo + ".git" == host + [':'] + path;
    ColonAt(authority + "/" + owner + "/" + repo + ".git", host, path, urlPath);
    OwnerAndRepoOf(rest, repo);
  }

  lemma ColonInRepo(authority: string, owner: string, repo: string, urlPath: string -> Option<string>)
    requires '/' !in repo && ':' !in authority && ':' !in owner && ':' in repo
    ensures ParseRepoURL("ssh://" + (authority + "/" + owner + "/" + repo + ".git"), urlPath) == None
  {
    var host, rest := authority + "/" + owner + "/" + repo[..IndexOf(repo, ':')], After(repo, ':');
    SplitAt(repo, ':');
    AfterHasNoMore(repo, ':', '/');
    assert authority + "/" + owner + "/" + repo + ".git" == host + [':'] + (rest + ".git");
    ColonAt(authority + "/" + owner + "/" + repo + ".git", host, rest + ".git", urlPath);
    DotGit(rest);
    assert IndexOf(rest, '/') == |rest|;
  }

  lemma NoPortNoAnswer(authority: string, owner: string, repo: string, urlPath: string -> Option<string>)
    requires ':' !in authority && ':' !in owner && ':' !in repo
    ensures ParseRepoURL("ssh://" + (authority + "/" + owner + "/" + repo + ".git"), urlPath) == None
  {
    var url := "ssh://" + (authority + "/" + owner + "/" + repo + ".git");
    assert url[|"ssh://"|..] == authority + "/" + owner + "/" + repo + ".git";
    NoColonNoAnswer(url, urlPath);
  }

  /** An `ssh://` URL, with or without a user and a port in its authority, gives back its owner and repository
      exactly when the authority has a colon and what follows it is the text of both; without a port, as in
      `ssh://git@github.com/org/app.git`, never. */
  lemma SshUrlExactly(authority: string, owner: string, repo: string, urlPath: string -> Option<string>)
    requires '/' !in authority && '/' !in owner && '/' !in repo
    ensures ParseRepoURL("ssh://" + (authority + "/" + owner + "/" + repo + ".git"), urlPath) == Some(Repo(owner, repo))
       <==> ':' in authority && After(authority, ':') == owner == repo
  {
    if ':' in authority {
      SshPortBecomesOwner(authority, owner, repo, urlPath);
    } else if ':' in owner {
      ColonInOwner(authority, owner, repo, urlPath);
      assert |After(owner, ':')| < |owner|;
    } else if ':' in repo {
      ColonInRepo(authority, owner, repo, urlPath);
    } else {
      NoPortNoAnswer(authority, owner, repo, urlPath);
    }
  }

  /** `ssh://git@github.com:22/org/app.git` */
  lemma SshPortExample(urlPath: string -> Option<string>)
    ensures ParseRepoURL("ssh://" + (("git@github.com" + [':'] + "22") + "/" + "org" + "/" + "app" + ".git"), urlPath) == Some(Repo("22", "org"))
  {
    var authority := "git@github.com" + [':'] + "22";
    assert ':' in authority && '/' !in authority;
    FirstIndex("git@github.com", ':', "22");
    assert After(authority, ':') == "22";
    SshPortBecomesOwner(authority, "org", "app", urlPath);
  }

  /** `ssh://git@github.com/org/app.git` */
  lemma SshNoPortExample(urlPath: string -> Option<string>)
    ensures ParseRepoURL("ssh://" + ("git@github.com" + "/" + "org" + "/" + "app" + ".git"), urlPath) == None
  {
    NoPortNoAnswer("git@github.com", "org", "app", urlPath);
  }

  function WithoutGit(path: string): string {
    if |path| >= 4 && path[|path| - 4..] == ".git" then path[..|path| - 4] else path
  }

  lemma TwoParts(head: string, repo: string)
    requires '/' !in head && '/' !in repo
    ensures SplitN(head + ['/'] + repo, '/', 3) == [head, repo]
  {
    SplitHead(head, repo, 3);
    assert IndexOf(repo, '/') == |repo|;
  }

  /** What a path says, for every path: it is split at its slashes after a `.git` at its end, if any, is taken
      off; the first two parts are owner and repository, and a path without a slash has none. */
  lemma OwnerAndRepoExactly(path: string, owner: string, repo: string)
    requires '/' !in owner && '/' !in repo
    ensures var p := WithoutGit(path);
            OwnerAndRepo(path) == Some(Repo(owner, repo)) <==> p == owner + "/" + repo || owner + "/" + repo + "/" <= p
    ensures OwnerAndRepo(path) == None <==> '/' !in WithoutGit(path)
  {
    var p := WithoutGit(path);
    assert TrimSuffix(path, ".git") == p;
    if p == owner + "/" + repo {
      assert p == owner + ['/'] + repo;
      TwoParts(owner, repo);
    } else if owner + "/" + repo + "/" <= p {
      var rest := p[|owner + "/" + repo + "/"|..];
      var tail := repo + ['/'] + rest;
      assert p == owner + ['/'] + tail;
      SplitHead(owner, tail, 3);
      SplitHead(repo, rest, 2);
    }
    SplitParts(p, '/', 3);
    var parts := SplitN(p, '/', 3);
    if |parts| == 2 { JoinTwo(parts); } else if |parts| == 3 { JoinThree(parts, p); }
  }

  lemma JoinTwo(parts: seq<string>)
    requires |parts| == 2
    ensures Join(parts, "/") == parts[0] + "/" + parts[1]
  {
    assert parts[1..][0] == parts[1];
  }

  lemma HeadOf(a: string, b: string, c: string)
    ensures a + "/" + b + "/" <= a + "/" + (b + "/" + c) && '/' in a + "/" + (b + "/" + c)
  {
    var p := a + "/" + (b + "/" + c);
    assert p == a + "/" + b + "/" + c;
    assert p[|a|] == '/';
  }

  lemma JoinThree(parts: seq<string>, p: string)
    requires |parts| == 3 && Join(parts, "/") == p
    ensures parts[0] + "/" + parts[1] + "/" <= p && '/' in p
  {
    var rest := parts[1..];
    assert p == parts[0] + "/" + Join(rest, "/");
    JoinTwo(rest);
    HeadOf(parts[0], rest[0], rest[1]);
  }

  /** A suffix without slashes reaches no further than the last segment. */
  lemma SuffixOfLast(head: string, last: string, suffix: string)
    requires '/' !in suffix
    ensures HasSuffix(head + "/" + last, suffix) ==> HasSuffix(last, suffix)
  {
    var s := head + "/" + last;
    if |last| < |suffix| <= |s| {
      assert s[|s| - |suffix|..][|suffix| - |last| - 1] == s[|head|];
    } else if |suffix| <= |last| {
      assert s[|s| - |suffix|..] == last[|last| - |suffix|..];
    }
  }

  lemma PlainPath(owner: string, repo: string)
    requires '/' !in owner && '/' !in repo && !HasSuffix(repo, ".git")
    ensures OwnerAndRepo(owner + "/" + repo) == Some(Repo(owner, repo))
  {
    var path := owner + "/" + repo;
    SuffixOfLast(owner, repo, ".git");
    OwnerAndRepoExactly(path, owner, repo);
  }

  /** Without `.git` at the end, too, the scp-like SSH form gives owner and repository back, */
  lemma PlainSshUrl(host: string, owner: string, repo: string, urlPath: string -> Option<string>)
    requires ':' !in host && '/' !in owner && '/' !in repo && !HasSuffix(repo, ".git")
    ensures ParseRepoURL("git@" + host + ":" + owner + "/" + repo, urlPath) == Some(Repo(owner, repo))
  {
    var path := owner + "/" + repo;
    var url := "git@" + host + ":" + owner + "/" + repo;
    assert url == ("git@" + host) + [':'] + path;
    assert url[0] == 'g' && "ssh://"[0] == 's';
    AfterColon(url, "git@" + host, path, urlPath);
    PlainPath(owner, repo);
  }

  /** and so does any other URL with that path, whatever further segments follow it. */
  lemma PlainHttpsUrl(url: string, owner: string, repo: string, more: string, urlPath: string -> Option<string>)
    requires !("git@" <= url) && !("ssh://" <= url) && '/' !in owner && '/' !in repo
    requires || (urlPath(url) == Some("/" + (owner + "/" + repo)) && !HasSuffix(repo, ".git"))
             || (urlPath(url) == Some("/" + (owner + "/" + repo + "/" + more)) && !HasSuffix(more, ".git"))
    ensures ParseRepoURL(url, urlPath) == Some(Repo(owner, repo))
  {
    var path := urlPath(url).value[1..];
    assert TrimPrefix(urlPath(url).value, "/") == path;
    if path == owner + "/" + repo && !HasSuffix(repo, ".git") {
      PlainPath(owner, repo);
    } else {
      LongPath(owner, repo, more);
    }
  }

  lemma LongPath(owner: string, repo: string, more: string)
    requires '/' !in owner && '/' !in repo && !HasSuffix(more, ".git")
    ensures OwnerAndRepo(owner + "/" + repo + "/" + more) == Some(Repo(owner, repo))
  {
    var path := owner + "/" + repo + "/" + more;
    SuffixOfLast(owner + "/" + repo, more, ".git");
    OwnerAndRepoExactly(path, owner, repo);
  }
}
