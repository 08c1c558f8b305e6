/**
 * `categorizeAllLinks`: an ordered chain of string rules that turns one URL
 * found in a resume into a typed, categorised link, or rejects it.
 *
 * Every rule is a substring test on the whole trimmed URL (JavaScript
 * `includes`), tried top to bottom; the first one that holds decides.
 * `new URL` is not modelled: the classifier receives the parser as a
 * parameter that yields the pathname, search and hash, or fails.
 */
module LinkClassifier {
  import opened Wrappers
  import opened Text

  datatype Category = Social | Project | Portfolio

  /** The extractor's `ProjectLink`: `{type, url, category}`. */
  datatype ClassifiedLink = ClassifiedLink(linkType: string, url: string, category: Category)

  /** The parts of a parsed URL that the classifier reads. */
  datatype UrlParts = UrlParts(pathname: string, search: string, hash: string)

  /** `new URL(s)`: `None` when the constructor throws. */
  type UrlParser = string -> Option<UrlParts>

  // ---------------------------------------------------------------------------
  // Rejection rules

  /** The eight spellings `^https?://(?:prefix)?host/?$` accepts. */
  function BareForms(prefix: string, host: string): set<string> {
    {"http://" + host, "http://" + host + "/", "http://" + prefix + host, "http://" + prefix + host + "/",
     "https://" + host, "https://" + host + "/", "https://" + prefix + host, "https://" + prefix + host + "/"}
  }

  /** The denylist of bare platform domains: (optional sub-domain, domain). */
  const BareDomains: seq<(string, string)> := [
    ("www.", "github.com"), ("www.", "linkedin.com"), ("www.", "codeforces.com"),
    ("www.", "beecrowd.com.br"), ("judge.", "beecrowd.com"), ("www.", "leetcode.com"),
    ("www.", "twitter.com"), ("www.", "instagram.com"), ("www.", "facebook.com")]

  /** Some denylist pattern matches the whole of `u`. */
  predicate IsBareDomain(u: string) {
    exists i :: 0 <= i < |BareDomains| && u in BareForms(BareDomains[i].0, BareDomains[i].1)
  }

  /** The parsed URL is a domain alone: path `/`, no query, no fragment. */
  predicate IsDomainOnly(p: UrlParts) {
    p.pathname == "/" && p.search == "" && p.hash == ""
  }

  /** A trimmed URL that survives the denylist, parses, and has more than a domain. */
  predicate Admitted(parse: UrlParser, u: string) {
    !IsBareDomain(u) && parse(u).Some? && !IsDomainOnly(parse(u).value)
  }

  // ---------------------------------------------------------------------------
  // The rule chain

  /** The category each link type belongs to; the chain never pairs them otherwise. */
  function CategoryOf(linkType: string): Category {
    if linkType == "repository" || linkType == "demo" then Project
    else if linkType == "portfolio" || linkType == "website" then Portfolio
    else Social
  }

  /** `/^https?:\/\//` in the generic rule. */
  predicate IsHttp(u: string) {
    StartsWith(u, "http://") || StartsWith(u, "https://")
  }

  /** `(.+?)/` then a non-empty segment: the tail `t` after `host/` has owner/repo shape. */
  predicate TwoSegments(t: string) {
    exists j :: 0 < j < |t| - 1 && t[j] == '/' && t[j + 1] != '/' && NoSlash(t[..j])
  }

  predicate NoSlash(t: string) {
    forall k :: 0 <= k < |t| ==> t[k] != '/'
  }

  /** The regex `host\/([^\/]+)\/([^\/]+)` matches starting at index `i`. */
  predicate OwnerRepoAt(s: string, host: string, i: nat)
    requires i <= |s|
  {
    StartsWith(s[i..], host + "/") && TwoSegments(s[i + |host| + 1..])
  }

  /** The regex `host\/([^\/]+)\/([^\/]+)` matches somewhere in `s`. */
  predicate HasOwnerAndRepo(s: string, host: string) {
    exists i :: 0 <= i <= |s| && OwnerRepoAt(s, host, i)
  }

  /** A link made of `u`, if any, carries `u` itself and the category of its type. */
  predicate WellMade(r: Option<ClassifiedLink>, u: string) {
    r.Some? ==> r.value.url == u && r.value.category == CategoryOf(r.value.linkType)
  }

  /** The link of type `linkType` for `u`, in that type's category. */
  function TypedLink(linkType: string, u: string): Option<ClassifiedLink> {
    Some(ClassifiedLink(linkType, u, CategoryOf(linkType)))
  }

  /** Social networks and developer platforms (source lines 378-425). */
  function PlatformRule(u: string): (r: Option<ClassifiedLink>)
    ensures r.Some? ==> r.value.category == Social
    ensures WellMade(r, u)
  {
    if Contains(u, "linkedin.com") then TypedLink("linkedin", u)
    else if Contains(u, "twitter.com") || Contains(u, "x.com") then TypedLink("twitter", u)
    else if Contains(u, "instagram.com") then TypedLink("instagram", u)
    else if Contains(u, "facebook.com") then TypedLink("facebook", u)
    else if Contains(u, "youtube.com") || Contains(u, "youtu.be") then TypedLink("youtube", u)
    else if Contains(u, "stackoverflow.com") then TypedLink("stackoverflow", u)
    else if Contains(u, "medium.com") then TypedLink("medium", u)
    else if Contains(u, "dev.to") then TypedLink("dev", u)
    else if Contains(u, "codeforces.com") then TypedLink("codeforces", u)
    else if Contains(u, "beecrowd.com.br") || Contains(u, "judge.beecrowd.com") then TypedLink("beecrowd", u)
    else if Contains(u, "leetcode.com") then TypedLink("leetcode", u)
    else if Contains(u, "codepen.io") then TypedLink("codepen", u)
    else None
  }

  /** One code host: a repository when owner/repo follows `host/`, the host's profile type otherwise. */
  function CodeHostLink(u: string, host: string, profileType: string): Option<ClassifiedLink> {
    if HasOwnerAndRepo(u, host) then TypedLink("repository", u) else TypedLink(profileType, u)
  }

  /** GitHub, GitLab, Bitbucket, in that order. */
  function CodeHostRule(u: string): (r: Option<ClassifiedLink>)
    ensures r.Some? ==> r.value.linkType in {"repository", "github", "gitlab", "bitbucket"}
    ensures WellMade(r, u)
  {
    if Contains(u, "github.com") then CodeHostLink(u, "github.com", "github")
    else if Contains(u, "gitlab.com") then CodeHostLink(u, "gitlab.com", "gitlab")
    else if Contains(u, "bitbucket.org") then CodeHostLink(u, "bitbucket.org", "bitbucket")
    else None
  }

  /** Zero-configuration deploy hosts. */
  function HostingRule(u: string): (r: Option<ClassifiedLink>)
    ensures r.Some? ==> r.value.linkType == "demo"
    ensures WellMade(r, u)
  {
    if Contains(u, "vercel.app") || Contains(u, "netlify.app") || Contains(u, "github.io")
      || Contains(u, "herokuapp.com") || Contains(u, "railway.app") || Contains(u, "render.com")
      || Contains(u, "surge.sh") || Contains(u, "firebase.app") || Contains(u, "web.app")
      || Contains(u, "fly.dev") || Contains(u, "cyclic.app") || Contains(u, "deta.dev")
      || Contains(u, "koyeb.app")
    then TypedLink("demo", u)
    else None
  }

  /** Personal-site domain endings (`.io` only when not `github.io`). */
  function DomainRule(u: string): (r: Option<ClassifiedLink>)
    ensures r.Some? ==> r.value.linkType == "portfolio"
    ensures WellMade(r, u)
  {
    if Contains(u, ".dev") || Contains(u, ".tech") || Contains(u, ".me")
      || (Contains(u, ".io") && !Contains(u, "github.io"))
    then TypedLink("portfolio", u)
    else None
  }

  /** Keyword heuristic on the lower-cased URL, for any other http(s) URL. */
  function KeywordRule(u: string): (r: Option<ClassifiedLink>)
    ensures r.Some? <==> IsHttp(u)
    ensures r.Some? ==> r.value.linkType in {"demo", "portfolio", "website"}
    ensures WellMade(r, u)
  {
    if IsHttp(u) then
      var lower := ToLower(u);
      if Contains(lower, "demo") || Contains(lower, "app") || Contains(lower, "project") || Contains(lower, "live")
      then TypedLink("demo", u)
      else if Contains(lower, "portfolio") || Contains(lower, "resume") || Contains(lower, "cv")
        || Contains(lower, "about")
      then TypedLink("portfolio", u)
      else TypedLink("website", u)
    else None
  }

  /** The rule chain on an admitted URL: the first rule that yields a link decides. */
  function Rules(u: string): (r: Option<ClassifiedLink>)
    ensures WellMade(r, u)
  {
    var platform := PlatformRule(u);
    if platform.Some? then platform else
    var codeHost := CodeHostRule(u);
    if codeHost.Some? then codeHost else
    var hosting := HostingRule(u);
    if hosting.Some? then hosting else
    var domain := DomainRule(u);
    if domain.Some? then domain else
    KeywordRule(u)
  }

  /** `categorizeAllLinks(url)`. */
  function Categorize(parse: UrlParser, url: string): (r: Option<ClassifiedLink>)
    ensures r.Some? ==> url != "" && Admitted(parse, Trim(url)) && r == Rules(Trim(url))
    ensures url != "" && Admitted(parse, Trim(url)) ==> r == Rules(Trim(url))
    ensures r.Some? ==> r.value.url == Trim(url) && r.value.category == CategoryOf(r.value.linkType)
  {
    if url == "" then None
    else
      var u := Trim(url);
      if IsBareDomain(u) then None
      else match parse(u)
        case None => None
        case Some(p) => if IsDomainOnly(p) then None else Rules(u)
  }

  /**
   * What the extraction strategies rely on from `categorizeAllLinks`: the
   * empty string is rejected, and a link carries the trimmed input as its URL
   * and the category of its type.
   */
  ghost predicate Sound(f: string -> Option<ClassifiedLink>) {
    && f("").None?
    && forall u :: FitsAt(f, u)
  }

  /** The link `f` makes of `u`, if any, carries `u` trimmed and the category of its type. */
  ghost predicate FitsAt(f: string -> Option<ClassifiedLink>, u: string) {
    f(u).Some? ==> f(u).value.url == Trim(u) && f(u).value.category == CategoryOf(f(u).value.linkType)
  }

  /** A classifier with those guarantees; `Classify(parse)` is `categorizeAllLinks` itself. */
  type Classifier = f: string -> Option<ClassifiedLink> | Sound(f) witness (u: string) => None

  /** `categorizeAllLinks` with the URL parser fixed, as one value the strategies call. */
  function Classify(parse: UrlParser): (r: Classifier)
    ensures forall u :: r(u) == Categorize(parse, u)
  {
    u => Categorize(parse, u)
  }
}

module LinkClassifierProperties {
  import opened Wrappers
  import opened Text
  import opened LinkClassifier

  /** The substrings the social and developer-platform rules look for. */
  const PlatformNeedles: set<string> := {
    "linkedin.com", "twitter.com", "x.com", "instagram.com", "facebook.com", "youtube.com", "youtu.be",
    "stackoverflow.com", "medium.com", "dev.to", "codeforces.com", "beecrowd.com.br",
    "judge.beecrowd.com", "leetcode.com", "codepen.io"}

  const CodeHostNeedles: set<string> := {"github.com", "gitlab.com", "bitbucket.org"}

  const HostingNeedles: set<string> := {
    "vercel.app", "netlify.app", "github.io", "herokuapp.com", "railway.app", "render.com",
    "surge.sh", "firebase.app", "web.app", "fly.dev", "cyclic.app", "deta.dev", "koyeb.app"}

  const DomainNeedles: set<string> := {".dev", ".tech", ".me", ".io"}

  predicate ContainsNone(u: string, needles: set<string>) {
    forall n :: n in needles ==> !Contains(u, n)
  }

  lemma PlatformRuleFires(u: string)
    ensures PlatformRule(u).None? <==> ContainsNone(u, PlatformNeedles)
  {
  }

  lemma CodeHostRuleFires(u: string)
    ensures CodeHostRule(u).None? <==> ContainsNone(u, CodeHostNeedles)
  {
  }

  lemma HostingRuleFires(u: string)
    ensures HostingRule(u).None? <==> ContainsNone(u, HostingNeedles)
  {
  }

  lemma DomainRuleFires(u: string)
    requires ContainsNone(u, HostingNeedles)
    ensures DomainRule(u).None? <==> ContainsNone(u, DomainNeedles)
  {
  }

  /**
   * The chain rejects an admitted URL exactly when it is not http(s) and
   * contains none of the substrings the platform, code-host, hosting and
   * domain rules look for.
   */
  lemma {:induction false} RulesAcceptExactly(u: string)
    ensures Rules(u).None? <==>
      !IsHttp(u) && ContainsNone(u, PlatformNeedles + CodeHostNeedles + HostingNeedles + DomainNeedles)
  {
    PlatformRuleFires(u);
    CodeHostRuleFires(u);
    HostingRuleFires(u);
    if ContainsNone(u, HostingNeedles) {
      DomainRuleFires(u);
    }
  }

  /** `linkedin.com` anywhere wins over every later rule. */
  lemma LinkedInFirst(u: string)
    requires Contains(u, "linkedin.com")
    ensures Rules(u) == Some(ClassifiedLink("linkedin", u, Social))
  {
  }

  /** `x.com` anywhere (as in `dropbox.com`) makes a twitter link unless `linkedin.com` occurs. */
  lemma XComIsTwitter(u: string)
    requires Contains(u, "x.com") && !Contains(u, "linkedin.com")
    ensures Rules(u) == Some(ClassifiedLink("twitter", u, Social))
  {
  }

  /** A repository link always comes from a code host whose owner/repo pattern matched. */
  lemma RepositoryOnlyFromCodeHosts(u: string)
    requires Rules(u).Some? && Rules(u).value.linkType == "repository"
    ensures ContainsNone(u, PlatformNeedles)
    ensures HasOwnerAndRepo(u, "github.com")
      || (!Contains(u, "github.com") && HasOwnerAndRepo(u, "gitlab.com"))
      || (!Contains(u, "github.com") && !Contains(u, "gitlab.com") && HasOwnerAndRepo(u, "bitbucket.org"))
  {
    PlatformRuleFires(u);
    assert CodeHostRule(u) == Rules(u);
  }

  /** The code hosts in the order the chain tries them, each with the link type of a profile there. */
  const CodeHosts: seq<(string, string)> := [("github.com", "github"), ("gitlab.com", "gitlab"), ("bitbucket.org", "bitbucket")]

  /**
   * The depth rule of every code host: once no platform matched and the host
   * is the first one the URL mentions, the link is a repository exactly when
   * `host/owner/repo` occurs, and otherwise the host's profile.
   */
  lemma {:induction false} CodeHostDepth(u: string, k: nat)
    requires k < |CodeHosts| && ContainsNone(u, PlatformNeedles)
    requires Contains(u, CodeHosts[k].0) && forall j :: 0 <= j < k ==> !Contains(u, CodeHosts[j].0)
    ensures HasOwnerAndRepo(u, CodeHosts[k].0) ==> Rules(u) == Some(ClassifiedLink("repository", u, Project))
    ensures !HasOwnerAndRepo(u, CodeHosts[k].0) ==> Rules(u) == Some(ClassifiedLink(CodeHosts[k].1, u, Social))
  {
    PlatformRuleFires(u);
    if k == 0 {
      assert CodeHostRule(u) == CodeHostLink(u, "github.com", "github");
    } else if k == 1 {
      assert !Contains(u, CodeHosts[0].0);
      assert CodeHostRule(u) == CodeHostLink(u, "gitlab.com", "gitlab");
    } else {
      assert !Contains(u, CodeHosts[0].0) && !Contains(u, CodeHosts[1].0);
      assert CodeHostRule(u) == CodeHostLink(u, "bitbucket.org", "bitbucket");
    }
  }

  /** A `host/owner/repo` match needs `host/` in the URL followed by at least three more characters. */
  lemma {:induction false} OwnerRepoNeedsHost(u: string, host: string)
    requires HasOwnerAndRepo(u, host)
    ensures Contains(u, host + "/") && |u| >= |host| + 4
  {
    var i :| 0 <= i <= |u| && OwnerRepoAt(u, host, i);
    var t := u[i + |host| + 1..];
    var j :| 0 < j < |t| - 1 && t[j] == '/' && t[j + 1] != '/' && NoSlash(t[..j]);
    assert u[i..][..|host + "/"|] == host + "/";
    assert u[i..i + |host + "/"|] == host + "/";
    ContainsAt(u, host + "/", i);
  }

  /** `https://github.com/owner/repo...` is a repository. */
  lemma {:induction false} GithubRepositoryIsProject(owner: string, repo: string)
    requires owner != [] && NoSlash(owner) && repo != [] && repo[0] != '/'
    requires ContainsNone("https://github.com/" + owner + "/" + repo, PlatformNeedles)
    ensures var u := "https://github.com/" + owner + "/" + repo;
      Rules(u) == Some(ClassifiedLink("repository", u, Project))
  {
    var u := "https://github.com/" + owner + "/" + repo;
    PlatformRuleFires(u);
    GithubOwnerRepoMatches(owner, repo);
    assert CodeHostRule(u) == TypedLink("repository", u);
  }

  /** The string facts behind `GithubRepositoryIsProject`: the host occurs, followed by owner/repo. */
  lemma {:induction false} GithubOwnerRepoMatches(owner: string, repo: string)
    requires owner != [] && NoSlash(owner) && repo != [] && repo[0] != '/'
    ensures var u := "https://github.com/" + owner + "/" + repo;
      Contains(u, "github.com") && HasOwnerAndRepo(u, "github.com")
  {
    var u := "https://github.com/" + owner + "/" + repo;
    assert u[8..18] == "github.com";
    ContainsAt(u, "github.com", 8);
    var t := u[19..];
    assert t == owner + "/" + repo;
    assert t[|owner|] == '/' && t[|owner| + 1] == repo[0];
    assert t[..|owner|] == owner;
    assert TwoSegments(t);
    assert u[8..][..11] == "github.com/";
    assert OwnerRepoAt(u, "github.com", 8);
  }

  /** `https://github.com/owner` (optionally with a trailing `/`) is a profile. */
  lemma {:induction false} GithubProfileIsSocial(owner: string, slash: string)
    requires owner != [] && NoSlash(owner) && (slash == "" || slash == "/")
    requires ContainsNone("https://github.com/" + owner + slash, PlatformNeedles)
    ensures var u := "https://github.com/" + owner + slash;
      Rules(u) == Some(ClassifiedLink("github", u, Social))
  {
    var u := "https://github.com/" + owner + slash;
    PlatformRuleFires(u);
    GithubProfileMatches(owner, slash);
    assert CodeHostRule(u) == TypedLink("github", u);
  }

  /** The string facts behind `GithubProfileIsSocial`: the host occurs, with no owner/repo after it. */
  lemma {:induction false} GithubProfileMatches(owner: string, slash: string)
    requires owner != [] && NoSlash(owner) && (slash == "" || slash == "/")
    ensures var u := "https://github.com/" + owner + slash;
      Contains(u, "github.com") && !HasOwnerAndRepo(u, "github.com")
  {
    var u := "https://github.com/" + owner + slash;
    assert u[8..18] == "github.com";
    ContainsAt(u, "github.com", 8);
    ProfileHasNoRepository(owner, slash);
  }

  /** A profile URL has no `github.com/owner/repo` match anywhere. */
  lemma {:induction false} ProfileHasNoRepository(owner: string, slash: string)
    requires NoSlash(owner) && (slash == "" || slash == "/")
    ensures !HasOwnerAndRepo("https://github.com/" + owner + slash, "github.com")
  {
    var u := "https://github.com/" + owner + slash;
    forall i | 0 <= i <= |u| ensures !OwnerRepoAt(u, "github.com", i) {
      if StartsWith(u[i..], "github.com/") {
        assert u[i + 10] == u[i..][10] == '/';
        SlashesOfProfile(owner, slash, i + 10);
        var t := u[i + 11..];
        forall j | 0 < j < |t| - 1 ensures t[j] != '/' {
          SlashesOfProfile(owner, slash, i + 11 + j);
        }
      }
    }
  }

  /** Past `https://github.`, the only slashes of a profile URL are the one after `.com` and the optional last one. */
  lemma {:induction false} SlashesOfProfile(owner: string, slash: string, k: nat)
    requires NoSlash(owner) && (slash == "" || slash == "/")
    requires 10 <= k < |"https://github.com/" + owner + slash|
    ensures ("https://github.com/" + owner + slash)[k] == '/' ==> k == 18 || (slash == "/" && k == 19 + |owner|)
  {
    var u := "https://github.com/" + owner + slash;
    if k < 19 {
      assert u[..19] == "https://github.com/";
      assert u[k] == "https://github.com/"[k];
    } else if k < 19 + |owner| {
      assert u[k] == owner[k - 19];
    }
  }

  /** A URL that matches no platform, host or domain rule is classified by its keywords alone. */
  lemma {:induction false} FallbackByKeywords(u: string)
    requires ContainsNone(u, PlatformNeedles + CodeHostNeedles + HostingNeedles + DomainNeedles)
    ensures Rules(u) == KeywordRule(u)
  {
    PlatformRuleFires(u);
    CodeHostRuleFires(u);
    HostingRuleFires(u);
    DomainRuleFires(u);
  }

  /** Lower-case words that mark a project or demo page. */
  const DemoWords: set<string> := {"demo", "app", "project", "live"}

  /** Lower-case words that mark a portfolio page. */
  const PortfolioWords: set<string> := {"portfolio", "resume", "cv", "about"}

  /**
   * The keyword groups and their priority on any http(s) URL: a demo word
   * anywhere in the lower-cased URL gives `demo`; failing that, a portfolio
   * word gives `portfolio`; otherwise `website`.
   */
  lemma KeywordGroups(u: string)
    requires IsHttp(u)
    ensures KeywordRule(u).Some?
    ensures KeywordRule(u).value.linkType == "demo" <==> !ContainsNone(ToLower(u), DemoWords)
    ensures KeywordRule(u).value.linkType == "portfolio" <==>
      ContainsNone(ToLower(u), DemoWords) && !ContainsNone(ToLower(u), PortfolioWords)
    ensures KeywordRule(u).value.linkType == "website" <==>
      ContainsNone(ToLower(u), DemoWords) && ContainsNone(ToLower(u), PortfolioWords)
  {
  }

  /** Letter case never changes the keyword rule's answer: it reads only the lower-cased URL. */
  lemma KeywordRuleIgnoresCase(u: string, v: string)
    requires IsHttp(u) && IsHttp(v) && ToLower(u) == ToLower(v)
    ensures KeywordRule(u).value.linkType == KeywordRule(v).value.linkType
  {
  }

  /** A demo word outranks a portfolio word: "https://x.org/demo-cv" is a demo. */
  lemma DemoOutranksPortfolio()
    ensures KeywordRule("https://x.org/demo-cv") == Some(ClassifiedLink("demo", "https://x.org/demo-cv", Project))
  {
    var u := "https://x.org/demo-cv";
    assert StartsWith(u, "https://");
    ContainsAt(ToLower(u), "demo", 14);
  }

  /** Upper-case keywords count: "https://x.org/DEMO" is a demo. */
  lemma UpperCaseKeyword()
    ensures KeywordRule("https://x.org/DEMO") == Some(ClassifiedLink("demo", "https://x.org/DEMO", Project))
  {
    var u := "https://x.org/DEMO";
    assert StartsWith(u, "https://");
    assert ToLower(u)[14..18] == "demo";
    ContainsAt(ToLower(u), "demo", 14);
  }

  /** The bare GitHub domain, with or without a slash, is rejected whatever the URL parser says. */
  lemma {:induction false} BareGithubRejected(parse: UrlParser)
    ensures Categorize(parse, "https://github.com") == None
    ensures Categorize(parse, "https://github.com/") == None
  {
    BareGithubDenied("https://github.com");
    BareGithubDenied("https://github.com/");
  }

  /** Every spelling of every denylisted bare domain is rejected, whatever the URL parser says. */
  lemma {:induction false} BareDomainRejected(parse: UrlParser, k: nat, u: string)
    requires k < |BareDomains| && u in BareForms(BareDomains[k].0, BareDomains[k].1)
    ensures Categorize(parse, u) == None
  {
    var host := BareDomains[k].1;
    assert host != [] && (host[|host| - 1] == 'm' || host[|host| - 1] == 'r');
    BareFormEnds(BareDomains[k].0, host, u);
    TrimKeeps(u);
  }

  /** A bare form starts with `h` and ends with `/` or the last character of its host. */
  lemma {:induction false} BareFormEnds(prefix: string, host: string, u: string)
    requires host != [] && u in BareForms(prefix, host)
    ensures u != [] && u[0] == 'h' && (u[|u| - 1] == '/' || u[|u| - 1] == host[|host| - 1])
  {
  }

  lemma {:induction false} BareGithubDenied(a: string)
    requires a == "https://github.com" || a == "https://github.com/"
    ensures Trim(a) == a && IsBareDomain(a)
  {
    TrimKeeps(a);
    assert BareDomains[0] == ("www.", "github.com");
    var forms := BareForms("www.", "github.com");
    assert "https://" + "github.com" in forms && "https://" + "github.com" + "/" in forms;
    assert "https://" + "github.com" == "https://github.com";
    assert "https://" + "github.com" + "/" == "https://github.com/";
  }

  lemma {:induction false} TrimKeeps(a: string)
    requires a != [] && !IsWhiteSpace(a[0]) && !IsWhiteSpace(a[|a| - 1])
    ensures Trim(a) == a
  {
    assert TrimStart(a) == a;
  }
}
