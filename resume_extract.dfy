/**
 * The reconciler of the resume-extract route: stripping code fences from the
 * summarizer's reply, `createProjectLink`, and the merge block that chooses
 * the social links and spreads the extractor's project and portfolio links
 * over the summarizer's projects.
 *
 * The summarizer's JSON is modelled only as far as the merge reads it: the
 * `error` flag, `social_links` and `projects`, and per project `name`,
 * `description` and `links`. JSON values the merge cannot tell apart are
 * folded together (every falsy `url` is `Falsy`, every truthy non-string
 * `url` is `OtherTruthy`).
 */
module ResumeExtract {
  import opened Wrappers
  import opened Text
  import opened Subsequences
  import LinkClassifier
  import LinkExtractor

  type Link = LinkExtractor.Link

  // ---------------------------------------------------------------------------
  // Code fences

  const JsonFence: string := "```json"
  const Fence: string := "```"

  /**
   * `s.replace(/p\n?/g, "")`: scanning left to right, every occurrence of `p`
   * is removed together with one newline right after it.
   */
  function RemoveAll(s: string, p: string): (r: string)
    requires p != []
    ensures |r| <= |s|
    decreases |s|
  {
    if s == [] then []
    else if StartsWith(s, p) then
      var t := s[|p|..];
      if t != [] && t[0] == '\n' then RemoveAll(t[1..], p) else RemoveAll(t, p)
    else [s[0]] + RemoveAll(s[1..], p)
  }

  /** The removal only deletes: what is left is the text's other characters, in their order. */
  lemma {:induction false} RemoveAllKeepsOrder(s: string, p: string)
    requires p != []
    ensures IsSubsequence(RemoveAll(s, p), s)
    decreases |s|
  {
    if s != [] {
      if StartsWith(s, p) {
        var k := if |s| > |p| && s[|p|] == '\n' then |p| + 1 else |p|;
        assert RemoveAll(s, p) == RemoveAll(s[k..], p);
        RemoveAllKeepsOrder(s[k..], p);
        SubsequenceOfSuffix(RemoveAll(s, p), s, k);
      } else {
        var r := RemoveAll(s[1..], p);
        RemoveAllKeepsOrder(s[1..], p);
        assert RemoveAll(s, p) == [s[0]] + r;
        assert ([s[0]] + r)[1..] == r;
      }
    }
  }

  /** Text none of whose characters can start `p` passes through the removal, whatever follows it. */
  lemma {:induction false} RemoveAllPrefix(a: string, b: string, p: string)
    requires p != [] && forall i :: 0 <= i < |a| ==> a[i] != p[0]
    ensures RemoveAll(a + b, p) == a + RemoveAll(b, p)
    decreases |a|
  {
    if a == [] {
      assert a + b == b;
    } else {
      var s := a + b;
      assert s[0] == a[0] && s[1..] == a[1..] + b;
      assert !StartsWith(s, p) by {
        if |p| <= |s| {
          assert s[..|p|][0] == s[0];
        }
      }
      RemoveAllHead(s, p);
      RemoveAllPrefix(a[1..], b, p);
      assert [a[0]] + (a[1..] + RemoveAll(b, p)) == a + RemoveAll(b, p);
    }
  }

  /** A string without `p` passes through the removal unchanged. */
  lemma {:induction false} RemoveAllAbsent(s: string, p: string)
    requires p != [] && !Contains(s, p)
    ensures RemoveAll(s, p) == s
    decreases |s|
  {
    if s != [] {
      RemoveAllAbsent(s[1..], p);
    }
  }

  /** A text that does not start with `p` keeps its first character. */
  lemma RemoveAllHead(s: string, p: string)
    requires p != [] && s != [] && !StartsWith(s, p)
    ensures RemoveAll(s, p) == [s[0]] + RemoveAll(s[1..], p)
  {
  }

  /** Once every fence is removed, the text holds no fence: removal cannot glue backticks into a new one. */
  lemma {:induction false} RemoveAllFences(s: string)
    ensures !Contains(RemoveAll(s, Fence), Fence)
    decreases |s|
  {
    var r := RemoveAll(s, Fence);
    if s == [] {
    } else if StartsWith(s, Fence) {
      var t := s[3..];
      if t != [] && t[0] == '\n' {
        RemoveAllFences(t[1..]);
      } else {
        RemoveAllFences(t);
      }
    } else {
      RemoveAllFences(s[1..]);
      RemoveAllHead(s, Fence);
      assert r[1..] == RemoveAll(s[1..], Fence);
      if s[0] == '`' && |s| >= 2 && s[1] == '`' {
        assert !StartsWith(s[1..], Fence);
        RemoveAllHead(s[1..], Fence);
        assert r[1] == s[1];
        if |s| >= 3 {
          assert s[2] != '`';
          assert !StartsWith(s[2..], Fence);
          RemoveAllHead(s[2..], Fence);
          assert r[2] == s[2];
        } else {
          assert |r| == 2;
        }
      } else if s[0] == '`' && |s| >= 2 {
        assert !StartsWith(s[1..], Fence);
        RemoveAllHead(s[1..], Fence);
        assert r[1] == s[1];
      }
      assert !StartsWith(r, Fence);
    }
  }

  /**
   * Lines 104-107: a reply mentioning "```json" loses every "```json" and then
   * every "```" (each with one following newline); any other reply is parsed
   * as it is.
   */
  function StripCodeFences(raw: string): (r: string)
    ensures Contains(raw, JsonFence) ==> !Contains(r, Fence)
    ensures !Contains(raw, JsonFence) ==> r == raw
  {
    if Contains(raw, JsonFence) then
      var r := RemoveAll(RemoveAll(raw, JsonFence), Fence);
      RemoveAllFences(RemoveAll(raw, JsonFence));
      r
    else raw
  }

  /** Fence stripping only deletes: the parser sees the reply's other characters, in their order. */
  lemma {:induction false} StripCodeFencesKeepsOrder(raw: string)
    ensures IsSubsequence(StripCodeFences(raw), raw)
  {
    if Contains(raw, JsonFence) {
      var once := RemoveAll(raw, JsonFence);
      RemoveAllKeepsOrder(raw, JsonFence);
      RemoveAllKeepsOrder(once, Fence);
      SubsequenceTrans(RemoveAll(once, Fence), once, raw);
    } else {
      SubsequenceRefl(raw);
    }
  }

  /**
   * The summarizer's usual reply: a "```json" line, the JSON text, and a
   * closing fence. Whatever the JSON text (as long as it holds no backtick),
   * the parser receives exactly that text followed by the newline that
   * preceded the closing fence.
   */
  lemma {:induction false} FencedReplyUnwrapped(body: string)
    requires forall i :: 0 <= i < |body| ==> body[i] != '`'
    ensures StripCodeFences("```json\n" + body + "\n```") == body + "\n"
  {
    var raw, tail, line := "```json\n" + body + "\n```", body + "\n```", body + "\n";
    assert raw[..|JsonFence|] == JsonFence;
    ContainsAt(raw, JsonFence, 0);
    assert raw[|JsonFence| + 1..] == tail;
    assert RemoveAll(raw, JsonFence) == RemoveAll(tail, JsonFence);
    assert tail == line + Fence;
    ContainsNeedsRoom(Fence, JsonFence);
    ContainsAfterPrefix(line, Fence, JsonFence);
    RemoveAllAbsent(tail, JsonFence);
    RemoveAllPrefix(line, Fence, Fence);
    assert RemoveAll(Fence, Fence) == [] by {
      assert StartsWith(Fence, Fence) && Fence[|Fence|..] == [];
    }
  }

  /** A reply without "```json" keeps its plain "```" fences; they are removed only alongside a "```json". */
  lemma PlainFenceKept()
    ensures StripCodeFences("```") == "```"
  {
    assert !Contains("```", JsonFence) by {
      assert !StartsWith("```", JsonFence);
      assert !Contains("``", JsonFence) && !Contains("`", JsonFence) && !Contains("", JsonFence);
    }
  }

  // ---------------------------------------------------------------------------
  // The summarizer's JSON, as far as the merge reads it

  /** A link's `url` as the merge tests it: falsy, a string, or some other truthy value. */
  datatype UrlValue = Falsy | UrlText(s: string) | OtherTruthy

  /** An element of a `links` or `social_links` array: an object, or anything else (null included). */
  datatype LinkEntry = NonObject | LinkObj(name: Option<string>, linkType: Option<string>, url: UrlValue)

  /** A project's `links` field: an array, a falsy value (or none), or some other truthy value. */
  datatype LinksValue = LinksArray(entries: seq<LinkEntry>) | LinksFalsy | LinksOther

  /** An element of `projects`: `null`, or an object. */
  datatype ProjectEntry = NullProject | ProjectObj(name: Option<string>, description: Option<string>, links: LinksValue)

  datatype SocialValue = SocialArray(entries: seq<LinkEntry>) | SocialNotArray

  /** The `projects` field: an array, a falsy value (or none), or some other truthy value. */
  datatype ProjectsValue = ProjectsArray(entries: seq<ProjectEntry>) | ProjectsFalsy | ProjectsOther

  /**
   * `data`: a parsed value that is not an object (null, a primitive, an
   * array), the `{raw, error}` stand-in for a reply that failed to parse, or
   * an object with a truthy or falsy `error`.
   */
  datatype Summary =
    | NotAnObject
    | ParseFailure(raw: string)
    | SummaryObject(hasError: bool, socialLinks: SocialValue, projects: ProjectsValue)

  // ---------------------------------------------------------------------------
  // createProjectLink

  /** `linkTypeNames`: the display names of the ten known link types. */
  const LinkTypeNames: map<string, string> := map[
    "repository" := "Source Code", "demo" := "Live Demo", "live" := "Live Site",
    "frontend" := "Frontend", "backend" := "Backend API", "portfolio" := "Portfolio",
    "website" := "Website", "github" := "GitHub", "gitlab" := "GitLab", "bitbucket" := "Bitbucket"]

  const KnownTypes: set<string> :=
    {"repository", "demo", "live", "frontend", "backend", "portfolio", "website", "github", "gitlab", "bitbucket"}

  /** `linkTypeNames[t]`: a display name exists exactly for the ten known types, and none of them is empty. */
  function TypeName(t: string): (r: Option<string>)
    ensures r.Some? <==> t in KnownTypes
    ensures r.Some? ==> r.value != ""
  {
    if t in LinkTypeNames then Some(LinkTypeNames[t]) else None
  }

  /** The `{type, url}` a well-formed project link carries. */
  function LinkOf(e: LinkEntry): Option<Link> {
    if e.LinkObj? && e.linkType.Some? && e.url.UrlText? then Some(LinkExtractor.Link(e.linkType.value, e.url.s))
    else None
  }

  /** `linkTypeNames[t] || capitalize(t)`. */
  function DisplayName(t: string): (r: string)
    ensures t in KnownTypes ==> Some(r) == TypeName(t)
    ensures t !in KnownTypes ==> |r| == |t| && (t != [] ==> r[0] == UpperChar(t[0]) && r[1..] == t[1..])
  {
    match TypeName(t)
    case Some(n) => n
    case None => Capitalize(t)
  }

  /** `createProjectLink`: `type` and `url` are copied, and the link gets a display name. */
  function CreateProjectLink(l: Link): (r: LinkEntry)
    ensures LinkOf(r) == Some(l) && r.name.Some?
  {
    LinkObj(Some(DisplayName(l.linkType)), Some(l.linkType), UrlText(l.url))
  }

  /**
   * The name `createProjectLink` gives: the table entry for a known type,
   * otherwise the type with its first letter upper-cased and the rest kept.
   */
  lemma {:induction false} CreateProjectLinkName(l: Link)
    ensures var name := CreateProjectLink(l).name.value;
      && (l.linkType in KnownTypes ==> Some(name) == TypeName(l.linkType))
      && (l.linkType !in KnownTypes ==> |name| == |l.linkType|)
      && (l.linkType !in KnownTypes && l.linkType != [] ==>
            name[0] == UpperChar(l.linkType[0]) && name[1..] == l.linkType[1..])
  {
  }

  /** The name `createProjectLink` gives each of the ten known types. */
  lemma {:induction false} KnownTypeNames()
    ensures CreateProjectLink(LinkExtractor.Link("repository", "")).name == Some("Source Code")
    ensures CreateProjectLink(LinkExtractor.Link("demo", "")).name == Some("Live Demo")
    ensures CreateProjectLink(LinkExtractor.Link("backend", "")).name == Some("Backend API")
    ensures CreateProjectLink(LinkExtractor.Link("github", "")).name == Some("GitHub")
    ensures CreateProjectLink(LinkExtractor.Link("", "")).name == Some("")
  {
    assert "" !in KnownTypes;
  }

  // ---------------------------------------------------------------------------
  // Cleaning a project's existing links

  /** `link && link.url && link.url !== "" && link.url !== "undefined"`. */
  predicate Keep(e: LinkEntry)
    ensures e.LinkObj? && e.url.OtherTruthy? ==> Keep(e)
    ensures Keep(e) ==> e.LinkObj? && e.url != Falsy && e.url != UrlText("") && e.url != UrlText("undefined")
  {
    e.LinkObj? && match e.url
      case Falsy => false
      case UrlText(s) => s != "" && s != "undefined"
      case OtherTruthy => true
  }

  /** The project's `links` if it is an array, filtered by `Keep`; otherwise none. */
  function CleanLinks(links: LinksValue): (r: seq<LinkEntry>)
    ensures links.LinksArray? ==> IsSubsequence(r, links.entries)
    ensures links.LinksArray? ==> forall e :: e in links.entries ==> (e in r <==> Keep(e))
    ensures !links.LinksArray? ==> r == []
  {
    if links.LinksArray? then KeepAll(links.entries) else []
  }

  function KeepAll(es: seq<LinkEntry>): (r: seq<LinkEntry>)
    ensures IsSubsequence(r, es)
    ensures forall e :: e in r ==> e in es && Keep(e)
    ensures forall e :: e in es && Keep(e) ==> e in r
  {
    if es == [] then []
    else
      var rest := KeepAll(es[1..]);
      assert forall e :: e in es && e != es[0] ==> e in es[1..];
      if Keep(es[0]) then [es[0]] + rest else rest
  }

  /** `projectLinks.some(existing => existing.url === u)`. */
  predicate HasLinkUrl(links: seq<LinkEntry>, u: string) {
    exists i :: 0 <= i < |links| && links[i].LinkObj? && links[i].url == UrlText(u)
  }

  // ---------------------------------------------------------------------------
  // The per-project quota

  function Max(a: int, b: int): int { if a < b then b else a }
  function Min(a: int, b: int): int { if a < b then a else b }

  /** `Math.min(4, Math.max(1, Math.floor(poolSize / projectCount)) + 1)`. */
  function Cap(poolSize: nat, projectCount: nat): (r: nat)
    requires projectCount > 0
    ensures 2 <= r <= 4
  {
    Min(4, Max(1, poolSize / projectCount) + 1)
  }

  /** The quota is 2 below two links per project, 3 below three, and 4 from three on. */
  lemma {:induction false} CapCases(poolSize: nat, projectCount: nat)
    requires projectCount > 0
    ensures Cap(poolSize, projectCount) == 2 <==> poolSize < 2 * projectCount
    ensures Cap(poolSize, projectCount) == 3 <==> 2 * projectCount <= poolSize < 3 * projectCount
    ensures Cap(poolSize, projectCount) == 4 <==> 3 * projectCount <= poolSize
  {
    var q, m := poolSize / projectCount, poolSize % projectCount;
    assert poolSize == q * projectCount + m && 0 <= m < projectCount;
    if q <= 1 {
      assert q * projectCount <= projectCount;
    } else if q == 2 {
      assert poolSize == 2 * projectCount + m;
    } else {
      assert q * projectCount >= 3 * projectCount;
    }
  }

  // ---------------------------------------------------------------------------
  // Filling one project from the shared pool

  /**
   * The state after the `while` loop of one project: its links, what is left
   * of the pool, and the pool links it attached and discarded, in pool order.
   */
  datatype FillResult = FillResult(links: seq<LinkEntry>, rest: seq<Link>, added: seq<Link>, dropped: seq<Link>)

  /**
   * Lines 220-234: take links from the front of the pool until `room` of them
   * are attached or the pool is empty; a link whose URL the project already
   * has is discarded without counting.
   */
  function Fill(links: seq<LinkEntry>, pool: seq<Link>, room: nat): (r: FillResult)
    ensures |r.rest| <= |pool| && |r.added| <= room
    decreases |pool|
  {
    if room == 0 || pool == [] then FillResult(links, pool, [], [])
    else if HasLinkUrl(links, pool[0].url) then
      var f := Fill(links, pool[1..], room);
      f.(dropped := [pool[0]] + f.dropped)
    else
      var f := Fill(links + [CreateProjectLink(pool[0])], pool[1..], room - 1);
      f.(added := [pool[0]] + f.added)
  }

  /** `createProjectLink` over a list of pool links. */
  function Created(ls: seq<Link>): (r: seq<LinkEntry>)
    ensures |r| == |ls| && forall i :: 0 <= i < |ls| ==> LinkOf(r[i]) == Some(ls[i])
  {
    if ls == [] then [] else [CreateProjectLink(ls[0])] + Created(ls[1..])
  }

  /**
   * Filling keeps the project's links in front and appends one created link per
   * attached pool link; the pool loses exactly a prefix, each element of which
   * is attached or discarded, in order; the loop stops only when the quota is
   * reached or the pool is empty.
   */
  lemma {:induction false} FillSpec(links: seq<LinkEntry>, pool: seq<Link>, room: nat)
    ensures var f := Fill(links, pool, room);
      && f.links == links + Created(f.added)
      && Consumed(pool, f.rest, f.added, f.dropped)
      && (f.rest == [] || |f.added| == room)
  {
    FillConsumes(links, pool, room);
    FillLinks(links, pool, room);
  }

  /** The links part of `FillSpec`, and where the loop stops. */
  lemma {:induction false} FillLinks(links: seq<LinkEntry>, pool: seq<Link>, room: nat)
    ensures var f := Fill(links, pool, room);
      f.links == links + Created(f.added) && (f.rest == [] || |f.added| == room)
    decreases |pool|
  {
    var f := Fill(links, pool, room);
    if room == 0 || pool == [] {
    } else if HasLinkUrl(links, pool[0].url) {
      FillLinks(links, pool[1..], room);
    } else {
      var links' := links + [CreateProjectLink(pool[0])];
      FillLinks(links', pool[1..], room - 1);
      var g := Fill(links', pool[1..], room - 1);
      assert f.added == [pool[0]] + g.added && f.added[1..] == g.added;
      assert Created(f.added) == [CreateProjectLink(pool[0])] + Created(g.added);
      assert f.links == g.links;
    }
  }

  /** The part of `FillSpec` about the pool alone. */
  lemma {:induction false} FillConsumes(links: seq<LinkEntry>, pool: seq<Link>, room: nat)
    ensures var f := Fill(links, pool, room);
      Consumed(pool, f.rest, f.added, f.dropped)
    decreases |pool|
  {
    if room == 0 || pool == [] {
      assert pool[..|pool|] == [] || room == 0;
      assert pool[..0] == [];
    } else if HasLinkUrl(links, pool[0].url) {
      FillConsumes(links, pool[1..], room);
      var g := Fill(links, pool[1..], room);
      ConsumedCons(pool, g.rest, g.added, g.dropped);
    } else {
      var links' := links + [CreateProjectLink(pool[0])];
      FillConsumes(links', pool[1..], room - 1);
      var g := Fill(links', pool[1..], room - 1);
      ConsumedCons(pool, g.rest, g.added, g.dropped);
    }
  }

  /** Each link of `added` has a URL missing from `links` and from the links created before it. */
  predicate AddsNewUrls(links: seq<LinkEntry>, added: seq<Link>) {
    forall i :: 0 <= i < |added| ==> !HasLinkUrl(links + Created(added[..i]), added[i].url)
  }

  lemma CreatedCons(l: Link, ls: seq<Link>)
    ensures Created([l] + ls) == [CreateProjectLink(l)] + Created(ls)
  {
    assert ([l] + ls)[1..] == ls;
  }

  lemma {:induction false} AddsNewUrlsCons(links: seq<LinkEntry>, l: Link, added: seq<Link>)
    requires !HasLinkUrl(links, l.url) && AddsNewUrls(links + [CreateProjectLink(l)], added)
    ensures AddsNewUrls(links, [l] + added)
  {
    var all := [l] + added;
    forall i | 0 <= i < |all| ensures !HasLinkUrl(links + Created(all[..i]), all[i].url) {
      if i == 0 {
        assert links + Created(all[..0]) == links;
      } else {
        var j := i - 1;
        assert all[i] == added[j] && all[..i] == [l] + added[..j];
        CreatedCons(l, added[..j]);
        AppendAssoc(links, [CreateProjectLink(l)], Created(added[..j]));
      }
    }
  }

  /** Every attached link brings a URL the project did not have, counting the links attached before it. */
  lemma {:induction false} FillAddsNewUrls(links: seq<LinkEntry>, pool: seq<Link>, room: nat)
    ensures AddsNewUrls(links, Fill(links, pool, room).added)
    decreases |pool|
  {
    if room > 0 && pool != [] {
      if HasLinkUrl(links, pool[0].url) {
        FillAddsNewUrls(links, pool[1..], room);
      } else {
        var c := CreateProjectLink(pool[0]);
        FillAddsNewUrls(links + [c], pool[1..], room - 1);
        AddsNewUrlsCons(links, pool[0], Fill(links + [c], pool[1..], room - 1).added);
      }
    }
  }

  /** Every discarded link has a URL the filled project carries. */
  lemma {:induction false} FillDropsKnownUrls(links: seq<LinkEntry>, pool: seq<Link>, room: nat)
    ensures var f := Fill(links, pool, room);
      forall l :: l in f.dropped ==> HasLinkUrl(f.links, l.url)
    decreases |pool|
  {
    if room > 0 && pool != [] {
      var f := Fill(links, pool, room);
      FillSpec(links, pool, room);
      if HasLinkUrl(links, pool[0].url) {
        FillDropsKnownUrls(links, pool[1..], room);
        var w :| 0 <= w < |links| && links[w].LinkObj? && links[w].url == UrlText(pool[0].url);
        assert f.links[w] == links[w];
      } else {
        FillDropsKnownUrls(links + [CreateProjectLink(pool[0])], pool[1..], room - 1);
      }
    }
  }

  /** The `while` loop of one project, draining the shared pool from the front (lines 220-234). */
  method FillProject(links: seq<LinkEntry>, pool: seq<Link>, maxLinks: nat) returns (projectLinks: seq<LinkEntry>, available: seq<Link>)
    ensures projectLinks == Fill(links, pool, maxLinks).links && available == Fill(links, pool, maxLinks).rest
  {
    projectLinks, available := links, pool;
    var linksToAdd := 0;
    ghost var added: seq<Link>, dropped: seq<Link> := [], [];
    while linksToAdd < maxLinks && |available| > 0
      invariant linksToAdd <= maxLinks
      invariant var f := Fill(projectLinks, available, maxLinks - linksToAdd);
        Fill(links, pool, maxLinks) == FillResult(f.links, f.rest, added + f.added, dropped + f.dropped)
      decreases |available|
    {
      var link := available[0];
      available := available[1..];
      if !HasLinkUrl(projectLinks, link.url) {
        projectLinks := projectLinks + [CreateProjectLink(link)];
        linksToAdd := linksToAdd + 1;
        added := added + [link];
      } else {
        dropped := dropped + [link];
      }
    }
  }

  // ---------------------------------------------------------------------------
  // Spreading the pool over the summarizer's projects

  /**
   * The state after the `map` over the projects: the rewritten projects, what
   * is left of the pool, and all attached and discarded pool links in order.
   */
  datatype Distribution = Distribution(projects: seq<ProjectEntry>, rest: seq<Link>, added: seq<Link>, dropped: seq<Link>)

  predicate NoNullProject(projects: seq<ProjectEntry>) {
    forall i :: 0 <= i < |projects| ==> projects[i].ProjectObj?
  }

  /** The project with its links replaced: `{...project, links}`. */
  function WithLinks(p: ProjectEntry, links: seq<LinkEntry>): (r: ProjectEntry)
    requires p.ProjectObj?
    ensures r.ProjectObj? && r.name == p.name && r.description == p.description && r.links == LinksArray(links)
  {
    p.(links := LinksArray(links))
  }

  /** Lines 201-240: each project in turn keeps its cleaned links and is filled from the pool with quota `cap`. */
  function Distribute(projects: seq<ProjectEntry>, pool: seq<Link>, cap: nat): (r: Distribution)
    requires NoNullProject(projects)
    ensures |r.projects| == |projects| && |r.rest| <= |pool|
    decreases |projects|
  {
    if projects == [] then Distribution([], pool, [], [])
    else
      var f := Fill(CleanLinks(projects[0].links), pool, cap);
      var d := Distribute(projects[1..], f.rest, cap);
      Distribution([WithLinks(projects[0], f.links)] + d.projects, d.rest, f.added + d.added, f.dropped + d.dropped)
  }

  /** `{name, description: "Project hosted at <url>", links: [createProjectLink(link)]}` for the i-th pool link. */
  function HostedProject(prefix: string, i: nat, l: Link): ProjectEntry {
    ProjectObj(Some(prefix + NatToString(i + 1)), Some("Project hosted at " + l.url), LinksArray([CreateProjectLink(l)]))
  }

  /** One new project per link, named `<prefix>1`, `<prefix>2`, ... in order. */
  function HostedProjects(prefix: string, ls: seq<Link>): (r: seq<ProjectEntry>)
    ensures |r| == |ls|
    ensures forall i :: 0 <= i < |ls| ==>
      && r[i].ProjectObj? && r[i].name == Some(prefix + NatToString(i + 1))
      && r[i].description == Some("Project hosted at " + ls[i].url)
      && r[i].links == LinksArray([CreateProjectLink(ls[i])])
  {
    seq(|ls|, i requires 0 <= i < |ls| => HostedProject(prefix, i, ls[i]))
  }

  /**
   * Lines 195-253: the summarizer's projects filled from the pool, followed by
   * one `Additional Project i` per leftover link; a null project makes the
   * handler throw.
   */
  function Enhance(projects: seq<ProjectEntry>, pool: seq<Link>): (r: Option<seq<ProjectEntry>>)
    requires projects != []
    ensures r.None? <==> exists i :: 0 <= i < |projects| && projects[i].NullProject?
    ensures r.Some? ==> |projects| <= |r.value| <= |projects| + |pool|
  {
    if !NoNullProject(projects) then None
    else
      var d := Distribute(projects, pool, Cap(|pool|, |projects|));
      Some(d.projects + HostedProjects("Additional Project ", d.rest))
  }

  /** One step of the distribution: the project at `i` and the projects after it. */
  lemma {:induction false} DistributeUnfold(projects: seq<ProjectEntry>, i: nat, pool: seq<Link>, cap: nat)
    requires i < |projects| && NoNullProject(projects)
    ensures var f := Fill(CleanLinks(projects[i].links), pool, cap);
      var d := Distribute(projects[i + 1..], f.rest, cap);
      Distribute(projects[i..], pool, cap)
        == Distribution([WithLinks(projects[i], f.links)] + d.projects, d.rest, f.added + d.added, f.dropped + d.dropped)
  {
    assert projects[i..][1..] == projects[i + 1..];
  }

  /** After `i` projects: `mapped`, `pool`, `added` and `dropped` followed by the distribution of the rest give the whole distribution. */
  ghost predicate DistributedUpTo(projects: seq<ProjectEntry>, pool0: seq<Link>, cap: nat, i: nat,
                                  mapped: seq<ProjectEntry>, pool: seq<Link>, added: seq<Link>, dropped: seq<Link>)
    requires i <= |projects| && NoNullProject(projects)
  {
    var d := Distribute(projects[i..], pool, cap);
    Distribute(projects, pool0, cap) == Distribution(mapped + d.projects, d.rest, added + d.added, dropped + d.dropped)
  }

  lemma {:induction false} DistributedStep(projects: seq<ProjectEntry>, pool0: seq<Link>, cap: nat, i: nat,
                                           mapped: seq<ProjectEntry>, pool: seq<Link>, added: seq<Link>, dropped: seq<Link>)
    requires i < |projects| && NoNullProject(projects)
    requires DistributedUpTo(projects, pool0, cap, i, mapped, pool, added, dropped)
    ensures var f := Fill(CleanLinks(projects[i].links), pool, cap);
      DistributedUpTo(projects, pool0, cap, i + 1, mapped + [WithLinks(projects[i], f.links)], f.rest,
                      added + f.added, dropped + f.dropped)
  {
    DistributeUnfold(projects, i, pool, cap);
    var f := Fill(CleanLinks(projects[i].links), pool, cap);
    var d := Distribute(projects[i + 1..], f.rest, cap);
    AppendAssoc(mapped, [WithLinks(projects[i], f.links)], d.projects);
    AppendAssoc(added, f.added, d.added);
    AppendAssoc(dropped, f.dropped, d.dropped);
  }

  /** The `map` over the projects, each filled by the `while` loop (lines 199-240); `ok` is false where it throws. */
  method DistributeProjects(projects: seq<ProjectEntry>, allProjectLinks: seq<Link>, maxLinksPerProject: nat)
    returns (ok: bool, mapped: seq<ProjectEntry>, availableLinks: seq<Link>)
    ensures ok == NoNullProject(projects)
    ensures ok ==> mapped == Distribute(projects, allProjectLinks, maxLinksPerProject).projects
    ensures ok ==> availableLinks == Distribute(projects, allProjectLinks, maxLinksPerProject).rest
  {
    availableLinks := allProjectLinks;
    mapped := [];
    ghost var added: seq<Link>, dropped: seq<Link> := [], [];
    for i := 0 to |projects|
      invariant |mapped| == i
      invariant forall j :: 0 <= j < i ==> projects[j].ProjectObj?
      invariant NoNullProject(projects) ==>
        DistributedUpTo(projects, allProjectLinks, maxLinksPerProject, i, mapped, availableLinks, added, dropped)
    {
      var project := projects[i];
      if project.NullProject? {
        assert !NoNullProject(projects);
        return false, [], [];
      }
      ghost var f := Fill(CleanLinks(project.links), availableLinks, maxLinksPerProject);
      if NoNullProject(projects) {
        DistributedStep(projects, allProjectLinks, maxLinksPerProject, i, mapped, availableLinks, added, dropped);
      }
      var projectLinks;
      projectLinks, availableLinks := FillProject(CleanLinks(project.links), availableLinks, maxLinksPerProject);
      mapped := mapped + [WithLinks(project, projectLinks)];
      added, dropped := added + f.added, dropped + f.dropped;
    }
    assert projects[|projects|..] == [];
    ok := true;
  }

  /** The leftover `forEach`: one `Additional Project i` per link still in the pool (lines 243-253). */
  method AppendLeftovers(mapped: seq<ProjectEntry>, availableLinks: seq<Link>) returns (result: seq<ProjectEntry>)
    ensures result == mapped + HostedProjects("Additional Project ", availableLinks)
  {
    result := mapped;
    for index := 0 to |availableLinks|
      invariant result == mapped + HostedProjects("Additional Project ", availableLinks[..index])
    {
      assert availableLinks[..index + 1] == availableLinks[..index] + [availableLinks[index]];
      result := result + [HostedProject("Additional Project ", index, availableLinks[index])];
    }
    assert availableLinks[..|availableLinks|] == availableLinks;
  }

  /** Lines 195-253 with the quota of lines 216-217; `None` where the handler throws. */
  method EnhanceProjects(projects: seq<ProjectEntry>, allProjectLinks: seq<Link>) returns (r: Option<seq<ProjectEntry>>)
    requires projects != []
    ensures r == Enhance(projects, allProjectLinks)
  {
    var linksPerProject := Max(1, |allProjectLinks| / |projects|);
    var maxLinksPerProject := Min(4, linksPerProject + 1);
    var ok, mapped, availableLinks := DistributeProjects(projects, allProjectLinks, maxLinksPerProject);
    if !ok {
      return None;
    }
    var result := AppendLeftovers(mapped, availableLinks);
    return Some(result);
  }

  // ---------------------------------------------------------------------------
  // Properties of the distribution

  /**
   * Conservation: the pool loses a prefix, and every link of that prefix is
   * either attached to a project or discarded as a duplicate, in pool order.
   * The attached links are exactly what the returned projects gain, in project
   * order, and each discarded link's URL is carried by a returned project.
   */
  lemma {:induction false} DistributeConserves(projects: seq<ProjectEntry>, pool: seq<Link>, cap: nat)
    requires NoNullProject(projects)
    ensures var d := Distribute(projects, pool, cap);
      && Consumed(pool, d.rest, d.added, d.dropped)
      && Gains(projects, d.projects) == Created(d.added)
      && forall l :: l in d.dropped ==> SomeProjectHasUrl(d.projects, l.url)
  {
    DistributeConsumes(projects, pool, cap);
    DistributeGains(projects, pool, cap);
    DistributeDropsKnownUrls(projects, pool, cap);
  }

  /** The pool part of `DistributeConserves`. */
  lemma {:induction false} DistributeConsumes(projects: seq<ProjectEntry>, pool: seq<Link>, cap: nat)
    requires NoNullProject(projects)
    ensures var d := Distribute(projects, pool, cap);
      Consumed(pool, d.rest, d.added, d.dropped)
    decreases |projects|
  {
    if projects == [] {
      assert pool[..0] == [];
    } else {
      var f := Fill(CleanLinks(projects[0].links), pool, cap);
      FillConsumes(CleanLinks(projects[0].links), pool, cap);
      NoNullTail(projects);
      DistributeConsumes(projects[1..], f.rest, cap);
      var d := Distribute(projects[1..], f.rest, cap);
      ConsumedPrefixes(pool, f.rest, f.added, f.dropped, d.rest, d.added, d.dropped);
    }
  }

  /** The links `after` carries beyond the cleaned links of `before`. */
  function Extra(before: ProjectEntry, after: ProjectEntry): (r: seq<LinkEntry>)
    ensures (before.ProjectObj? && after.ProjectObj? && after.links.LinksArray?
             && |CleanLinks(before.links)| <= |after.links.entries|) ==>
      after.links.entries == after.links.entries[..|CleanLinks(before.links)|] + r
  {
    if before.ProjectObj? && after.ProjectObj? && after.links.LinksArray?
      && |CleanLinks(before.links)| <= |after.links.entries|
    then after.links.entries[|CleanLinks(before.links)|..] else []
  }

  /** The links each project gained, concatenated in project order. */
  function Gains(before: seq<ProjectEntry>, after: seq<ProjectEntry>): (r: seq<LinkEntry>)
    requires |after| == |before|
    ensures before == [] ==> r == []
  {
    if before == [] then [] else Extra(before[0], after[0]) + Gains(before[1..], after[1..])
  }

  lemma {:induction false} CreatedAppend(a: seq<Link>, b: seq<Link>)
    ensures Created(a + b) == Created(a) + Created(b)
    decreases |a|
  {
    if a == [] {
      assert a + b == b;
    } else {
      assert (a + b)[0] == a[0] && (a + b)[1..] == a[1..] + b;
      CreatedAppend(a[1..], b);
      AppendAssoc([CreateProjectLink(a[0])], Created(a[1..]), Created(b));
    }
  }

  /**
   * The links the projects gain, read off the returned projects in project
   * order, are exactly `createProjectLink` of the attached pool links.
   */
  lemma {:induction false} DistributeGains(projects: seq<ProjectEntry>, pool: seq<Link>, cap: nat)
    requires NoNullProject(projects)
    ensures var d := Distribute(projects, pool, cap);
      Gains(projects, d.projects) == Created(d.added)
    decreases |projects|
  {
    if projects != [] {
      var kept := CleanLinks(projects[0].links);
      var f := Fill(kept, pool, cap);
      NoNullTail(projects);
      DistributeGains(projects[1..], f.rest, cap);
      FillLinks(kept, pool, cap);
      var d' := Distribute(projects[1..], f.rest, cap);
      var d := Distribute(projects, pool, cap);
      assert d.projects[0] == WithLinks(projects[0], f.links) && d.projects[1..] == d'.projects;
      assert Extra(projects[0], d.projects[0]) == Created(f.added) by {
        assert f.links[|kept|..] == Created(f.added);
      }
      CreatedAppend(f.added, d'.added);
    }
  }

  /** Some project of `ps` has a link with URL `u`. */
  predicate SomeProjectHasUrl(ps: seq<ProjectEntry>, u: string) {
    exists i :: 0 <= i < |ps| && ps[i].ProjectObj? && ps[i].links.LinksArray? && HasLinkUrl(ps[i].links.entries, u)
  }

  /** Every discarded pool link has a URL that one of the returned projects carries. */
  lemma {:induction false} DistributeDropsKnownUrls(projects: seq<ProjectEntry>, pool: seq<Link>, cap: nat)
    requires NoNullProject(projects)
    ensures var d := Distribute(projects, pool, cap);
      forall l :: l in d.dropped ==> SomeProjectHasUrl(d.projects, l.url)
    decreases |projects|
  {
    if projects != [] {
      var kept := CleanLinks(projects[0].links);
      var f := Fill(kept, pool, cap);
      NoNullTail(projects);
      DistributeDropsKnownUrls(projects[1..], f.rest, cap);
      FillDropsKnownUrls(kept, pool, cap);
      var d' := Distribute(projects[1..], f.rest, cap);
      var d := Distribute(projects, pool, cap);
      assert d.projects[0] == WithLinks(projects[0], f.links);
      forall l | l in d.dropped ensures SomeProjectHasUrl(d.projects, l.url) {
        if l in f.dropped {
          assert d.projects[0].links.entries == f.links;
        } else {
          assert l in d'.dropped;
          var j :| 0 <= j < |d'.projects| && d'.projects[j].ProjectObj? && d'.projects[j].links.LinksArray? &&
            HasLinkUrl(d'.projects[j].links.entries, l.url);
          assert d.projects[j + 1] == d'.projects[j];
        }
      }
    }
  }

  lemma {:induction false} NoNullTail(projects: seq<ProjectEntry>)
    requires projects != [] && NoNullProject(projects)
    ensures NoNullProject(projects[1..])
  {
    forall i | 0 <= i < |projects[1..]| ensures projects[1..][i].ProjectObj? {
      assert projects[1..][i] == projects[i + 1];
    }
  }

  /**
   * Every pool link ends up attached to a project, discarded or left over, and
   * nothing else appears; the links the projects gain are the attached ones.
   */
  lemma {:induction false} DistributeAccountsForPool(projects: seq<ProjectEntry>, pool: seq<Link>, cap: nat)
    requires NoNullProject(projects)
    ensures var d := Distribute(projects, pool, cap);
      Accounted(pool, d.rest, d.added, d.dropped) && Gains(projects, d.projects) == Created(d.added)
  {
    var d := Distribute(projects, pool, cap);
    DistributeConsumes(projects, pool, cap);
    ConsumedParts(pool, d.rest, d.added, d.dropped);
    DistributeGains(projects, pool, cap);
  }

  /**
   * Each rewritten project keeps its name and description, starts with its
   * cleaned links, and gains at most `cap` links.
   */
  lemma {:induction false} DistributeShape(projects: seq<ProjectEntry>, pool: seq<Link>, cap: nat)
    requires NoNullProject(projects)
    ensures var out := Distribute(projects, pool, cap).projects;
      forall i :: 0 <= i < |projects| ==> ProjectFilled(projects[i], out[i], cap)
    decreases |projects|
  {
    if projects != [] {
      var f := Fill(CleanLinks(projects[0].links), pool, cap);
      FilledFirst(projects[0], pool, cap);
      NoNullTail(projects);
      DistributeShape(projects[1..], f.rest, cap);
      var d := Distribute(projects[1..], f.rest, cap);
      var out := Distribute(projects, pool, cap).projects;
      assert out == [WithLinks(projects[0], f.links)] + d.projects;
      forall i | 1 <= i < |projects| ensures ProjectFilled(projects[i], out[i], cap) {
        assert projects[i] == projects[1..][i - 1] && out[i] == d.projects[i - 1];
      }
    }
  }

  lemma FilledFirst(project: ProjectEntry, pool: seq<Link>, cap: nat)
    requires project.ProjectObj?
    ensures ProjectFilled(project, WithLinks(project, Fill(CleanLinks(project.links), pool, cap).links), cap)
  {
    var kept := CleanLinks(project.links);
    var f := Fill(kept, pool, cap);
    FillLinks(kept, pool, cap);
    assert f.links[..|kept|] == kept;
  }

  /** `after` is `before` with the same name and description, its cleaned links first and at most `cap` created links after them. */
  predicate ProjectFilled(before: ProjectEntry, after: ProjectEntry, cap: nat) {
    && before.ProjectObj? && after.ProjectObj?
    && after.name == before.name && after.description == before.description
    && after.links.LinksArray?
    && var kept := CleanLinks(before.links);
    && |kept| <= |after.links.entries| <= |kept| + cap
    && after.links.entries[..|kept|] == kept
  }

  /**
   * Lines 195-253 as a whole: a null project makes the handler throw;
   * otherwise every original project comes back filled, with at most
   * `min(4, ...)` new links, followed by the leftover links as `Additional
   * Project i` entries.
   */
  lemma {:induction false} EnhanceShape(projects: seq<ProjectEntry>, pool: seq<Link>)
    requires projects != []
    ensures Enhance(projects, pool).None? <==> exists i :: 0 <= i < |projects| && projects[i].NullProject?
    ensures Enhance(projects, pool).Some? ==>
      var out := Enhance(projects, pool).value;
      var d := Distribute(projects, pool, Cap(|pool|, |projects|));
      && |out| == |projects| + |d.rest|
      && (forall i :: 0 <= i < |projects| ==> ProjectFilled(projects[i], out[i], 4))
      && out[|projects|..] == HostedProjects("Additional Project ", d.rest)
      && Consumed(pool, d.rest, d.added, d.dropped)
      && Gains(projects, out[..|projects|]) == Created(d.added)
  {
    if NoNullProject(projects) {
      var cap := Cap(|pool|, |projects|);
      DistributeShape(projects, pool, cap);
      DistributeConsumes(projects, pool, cap);
      DistributeGains(projects, pool, cap);
      var out := Enhance(projects, pool).value;
      var d := Distribute(projects, pool, cap);
      forall i | 0 <= i < |projects| ensures ProjectFilled(projects[i], out[i], 4) {
        assert out[i] == d.projects[i];
      }
      assert out[|projects|..] == HostedProjects("Additional Project ", d.rest);
      assert out[..|projects|] == d.projects;
    }
  }

  // ---------------------------------------------------------------------------
  // The merge block

  /** The merge throws (the handler answers 500) or leaves `data` in a final state. */
  datatype MergeOutcome = Thrown | Done(data: Summary)

  /** `{type, url}` as the extractor hands it over, placed in `social_links`. */
  function ExtractedEntries(ls: seq<Link>): (r: seq<LinkEntry>)
    ensures |r| == |ls| && forall i :: 0 <= i < |ls| ==> r[i] == LinkObj(None, Some(ls[i].linkType), UrlText(ls[i].url))
  {
    seq(|ls|, i requires 0 <= i < |ls| => LinkObj(None, Some(ls[i].linkType), UrlText(ls[i].url)))
  }

  /** `data && typeof data === 'object' && !data.error`. */
  predicate Mergeable(data: Summary) {
    data.SummaryObject? && !data.hasError
  }

  /** The pool: project links, then portfolio links (lines 189-192). */
  function Pool(extracted: LinkExtractor.ExtractionResult): (r: seq<Link>)
    ensures |r| == |extracted.projectLinks| + |extracted.portfolioLinks|
    ensures r[..|extracted.projectLinks|] == extracted.projectLinks && r[|extracted.projectLinks|..] == extracted.portfolioLinks
  {
    extracted.projectLinks + extracted.portfolioLinks
  }

  /** Lines 173-182: the extractor's social links if any, else the summarizer's if a non-empty array, else none. */
  function ChooseSocial(extracted: seq<Link>, summarizer: SocialValue): (r: seq<LinkEntry>)
    ensures |extracted| > 0 ==> |r| == |extracted| && forall i :: 0 <= i < |r| ==> LinkOf(r[i]) == Some(extracted[i])
    ensures r == [] <==> |extracted| == 0 && (summarizer.SocialNotArray? || summarizer.entries == [])
  {
    if |extracted| > 0 then ExtractedEntries(extracted)
    else if summarizer.SocialArray? && |summarizer.entries| > 0 then summarizer.entries
    else []
  }

  /** The summarizer's projects if they are an array, else none (line 163). */
  function ProjectList(projects: ProjectsValue): seq<ProjectEntry> {
    if projects.ProjectsArray? then projects.entries else []
  }

  /** Lines 185-268: the new `projects` field, or `None` where the rewrite throws. */
  function RewriteProjects(projects: ProjectsValue, pool: seq<Link>): (r: Option<ProjectsValue>)
    ensures pool == [] ==> r == Some(projects)
    ensures r.None? <==> pool != [] && exists i :: 0 <= i < |ProjectList(projects)| && ProjectList(projects)[i].NullProject?
    ensures r.Some? && pool != [] ==> r.value.ProjectsArray? && |r.value.entries| >= Max(1, |ProjectList(projects)|)
  {
    if pool == [] then Some(projects)
    else if ProjectList(projects) != [] then
      match Enhance(ProjectList(projects), pool)
      case None => None
      case Some(ps) => Some(ProjectsArray(ps))
    else Some(ProjectsArray(HostedProjects("Project ", pool)))
  }

  /**
   * Lines 278-287: logging the final projects calls `forEach` on `projects`
   * and on each project's `links`, which throws for a truthy non-array and
   * for a null project.
   */
  predicate LogThrows(projects: ProjectsValue)
    ensures projects.ProjectsOther? ==> LogThrows(projects)
    ensures projects.ProjectsFalsy? ==> !LogThrows(projects)
    ensures (projects.ProjectsArray? && forall i :: 0 <= i < |projects.entries| ==>
               projects.entries[i].ProjectObj? && projects.entries[i].links.LinksArray?)
      ==> !LogThrows(projects)
  {
    || projects.ProjectsOther?
    || (projects.ProjectsArray? && exists i :: 0 <= i < |projects.entries| && !LogsSafely(projects.entries[i]))
  }

  /** A project whose `links` logging does not throw: an object whose `links` is an array or falsy. */
  predicate LogsSafely(p: ProjectEntry) {
    p.ProjectObj? && !p.links.LinksOther?
  }

  /** Lines 161-288: the merge of the extractor's links into the parsed reply. */
  function MergeSpec(data: Summary, extracted: LinkExtractor.ExtractionResult): (r: MergeOutcome)
    ensures !Mergeable(data) ==> r == Done(data)
    ensures Mergeable(data) && r.Done? ==> Mergeable(r.data) && r.data.socialLinks.SocialArray?
    ensures Mergeable(data) && Pool(extracted) == [] ==>
      (r.Thrown? <==> LogThrows(data.projects)) && (r.Done? ==> r.data.projects == data.projects)
  {
    if !Mergeable(data) then Done(data)
    else
      var social := ChooseSocial(extracted.socialLinks, data.socialLinks);
      match RewriteProjects(data.projects, Pool(extracted))
      case None => Thrown
      case Some(projects) =>
        if LogThrows(projects) then Thrown
        else Done(SummaryObject(false, SocialArray(social), projects))
  }

  /** The merge block as the handler runs it, reassigning `social_links` and `projects` in turn. */
  method Merge(data: Summary, extracted: LinkExtractor.ExtractionResult) returns (r: MergeOutcome)
    ensures r == MergeSpec(data, extracted)
  {
    if !(data.SummaryObject? && !data.hasError) {
      return Done(data);
    }
    var geminiSocialLinks := if data.socialLinks.SocialArray? then data.socialLinks.entries else [];
    var geminiProjects := if data.projects.ProjectsArray? then data.projects.entries else [];
    var socialLinks: seq<LinkEntry>;
    if |extracted.socialLinks| > 0 {
      socialLinks := ExtractedEntries(extracted.socialLinks);
    } else if |geminiSocialLinks| > 0 {
      socialLinks := geminiSocialLinks;
    } else {
      socialLinks := [];
    }
    var projects := data.projects;
    if |extracted.projectLinks| > 0 || |extracted.portfolioLinks| > 0 {
      var allProjectLinks := extracted.projectLinks + extracted.portfolioLinks;
      if |geminiProjects| > 0 {
        var enhanced := EnhanceProjects(geminiProjects, allProjectLinks);
        if enhanced.None? {
          return Thrown;
        }
        projects := ProjectsArray(enhanced.value);
      } else {
        projects := ProjectsArray(HostedProjects("Project ", allProjectLinks));
      }
    }
    if LogThrows(projects) {
      return Thrown;
    }
    return Done(SummaryObject(false, SocialArray(socialLinks), projects));
  }

  /** The response the handler sends once the summarizer has replied and the upload is done (lines 99-114, 161-300). */
  datatype Response = Ok(data: Summary, fileUrl: string) | ServerError

  /**
   * `parseJson` stands for `JSON.parse` (`None` where it throws); a reply that
   * fails to parse is sent back as `{raw, error}` and skips the merge.
   */
  function Respond(rawOutput: string, parseJson: string -> Option<Summary>,
                   extracted: LinkExtractor.ExtractionResult, fileUrl: string): (r: Response)
    ensures parseJson(StripCodeFences(rawOutput)).None? ==> r == Ok(ParseFailure(rawOutput), fileUrl)
    ensures r.Ok? ==> r.fileUrl == fileUrl
  {
    var data := match parseJson(StripCodeFences(rawOutput))
      case Some(d) => d
      case None => ParseFailure(rawOutput);
    match MergeSpec(data, extracted)
    case Thrown => ServerError
    case Done(d) => Ok(d, fileUrl)
  }

  // ---------------------------------------------------------------------------
  // Properties of the merge

  /** The social links are the extractor's if it found any, else the summarizer's non-empty array, else none. */
  lemma {:induction false} SocialChoice(data: Summary, extracted: LinkExtractor.ExtractionResult)
    requires Mergeable(data) && MergeSpec(data, extracted).Done?
    ensures var social := MergeSpec(data, extracted).data.socialLinks.entries;
      && (|extracted.socialLinks| > 0 ==> social == ExtractedEntries(extracted.socialLinks))
      && (|extracted.socialLinks| == 0 && data.socialLinks.SocialArray? && data.socialLinks.entries != [] ==>
            social == data.socialLinks.entries)
      && (|extracted.socialLinks| == 0 && (data.socialLinks.SocialNotArray? || data.socialLinks.entries == []) ==>
            social == [])
  {
  }

  /** Rewritten projects never trip the final logging: every entry is an object with an array of links. */
  lemma {:induction false} HostedProjectsLogSafely(prefix: string, ls: seq<Link>)
    ensures !LogThrows(ProjectsArray(HostedProjects(prefix, ls)))
  {
  }

  /**
   * With links in the pool and no summarizer projects (or a non-array
   * `projects`), the merge never throws and makes one `Project i` per pool
   * link, in pool order.
   */
  lemma {:induction false} MergeFreshProjects(data: Summary, extracted: LinkExtractor.ExtractionResult)
    requires Mergeable(data) && Pool(extracted) != [] && ProjectList(data.projects) == []
    ensures MergeSpec(data, extracted).Done?
    ensures var ps := MergeSpec(data, extracted).data.projects;
      ps == ProjectsArray(HostedProjects("Project ", Pool(extracted))) && |ps.entries| == |Pool(extracted)|
  {
    HostedProjectsLogSafely("Project ", Pool(extracted));
  }

  /**
   * With links in the pool and summarizer projects, the merge throws exactly
   * when one of those projects is null; otherwise the output has the original
   * projects, each filled with at most four new links, then one `Additional
   * Project i` per leftover link.
   */
  lemma {:induction false} MergeEnhancedProjects(data: Summary, extracted: LinkExtractor.ExtractionResult)
    requires Mergeable(data) && Pool(extracted) != [] && ProjectList(data.projects) != []
    ensures var gem := ProjectList(data.projects);
      MergeSpec(data, extracted).Thrown? <==> exists i :: 0 <= i < |gem| && gem[i].NullProject?
    ensures var gem := ProjectList(data.projects);
      MergeSpec(data, extracted).Done? ==>
        var out := MergeSpec(data, extracted).data.projects.entries;
        var d := Distribute(gem, Pool(extracted), Cap(|Pool(extracted)|, |gem|));
        && |out| == |gem| + |d.rest|
        && (forall i :: 0 <= i < |gem| ==> ProjectFilled(gem[i], out[i], 4))
        && out[|gem|..] == HostedProjects("Additional Project ", d.rest)
        && Gains(gem, out[..|gem|]) == Created(d.added)
  {
    var gem, pool := ProjectList(data.projects), Pool(extracted);
    EnhanceShape(gem, pool);
    if NoNullProject(gem) {
      EnhancedLogsSafely(gem, pool);
    }
  }

  /** Logging the enhanced projects never throws: every entry is a project with a links array. */
  lemma {:induction false} EnhancedLogsSafely(projects: seq<ProjectEntry>, pool: seq<Link>)
    requires projects != [] && NoNullProject(projects)
    ensures Enhance(projects, pool).Some? && !LogThrows(ProjectsArray(Enhance(projects, pool).value))
  {
    EnhanceShape(projects, pool);
    var out := Enhance(projects, pool).value;
    var d := Distribute(projects, pool, Cap(|pool|, |projects|));
    HostedProjectsLogSafely("Additional Project ", d.rest);
    forall i | 0 <= i < |out| ensures out[i].ProjectObj? && out[i].links.LinksArray? {
      if i < |projects| {
        assert ProjectFilled(projects[i], out[i], 4);
      } else {
        assert out[i] == out[|projects|..][i - |projects|];
      }
    }
  }

  /** The model of the whole route tail: the merge method agrees with the response function. */
  lemma {:induction false} RespondMergesParsedReply(rawOutput: string, parseJson: string -> Option<Summary>,
                                                    extracted: LinkExtractor.ExtractionResult, fileUrl: string)
    requires parseJson(StripCodeFences(rawOutput)).Some?
    ensures var data := parseJson(StripCodeFences(rawOutput)).value;
      && (Respond(rawOutput, parseJson, extracted, fileUrl) == ServerError <==> MergeSpec(data, extracted).Thrown?)
      && (!Mergeable(data) ==> Respond(rawOutput, parseJson, extracted, fileUrl) == Ok(data, fileUrl))
  {
  }

  /**
   * The pool the extractor hands over holds only repositories, demos,
   * portfolios and websites, so every link the merge creates is named from
   * the table, never by capitalizing its type.
   */
  lemma {:induction false} PoolNamesFromTable(parse: LinkClassifier.UrlParser, doc: LinkExtractor.Document)
    ensures var pool := Pool(LinkExtractor.Split(LinkExtractor.ChosenLinks(LinkClassifier.Classify(parse), doc)));
      forall l :: l in pool ==>
        l.linkType in {"repository", "demo", "portfolio", "website"} && CreateProjectLink(l).name == TypeName(l.linkType)
  {
    var chosen := LinkExtractor.ChosenLinks(LinkClassifier.Classify(parse), doc);
    LinkExtractor.ChosenLinksWellTyped(LinkClassifier.Classify(parse), doc);
    LinkExtractor.SplitTypes(chosen);
  }

  /** Two projects and five pool links: each project may gain up to three links. */
  lemma {:induction false} TwoProjectsFiveLinks()
    ensures Cap(5, 2) == 3
  {
    CapCases(5, 2);
  }

  /** With no summarizer projects, a single demo link becomes `Project 1`, hosted at its URL, linked as a live demo. */
  lemma {:induction false} SingleDemoLinkProject(url: string)
    ensures HostedProjects("Project ", [LinkExtractor.Link("demo", url)])
      == [ProjectObj(Some("Project 1"), Some("Project hosted at " + url),
                     LinksArray([LinkObj(Some("Live Demo"), Some("demo"), UrlText(url))]))]
  {
    var l := LinkExtractor.Link("demo", url);
    var h := HostedProjects("Project ", [l]);
    assert NatToString(1) == "1";
    assert TypeName("demo") == Some("Live Demo");
    assert CreateProjectLink(l) == LinkObj(Some("Live Demo"), Some("demo"), UrlText(url));
    assert "Project " + NatToString(0 + 1) == "Project 1";
    assert h[0] == HostedProject("Project ", 0, l);
    assert |h| == 1;
  }
}
