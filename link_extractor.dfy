/**
 * The extraction driver of the resume-link pipeline: the three strategies
 * (annotation URIs, text-pattern matches, raw-binary pattern matches), the
 * "first strategy that finds anything wins" fallback, and the split of the
 * chosen links into social, project and portfolio lists.
 *
 * PDF parsing and the regular expressions are not modelled: each strategy's
 * raw output is an input. Annotation URIs come per page, one string per
 * annotation ("" when the annotation carries no URI); pattern matches come
 * per pattern, in match order. `None` stands for a strategy whose PDF
 * library call threw, which the strategy turns into an empty result.
 */
module LinkExtractor {
  import opened Wrappers
  import opened Text
  import opened LinkClassifier
  import opened Subsequences

  /** `{type, url}`: a link without its category. */
  datatype Link = Link(linkType: string, url: string)

  /** What the three strategies see in one document. */
  datatype Document = Document(
    annotationUris: Option<seq<seq<string>>>,
    textMatches: Option<seq<seq<string>>>,
    binaryMatches: seq<seq<string>>)

  datatype ExtractionResult = ExtractionResult(
    socialLinks: seq<Link>, projectLinks: seq<Link>, portfolioLinks: seq<Link>)

  function Flatten(xss: seq<seq<string>>): seq<string> {
    if xss == [] then [] else xss[0] + Flatten(xss[1..])
  }

  lemma {:induction false} FlattenCons(xss: seq<seq<string>>, p: nat)
    requires p < |xss|
    ensures Flatten(xss[p..]) == xss[p] + Flatten(xss[p + 1..])
  {
    assert xss[p..][1..] == xss[p + 1..];
  }

  /** `links.find(link => link.url === u)` finds something. */
  predicate HasUrl(links: seq<ClassifiedLink>, u: string) {
    exists i :: 0 <= i < |links| && links[i].url == u
  }

  predicate DistinctUrls(links: seq<ClassifiedLink>) {
    forall i, j :: 0 <= i < j < |links| ==> links[i].url != links[j].url
  }

  // ---------------------------------------------------------------------------
  // Specifications of the strategy loops

  /** Every candidate classified in order, rejections dropped, repeats kept. */
  function ClassifyAll(classify: Classifier, cands: seq<string>): (r: seq<ClassifiedLink>)
    ensures |r| <= |cands|
    ensures forall l :: l in r ==> l.category == CategoryOf(l.linkType)
  {
    if cands == [] then [] else OneLink(classify, cands[0]) + ClassifyAll(classify, cands[1..])
  }

  /** Classification works candidate by candidate: classifying a concatenation concatenates the results. */
  lemma {:induction false} ClassifyAllAppend(classify: Classifier, a: seq<string>, b: seq<string>)
    ensures ClassifyAll(classify, a + b) == ClassifyAll(classify, a) + ClassifyAll(classify, b)
    decreases |a|
  {
    if a == [] {
      assert a + b == b;
    } else {
      assert (a + b)[0] == a[0] && (a + b)[1..] == a[1..] + b;
      ClassifyAllAppend(classify, a[1..], b);
    }
  }

  /** The link `categorizeAllLinks` makes of one candidate, as a list of zero or one. */
  function OneLink(classify: Classifier, cand: string): (r: seq<ClassifiedLink>)
    ensures |r| <= 1 && (r == [] <==> classify(cand).None?)
    ensures cand == "" ==> r == []
    ensures r != [] ==> r[0].url == Trim(cand) && r[0].category == CategoryOf(r[0].linkType)
  {
    assert FitsAt(classify, cand);
    match classify(cand)
    case Some(l) => [l]
    case None => []
  }

  lemma OneLinkSome(classify: Classifier, cand: string)
    requires classify(cand).Some?
    ensures OneLink(classify, cand) == [classify(cand).value]
  {
  }

  /** What one turn does with the trimmed URL `u`: skip it if already found, else keep its link if it classifies. */
  function Admit(classify: Classifier, found: seq<ClassifiedLink>, u: string): (r: seq<ClassifiedLink>)
    ensures |found| <= |r| <= |found| + 1 && r[..|found|] == found
  {
    if HasUrl(found, u) then found
    else match classify(u)
      case Some(l) => found + [l]
      case None => found
  }

  /** One turn of the text and binary loop: trim, skip a URL already found, keep it if it classifies. */
  function CollectStep(classify: Classifier, found: seq<ClassifiedLink>, cand: string): (r: seq<ClassifiedLink>)
    ensures |found| <= |r| <= |found| + 1 && r[..|found|] == found
  {
    Admit(classify, found, Trim(cand))
  }

  /**
   * One turn adds a link exactly when the trimmed candidate's URL is new and
   * the candidate classifies; the link is that classification, with the
   * trimmed URL.
   */
  lemma CollectStepAdds(classify: Classifier, found: seq<ClassifiedLink>, cand: string)
    ensures var r, u := CollectStep(classify, found, cand), Trim(cand);
      && (|r| > |found| <==> !HasUrl(found, u) && classify(u).Some?)
      && (|r| > |found| ==> r[|found|] == classify(u).value && r[|found|].url == u)
  {
    assert FitsAt(classify, Trim(cand));
  }

  /** The text and binary loop over all candidates, starting from the links in `found`. */
  function Collect(classify: Classifier, cands: seq<string>, found: seq<ClassifiedLink>): (r: seq<ClassifiedLink>)
    ensures |found| <= |r| <= |found| + |cands| && r[..|found|] == found
    decreases |cands|
  {
    if cands == [] then found
    else
      var next := CollectStep(classify, found, cands[0]);
      var r := Collect(classify, cands[1..], next);
      assert r[..|found|] == r[..|next|][..|found|];
      r
  }

  lemma {:induction false} CollectAppend(classify: Classifier, a: seq<string>, b: seq<string>, found: seq<ClassifiedLink>)
    ensures Collect(classify, a + b, found) == Collect(classify, b, Collect(classify, a, found))
    decreases |a|
  {
    if a != [] {
      assert (a + b)[1..] == a[1..] + b;
      CollectAppend(classify, a[1..], b, CollectStep(classify, found, a[0]));
    } else {
      assert a + b == b;
    }
  }

  /** Reference deduplicator: drop every link whose URL an earlier kept link has. */
  function Dedup(links: seq<ClassifiedLink>, kept: seq<ClassifiedLink>): seq<ClassifiedLink>
    decreases |links|
  {
    if links == [] then kept
    else if HasUrl(kept, links[0].url) then Dedup(links[1..], kept)
    else Dedup(links[1..], kept + [links[0]])
  }

  function TrimAll(cands: seq<string>): (r: seq<string>)
    ensures |r| == |cands| && forall i :: 0 <= i < |cands| ==> r[i] == Trim(cands[i])
  {
    seq(|cands|, i requires 0 <= i < |cands| => Trim(cands[i]))
  }

  function AnnotationLinks(classify: Classifier, pages: Option<seq<seq<string>>>): seq<ClassifiedLink> {
    match pages
    case None => []
    case Some(ps) => ClassifyAll(classify, Flatten(ps))
  }

  function TextLinks(classify: Classifier, matches: Option<seq<seq<string>>>): seq<ClassifiedLink> {
    match matches
    case None => []
    case Some(ms) => Collect(classify, Flatten(ms), [])
  }

  function BinaryLinks(classify: Classifier, matches: seq<seq<string>>): seq<ClassifiedLink> {
    Collect(classify, Flatten(matches), [])
  }

  /** The links of the first strategy that found any, tried in the order annotations, text, binary. */
  function ChosenLinks(classify: Classifier, doc: Document): (r: seq<ClassifiedLink>)
    ensures var a, t := AnnotationLinks(classify, doc.annotationUris), TextLinks(classify, doc.textMatches);
      || (a != [] && r == a)
      || (a == [] && t != [] && r == t)
      || (a == [] && t == [] && r == BinaryLinks(classify, doc.binaryMatches))
  {
    var annotations := AnnotationLinks(classify, doc.annotationUris);
    if annotations != [] then annotations
    else
      var text := TextLinks(classify, doc.textMatches);
      if text != [] then text else BinaryLinks(classify, doc.binaryMatches)
  }

  /** `{type, url}` of a classified link. */
  function Plain(l: ClassifiedLink): Link {
    Link(l.linkType, l.url)
  }

  /** `convertToSocialLinks`: drop the categories, keep length and order. */
  function ConvertToSocialLinks(links: seq<ClassifiedLink>): (r: seq<Link>)
    ensures |r| == |links|
    ensures forall i :: 0 <= i < |links| ==> r[i].linkType == links[i].linkType && r[i].url == links[i].url
  {
    seq(|links|, i requires 0 <= i < |links| => Plain(links[i]))
  }

  /** `links.filter(l => l.category === c).map(l => ({type, url}))`. */
  function OfCategory(links: seq<ClassifiedLink>, c: Category): (r: seq<Link>)
    ensures |r| <= |links|
    ensures (forall i :: 0 <= i < |links| ==> links[i].category == c) ==> |r| == |links|
    ensures (forall i :: 0 <= i < |links| ==> links[i].category != c) ==> r == []
  {
    if links == [] then []
    else (if links[0].category == c then [Plain(links[0])] else []) + OfCategory(links[1..], c)
  }

  /** Lines 72-82: the chosen links, split by category into three lists of `{type, url}`. */
  function Split(links: seq<ClassifiedLink>): (r: ExtractionResult)
    ensures |r.socialLinks| + |r.projectLinks| + |r.portfolioLinks| == |links|
  {
    SplitSizes(links);
    ExtractionResult(OfCategory(links, Social), OfCategory(links, Project), OfCategory(links, Portfolio))
  }

  // ---------------------------------------------------------------------------
  // The strategy loops and the fallback

  /** `extractFromAnnotations` once the PDF has loaded: every non-empty URI that classifies, repeats included. */
  method ExtractFromAnnotations(classify: Classifier, pages: Option<seq<seq<string>>>) returns (links: seq<ClassifiedLink>)
    ensures links == AnnotationLinks(classify, pages)
  {
    links := [];
    if pages.None? {
      return;
    }
    var ps := pages.value;
    for p := 0 to |ps|
      invariant links + ClassifyAll(classify, Flatten(ps[p..])) == ClassifyAll(classify, Flatten(ps))
    {
      FlattenCons(ps, p);
      ClassifyAllAppend(classify, ps[p], Flatten(ps[p + 1..]));
      var pageLinks := ClassifyPage(classify, ps[p]);
      AppendAssoc(links, pageLinks, ClassifyAll(classify, Flatten(ps[p + 1..])));
      links := links + pageLinks;
    }
    assert ps[|ps|..] == [];
  }

  lemma ClassifyAllSnoc(classify: Classifier, cands: seq<string>, k: nat)
    requires k < |cands|
    ensures ClassifyAll(classify, cands[..k + 1]) == ClassifyAll(classify, cands[..k]) + OneLink(classify, cands[k])
  {
    assert cands[..k + 1] == cands[..k] + [cands[k]];
    ClassifyAllAppend(classify, cands[..k], [cands[k]]);
    assert [cands[k]][1..] == [];
  }

  /** The inner loop over one page's annotations: each non-empty URI that classifies, in order. */
  method ClassifyPage(classify: Classifier, annots: seq<string>) returns (links: seq<ClassifiedLink>)
    ensures links == ClassifyAll(classify, annots)
  {
    links := [];
    for k := 0 to |annots|
      invariant links == ClassifyAll(classify, annots[..k])
    {
      ClassifyAllSnoc(classify, annots, k);
      var url := annots[k];
      if url != "" {
        var categorized := classify(url);
        if categorized.Some? {
          OneLinkSome(classify, url);
          links := links + [categorized.value];
        }
      }
    }
    assert annots[..|annots|] == annots;
  }

  /** The loop shared by `extractFromText` and `extractFromBinary`: patterns in order, matches in order. */
  method ScanMatches(classify: Classifier, matches: seq<seq<string>>) returns (links: seq<ClassifiedLink>)
    ensures links == Collect(classify, Flatten(matches), [])
  {
    links := [];
    for p := 0 to |matches|
      invariant Collect(classify, Flatten(matches[p..]), links) == Collect(classify, Flatten(matches), [])
    {
      FlattenCons(matches, p);
      var found := matches[p];
      CollectAppend(classify, found, Flatten(matches[p + 1..]), links);
      ghost var start := links;
      for k := 0 to |found|
        invariant Collect(classify, found[k..], links) == Collect(classify, found, start)
      {
        assert found[k..][1..] == found[k + 1..];
        ghost var before := links;
        var cleanUrl := Trim(found[k]);
        if !HasUrl(links, cleanUrl) {
          var categorized := classify(cleanUrl);
          if categorized.Some? {
            links := links + [categorized.value];
          }
        }
        assert links == CollectStep(classify, before, found[k]);
      }
      assert found[|found|..] == [];
    }
  }

  /** `extractFromText`: a failed text extraction yields nothing. */
  method ExtractFromText(classify: Classifier, matches: Option<seq<seq<string>>>) returns (links: seq<ClassifiedLink>)
    ensures links == TextLinks(classify, matches)
  {
    links := [];
    if matches.Some? {
      links := ScanMatches(classify, matches.value);
    }
  }

  /** `extractAllPdfLinks`: fall back strategy by strategy, then split by category. */
  method ExtractAllPdfLinks(parse: UrlParser, doc: Document) returns (r: ExtractionResult, ghost strategiesRun: nat)
    ensures var classify := Classify(parse);
      r == Split(ChosenLinks(classify, doc))
    ensures var classify := Classify(parse);
      strategiesRun == 1 <==> AnnotationLinks(classify, doc.annotationUris) != []
    ensures var classify := Classify(parse);
      strategiesRun == 3 <==> AnnotationLinks(classify, doc.annotationUris) == [] && TextLinks(classify, doc.textMatches) == []
    ensures 1 <= strategiesRun <= 3
  {
    var classify := Classify(parse);
    var allLinks := ExtractFromAnnotations(classify, doc.annotationUris);
    strategiesRun := 1;
    if |allLinks| == 0 {
      allLinks := ExtractFromText(classify, doc.textMatches);
      strategiesRun := 2;
    }
    if |allLinks| == 0 {
      allLinks := ScanMatches(classify, doc.binaryMatches);
      strategiesRun := 3;
    }
    r := ExtractionResult(OfCategory(allLinks, Social), OfCategory(allLinks, Project), OfCategory(allLinks, Portfolio));
  }

  /** `extractPdfLinks`: the same fallback, returning every chosen link as `{type, url}`. */
  method ExtractPdfLinks(parse: UrlParser, doc: Document) returns (links: seq<Link>)
    ensures links == ConvertToSocialLinks(ChosenLinks(Classify(parse), doc))
  {
    var classify := Classify(parse);
    var allLinks := ExtractFromAnnotations(classify, doc.annotationUris);
    if |allLinks| > 0 {
      return ConvertToSocialLinks(allLinks);
    }
    allLinks := ExtractFromText(classify, doc.textMatches);
    if |allLinks| > 0 {
      return ConvertToSocialLinks(allLinks);
    }
    allLinks := ScanMatches(classify, doc.binaryMatches);
    links := ConvertToSocialLinks(allLinks);
  }

  // ---------------------------------------------------------------------------
  // Properties

  lemma ClassifyTrimAllCons(classify: Classifier, cands: seq<string>)
    requires cands != []
    ensures ClassifyAll(classify, TrimAll(cands)) == OneLink(classify, Trim(cands[0])) + ClassifyAll(classify, TrimAll(cands[1..]))
  {
    var all := TrimAll(cands);
    assert all[0] == Trim(cands[0]) && all[1..] == TrimAll(cands[1..]);
  }

  lemma DedupOneLink(classify: Classifier, u: string, rest: seq<ClassifiedLink>, found: seq<ClassifiedLink>)
    requires classify(u).Some? ==> classify(u).value.url == u
    ensures Dedup(OneLink(classify, u) + rest, found) == Dedup(rest, Admit(classify, found, u))
  {
    if classify(u).Some? {
      var l := classify(u).value;
      OneLinkSome(classify, u);
      assert ([l] + rest)[0] == l && ([l] + rest)[1..] == rest;
    } else {
      assert OneLink(classify, u) + rest == rest;
    }
  }

  /** A link made of a trimmed candidate carries exactly that trimmed URL. */
  lemma TrimmedFits(classify: Classifier, cand: string)
    ensures classify(Trim(cand)).Some? ==> classify(Trim(cand)).value.url == Trim(cand)
  {
    TrimIdempotent(cand);
    assert FitsAt(classify, Trim(cand));
  }

  /** One turn of the loop is one turn of the deduplicator over what `categorizeAllLinks` made of the candidate. */
  lemma DedupCollectStep(classify: Classifier, cand: string, rest: seq<ClassifiedLink>, found: seq<ClassifiedLink>)
    ensures Dedup(OneLink(classify, Trim(cand)) + rest, found) == Dedup(rest, CollectStep(classify, found, cand))
  {
    TrimmedFits(classify, cand);
    DedupOneLink(classify, Trim(cand), rest, found);
  }

  /** Deduplicating while classifying, as the loop does, equals classifying everything and then deduplicating. */
  lemma {:induction false} CollectIsClassifyThenDedup(classify: Classifier, cands: seq<string>, found: seq<ClassifiedLink>)
    ensures Collect(classify, cands, found) == Dedup(ClassifyAll(classify, TrimAll(cands)), found)
    decreases |cands|
  {
    if cands != [] {
      ClassifyTrimAllCons(classify, cands);
      DedupCollectStep(classify, cands[0], ClassifyAll(classify, TrimAll(cands[1..])), found);
      CollectIsClassifyThenDedup(classify, cands[1..], CollectStep(classify, found, cands[0]));
    }
  }

  /** The deduplicator keeps the links it started from, in front. */
  lemma {:induction false} DedupExtends(links: seq<ClassifiedLink>, kept: seq<ClassifiedLink>)
    ensures |kept| <= |Dedup(links, kept)| && Dedup(links, kept)[..|kept|] == kept
    decreases |links|
  {
    if links != [] {
      var next := if HasUrl(kept, links[0].url) then kept else kept + [links[0]];
      DedupExtends(links[1..], next);
    }
  }

  /** Starting from distinct URLs, the deduplicator ends with distinct URLs, and every input URL is present. */
  lemma {:induction false} DedupDistinct(links: seq<ClassifiedLink>, kept: seq<ClassifiedLink>)
    requires DistinctUrls(kept)
    ensures DistinctUrls(Dedup(links, kept))
    ensures forall i :: 0 <= i < |links| ==> HasUrl(Dedup(links, kept), links[i].url)
    ensures forall l :: l in Dedup(links, kept) ==> l in kept || l in links
    decreases |links|
  {
    if links != [] {
      var next := if HasUrl(kept, links[0].url) then kept else kept + [links[0]];
      DedupDistinct(links[1..], next);
      DedupExtends(links[1..], next);
      var r := Dedup(links, kept);
      if !HasUrl(kept, links[0].url) {
        assert next[|kept|] == links[0];
      }
      var w :| 0 <= w < |next| && next[w].url == links[0].url;
      assert r[w] == next[w];
      forall i | 0 <= i < |links| ensures HasUrl(r, links[i].url) {
        if i > 0 {
          assert links[i] == links[1..][i - 1];
        }
      }
    }
  }

  /** `links[i]` has a URL seen neither in `kept` nor earlier in `links`. */
  predicate FirstNew(links: seq<ClassifiedLink>, kept: seq<ClassifiedLink>, i: nat)
    requires i < |links|
  {
    !HasUrl(kept, links[i].url) && !HasUrl(links[..i], links[i].url)
  }

  /** A first occurrence in the tail is one in the whole when the head has another URL. */
  lemma FirstNewCons(links: seq<ClassifiedLink>, kept: seq<ClassifiedLink>, i: nat)
    requires 1 + i < |links| && FirstNew(links[1..], kept, i) && links[0].url != links[1 + i].url
    ensures FirstNew(links, kept, 1 + i)
  {
    var u := links[1 + i].url;
    assert links[1..][i] == links[1 + i];
    forall k | 0 <= k < 1 + i ensures links[k].url != u {
      if k > 0 {
        assert links[k] == links[1..][..i][k - 1];
      }
    }
  }

  /** A link new to `kept + [x]` is new to `kept` and has a URL other than `x`'s. */
  lemma FirstNewPast(links: seq<ClassifiedLink>, kept: seq<ClassifiedLink>, x: ClassifiedLink, i: nat)
    requires i < |links| && FirstNew(links, kept + [x], i)
    ensures FirstNew(links, kept, i) && x.url != links[i].url
  {
    var next := kept + [x];
    forall w | 0 <= w < |kept| ensures kept[w].url != links[i].url {
      assert next[w] == kept[w];
    }
    assert next[|kept|] == x;
  }

  /** The link the deduplicator keeps for a URL is the first link in the input with that URL. */
  lemma {:induction false} DedupKeepsFirst(links: seq<ClassifiedLink>, kept: seq<ClassifiedLink>, j: nat)
    requires |kept| <= j < |Dedup(links, kept)|
    ensures exists i :: 0 <= i < |links| && links[i] == Dedup(links, kept)[j] && FirstNew(links, kept, i)
    decreases |links|
  {
    var r := Dedup(links, kept);
    if links == [] {
      assert false;
    } else if HasUrl(kept, links[0].url) {
      DedupKeepsFirst(links[1..], kept, j);
      var i :| 0 <= i < |links[1..]| && links[1..][i] == r[j] && FirstNew(links[1..], kept, i);
      FirstNewCons(links, kept, i);
    } else {
      var next := kept + [links[0]];
      DedupExtends(links[1..], next);
      if j == |kept| {
        assert r[j] == next[j] == links[0];
        assert FirstNew(links, kept, 0);
      } else {
        DedupKeepsFirst(links[1..], next, j);
        var i :| 0 <= i < |links[1..]| && links[1..][i] == r[j] && FirstNew(links[1..], next, i);
        FirstNewPast(links[1..], kept, links[0], i);
        FirstNewCons(links, kept, i);
      }
    }
  }

  /** The text and binary strategies never return two links with the same URL. */
  lemma {:induction false} ScanMatchesDistinct(classify: Classifier, matches: seq<seq<string>>)
    ensures DistinctUrls(Collect(classify, Flatten(matches), []))
  {
    CollectIsClassifyThenDedup(classify, Flatten(matches), []);
    DedupDistinct(ClassifyAll(classify, TrimAll(Flatten(matches))), []);
  }

  /** The annotation strategy does not deduplicate: one URI on two annotations gives two equal links. */
  lemma {:induction false} AnnotationsKeepRepeats(classify: Classifier, uri: string)
    requires classify(uri).Some?
    ensures var l := classify(uri).value;
      AnnotationLinks(classify, Some([[uri], [uri]])) == [l, l]
  {
    var ps := [[uri], [uri]];
    assert ps[1..][1..] == [];
    assert Flatten(ps[1..]) == [uri] + Flatten([]) == [uri];
    assert Flatten(ps) == [uri] + [uri] == [uri, uri];
    var l := classify(uri).value;
    assert [uri, uri][1..] == [uri] && [uri][1..] == [];
    assert ClassifyAll(classify, [uri]) == [l];
  }

  /** The fallback yields nothing only when every strategy yields nothing. */
  lemma {:induction false} ChosenEmptyOnlyIfAllEmpty(classify: Classifier, doc: Document)
    ensures ChosenLinks(classify, doc) == [] <==>
      AnnotationLinks(classify, doc.annotationUris) == [] && TextLinks(classify, doc.textMatches) == []
      && BinaryLinks(classify, doc.binaryMatches) == []
  {
  }

  /** Once the annotations yield a link, the text and binary inputs do not matter. */
  lemma {:induction false} AnnotationsShortCircuit(classify: Classifier, doc: Document,
                                                   text: Option<seq<seq<string>>>, binary: seq<seq<string>>)
    requires AnnotationLinks(classify, doc.annotationUris) != []
    ensures ChosenLinks(classify, doc) == ChosenLinks(classify, doc.(textMatches := text, binaryMatches := binary))
    ensures ChosenLinks(classify, doc) == AnnotationLinks(classify, doc.annotationUris)
  {
  }

  /** Once the text yields a link after empty annotations, the binary input does not matter. */
  lemma {:induction false} TextShortCircuit(classify: Classifier, doc: Document, binary: seq<seq<string>>)
    requires AnnotationLinks(classify, doc.annotationUris) == [] && TextLinks(classify, doc.textMatches) != []
    ensures ChosenLinks(classify, doc) == ChosenLinks(classify, doc.(binaryMatches := binary))
    ensures ChosenLinks(classify, doc) == TextLinks(classify, doc.textMatches)
  {
  }

  /** Every chosen link carries the category of its type, whichever strategy produced it. */
  lemma {:induction false} ChosenLinksWellTyped(classify: Classifier, doc: Document)
    ensures forall l :: l in ChosenLinks(classify, doc) ==> l.category == CategoryOf(l.linkType)
    ensures doc.textMatches.None? || DistinctUrls(TextLinks(classify, doc.textMatches))
    ensures DistinctUrls(BinaryLinks(classify, doc.binaryMatches))
  {
    if doc.textMatches.Some? {
      var cands := Flatten(doc.textMatches.value);
      CollectIsClassifyThenDedup(classify, cands, []);
      DedupDistinct(ClassifyAll(classify, TrimAll(cands)), []);
    }
    var cands := Flatten(doc.binaryMatches);
    CollectIsClassifyThenDedup(classify, cands, []);
    DedupDistinct(ClassifyAll(classify, TrimAll(cands)), []);
  }

  lemma OfCategoryCons(links: seq<ClassifiedLink>, c: Category)
    requires links != []
    ensures var head := if links[0].category == c then multiset{Plain(links[0])} else multiset{};
      && multiset(OfCategory(links, c)) == head + multiset(OfCategory(links[1..], c))
      && |OfCategory(links, c)| == |head| + |OfCategory(links[1..], c)|
  {
  }

  lemma ConvertCons(links: seq<ClassifiedLink>)
    requires links != []
    ensures ConvertToSocialLinks(links) == [Plain(links[0])] + ConvertToSocialLinks(links[1..])
  {
  }

  /** The three category lists are an exact partition of the chosen links. */
  lemma {:induction false} SplitPartitions(links: seq<ClassifiedLink>)
    ensures var r := Split(links);
      multiset(r.socialLinks) + multiset(r.projectLinks) + multiset(r.portfolioLinks)
        == multiset(ConvertToSocialLinks(links))
      && |r.socialLinks| + |r.projectLinks| + |r.portfolioLinks| == |links|
  {
    SplitMultisets(links);
  }

  lemma {:induction false} SplitMultisets(links: seq<ClassifiedLink>)
    ensures multiset(OfCategory(links, Social)) + multiset(OfCategory(links, Project)) + multiset(OfCategory(links, Portfolio))
      == multiset(ConvertToSocialLinks(links))
  {
    if links != [] {
      SplitMultisets(links[1..]);
      ConvertCons(links);
      OfCategoryCons(links, Social);
      OfCategoryCons(links, Project);
      OfCategoryCons(links, Portfolio);
    }
  }

  lemma {:induction false} SplitSizes(links: seq<ClassifiedLink>)
    ensures |OfCategory(links, Social)| + |OfCategory(links, Project)| + |OfCategory(links, Portfolio)| == |links|
  {
    if links != [] {
      SplitSizes(links[1..]);
      OfCategoryCons(links, Social);
      OfCategoryCons(links, Project);
      OfCategoryCons(links, Portfolio);
    }
  }

  /** Each category list keeps the order of the chosen links. */
  lemma {:induction false} OfCategoryKeepsOrder(links: seq<ClassifiedLink>, c: Category)
    ensures IsSubsequence(OfCategory(links, c), ConvertToSocialLinks(links))
    ensures forall x :: x in OfCategory(links, c) <==>
      exists i :: 0 <= i < |links| && links[i].category == c && Plain(links[i]) == x
  {
    OfCategoryOrder(links, c);
    OfCategoryMembers(links, c);
  }

  lemma {:induction false} OfCategoryOrder(links: seq<ClassifiedLink>, c: Category)
    ensures IsSubsequence(OfCategory(links, c), ConvertToSocialLinks(links))
  {
    if links != [] {
      OfCategoryOrder(links[1..], c);
      var all, mine := ConvertToSocialLinks(links), OfCategory(links, c);
      assert all[1..] == ConvertToSocialLinks(links[1..]);
      if links[0].category == c {
        assert mine[0] == all[0] && mine[1..] == OfCategory(links[1..], c);
      } else {
        assert mine == OfCategory(links[1..], c);
      }
    }
  }

  lemma {:induction false} OfCategoryMembers(links: seq<ClassifiedLink>, c: Category)
    ensures forall x :: x in OfCategory(links, c) <==>
      exists i :: 0 <= i < |links| && links[i].category == c && Plain(links[i]) == x
  {
    if links != [] {
      OfCategoryMembers(links[1..], c);
      var head := if links[0].category == c then [Plain(links[0])] else [];
      assert OfCategory(links, c) == head + OfCategory(links[1..], c);
      forall x ensures x in OfCategory(links, c) <==>
        exists i :: 0 <= i < |links| && links[i].category == c && Plain(links[i]) == x
      {
        if x in OfCategory(links, c) && !(links[0].category == c && Plain(links[0]) == x) {
          var i :| 0 <= i < |links[1..]| && links[1..][i].category == c && Plain(links[1..][i]) == x;
          assert links[i + 1] == links[1..][i];
        }
        if exists i :: 0 <= i < |links| && links[i].category == c && Plain(links[i]) == x {
          var i :| 0 <= i < |links| && links[i].category == c && Plain(links[i]) == x;
          if i > 0 {
            assert links[1..][i - 1] == links[i];
          }
        }
      }
    }
  }

  /** Project links are repositories and demos; portfolio links are portfolios and websites. */
  lemma {:induction false} SplitTypes(links: seq<ClassifiedLink>)
    requires forall l :: l in links ==> l.category == CategoryOf(l.linkType)
    ensures forall x :: x in Split(links).projectLinks ==> x.linkType in {"repository", "demo"}
    ensures forall x :: x in Split(links).portfolioLinks ==> x.linkType in {"portfolio", "website"}
    ensures forall x :: x in Split(links).socialLinks ==> x.linkType !in {"repository", "demo", "portfolio", "website"}
  {
    OfCategoryTypes(links, Social);
    OfCategoryTypes(links, Project);
    OfCategoryTypes(links, Portfolio);
  }

  /** Every link filed under `c` has a type whose category is `c`. */
  lemma OfCategoryTypes(links: seq<ClassifiedLink>, c: Category)
    requires forall l :: l in links ==> l.category == CategoryOf(l.linkType)
    ensures forall x :: x in OfCategory(links, c) ==> CategoryOf(x.linkType) == c
  {
    OfCategoryMembers(links, c);
    forall x | x in OfCategory(links, c) ensures CategoryOf(x.linkType) == c {
      var i :| 0 <= i < |links| && links[i].category == c && Plain(links[i]) == x;
      assert links[i] in links;
    }
  }
}
