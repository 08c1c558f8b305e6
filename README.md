# Resume-link pipeline: a Dafny model

This project models the link pipeline of a job-application web app. A resume
PDF is uploaded. Link candidates are pulled out of it by three strategies:
annotation URIs, text-pattern matches and raw-binary pattern matches. Each
candidate is classified as a social, project or portfolio link. The project
and portfolio links are then merged into the project list produced by an AI
summarizer of the same resume. A small second part models the job-queue
status route, which counts a user's queued applications per status.

Modules:

- `Text` (text.dfy): the JavaScript string operations the code relies on.
  These are `trim` with the full ECMAScript white-space set, `includes`,
  `startsWith`, ASCII `toLowerCase`, capitalizing the first letter, and
  rendering a number in a template string.
- `LinkClassifier` and `LinkClassifierProperties` (link_classifier.dfy):
  `categorizeAllLinks`. It is an ordered chain of rules:
  - the bare-domain deny list;
  - the domain-only rejection;
  - the `includes` platform rules;
  - the code-host depth rule;
  - the hosting, domain and keyword rules.

  URL parsing (`new URL`) is an abstract parser passed as a parameter. It
  returns pathname, search and hash, or fails. `Classify(parse)` is
  `categorizeAllLinks` with that parser fixed, as one function value.
- `LinkExtractor` (link_extractor.dfy): the three strategy loops, the
  "first strategy that finds anything wins" fallback of `extractAllPdfLinks`
  and `extractPdfLinks`, and the split into three category lists. Each
  strategy's raw output is an input: URIs per page, or regex matches per
  pattern. `None` stands for a strategy whose PDF library call threw. The
  strategies are stated over a `Classifier`: any function that rejects the
  empty string and gives every link the trimmed input as its URL and the
  category of its type. `Classify(parse)` is one, and the two entry points
  use it.
- `Subsequences` (subsequences.dfy): order-preserving selections and
  shuffles. They are used to state conservation.
- `ResumeExtract` (resume_extract.dfy): the parts of the resume-extract
  route that this model covers:
  - code-fence stripping;
  - `createProjectLink`;
  - the merge block: the social-link choice, cleaning each project's links,
    the per-project quota, draining the shared pool from the front, and
    leftover and synthetic projects;
  - the final logging that can throw.

  `JSON.parse` is a parameter.
- `QueueStatus` (queue_status.dfy): the `GET` job-queue-status route. The
  database query is a parameter. The route counts rows per status into a
  record seeded with four zero keys.

Loops in the source are methods with loops here, each proved equal to a
specification function:
- the annotation loop;
- the deduplicating text and binary loop;
- the fallback;
- the per-project `while` loop with `shift`;
- the `map` over projects;
- the leftover `forEach`;
- the merge block;
- the status `reduce`.

The properties of each specification function are proved as lemmas.

## Model

| member | source | states |
|---|---|---|
| Text.Trim | lib/pdfLinkExtractor.ts:341 | the result has no leading or trailing white space and is no longer than the input |
| Text.TrimIsSlice | lib/pdfLinkExtractor.ts:341 | the trimmed string is a contiguous slice of the input, and everything cut off on either side is white space |
| Text.TrimIdempotent | lib/pdfLinkExtractor.ts:253 | trimming an already trimmed candidate changes nothing, so classifying a trimmed URL trims nothing more |
| LinkClassifier.PlatformRule | lib/pdfLinkExtractor.ts:377-425 | a link from a platform rule is always in the social category, carries the URL unchanged and has the category of its type |
| LinkClassifier.CodeHostRule | lib/pdfLinkExtractor.ts:427-455 | a code-host rule yields only `repository`, `github`, `gitlab` or `bitbucket` |
| LinkClassifier.HostingRule | lib/pdfLinkExtractor.ts:457-495 | a hosting-domain rule yields only `demo` |
| LinkClassifier.DomainRule | lib/pdfLinkExtractor.ts:497-503 | the TLD rule yields only `portfolio` |
| LinkClassifier.KeywordRule | lib/pdfLinkExtractor.ts:505-530 | the keyword fallback yields a link exactly when the URL starts with `http://` or `https://`, typed `demo`, `portfolio` or `website` |
| LinkClassifier.Rules | lib/pdfLinkExtractor.ts:377-530 | any produced link carries the URL unchanged and the category that matches its type |
| LinkClassifier.Categorize | lib/pdfLinkExtractor.ts:336-531 | a link is returned only when the input is non-empty and its trimmed form is not a bare domain, parses, and is not domain-only; when those hold, the result is the rule chain's answer on the trimmed input, which may be null; a link's `url` is the trimmed input |
| LinkClassifier.Classify | lib/pdfLinkExtractor.ts:336-531 | `categorizeAllLinks` as a function value agrees with `Categorize` on every input, and so rejects the empty string and gives each link the trimmed URL and the category of its type |
| LinkClassifierProperties.PlatformRuleFires | lib/pdfLinkExtractor.ts:377-425 | the platform rules fire exactly when the URL contains one of their substrings |
| LinkClassifierProperties.CodeHostRuleFires | lib/pdfLinkExtractor.ts:428-455 | the code-host rule fires exactly when the URL contains `github.com`, `gitlab.com` or `bitbucket.org` |
| LinkClassifierProperties.HostingRuleFires | lib/pdfLinkExtractor.ts:458-495 | the hosting rule fires exactly when the URL contains one of the hosting domains |
| LinkClassifierProperties.DomainRuleFires | lib/pdfLinkExtractor.ts:498-503 | the TLD rule fires exactly when the URL contains `.dev`, `.tech`, `.me`, or `.io` without `github.io` |
| LinkClassifierProperties.RulesAcceptExactly | lib/pdfLinkExtractor.ts:377-530 | the rule chain returns null exactly for a non-http(s) URL that contains none of the rule substrings |
| LinkClassifierProperties.LinkedInFirst | lib/pdfLinkExtractor.ts:378-380 | any URL containing `linkedin.com` is a social `linkedin` link, whatever else it contains, so it is never a repository |
| LinkClassifierProperties.XComIsTwitter | lib/pdfLinkExtractor.ts:382-384 | a URL containing `x.com` anywhere (and not `linkedin.com`) is a social `twitter` link |
| LinkClassifierProperties.RepositoryOnlyFromCodeHosts | lib/pdfLinkExtractor.ts:428-455 | a `repository` link comes only from a URL that contains no platform substring and has a code host followed by two non-empty `/`-separated segments |
| LinkClassifierProperties.CodeHostDepth | lib/pdfLinkExtractor.ts:428-455 | for GitHub, GitLab and Bitbucket alike: when no platform substring occurs and the host is the first code host the URL mentions, the link is a `repository` project link exactly when `host/owner/repo` occurs, and otherwise the host's social profile link (`github`, `gitlab`, `bitbucket`) |
| LinkClassifierProperties.OwnerRepoNeedsHost | lib/pdfLinkExtractor.ts:430 | the owner/repo pattern matches only where `host/` occurs, followed by a non-empty owner, a `/` and a repository segment, so the URL is at least four characters longer than the host |
| LinkClassifierProperties.GithubRepositoryIsProject | lib/pdfLinkExtractor.ts:428-432 | `https://github.com/owner/repo`, with non-empty slash-free owner and repo and no platform substring, is a `repository` project link |
| LinkClassifierProperties.GithubProfileIsSocial | lib/pdfLinkExtractor.ts:433-435 | `https://github.com/owner`, with or without a trailing slash, is a social `github` link |
| LinkClassifierProperties.ProfileHasNoRepository | lib/pdfLinkExtractor.ts:430-431 | a profile URL has no `github.com/<owner>/<repo>` match |
| LinkClassifierProperties.SlashesOfProfile | lib/pdfLinkExtractor.ts:430 | the only slashes after the scheme in a profile URL are the one after the host and the optional trailing one |
| LinkClassifierProperties.FallbackByKeywords | lib/pdfLinkExtractor.ts:505-528 | a URL that no earlier rule matches is classified by the keyword rule |
| LinkClassifierProperties.KeywordGroups | lib/pdfLinkExtractor.ts:506-527 | on any http(s) URL the keyword rule gives `demo` exactly when the lower-cased URL contains demo, app, project or live; `portfolio` exactly when it contains none of those but one of portfolio, resume, cv or about; and `website` exactly when it contains neither group |
| LinkClassifierProperties.KeywordRuleIgnoresCase | lib/pdfLinkExtractor.ts:508 | two http(s) URLs that differ only in letter case get the same keyword type |
| LinkClassifierProperties.DemoOutranksPortfolio | lib/pdfLinkExtractor.ts:511-523 | "https://x.org/demo-cv", which has words of both groups, is a `demo` project link |
| LinkClassifierProperties.UpperCaseKeyword | lib/pdfLinkExtractor.ts:508-515 | "https://x.org/DEMO" is a `demo` project link |
| LinkClassifierProperties.BareGithubRejected | lib/pdfLinkExtractor.ts:344-361 | `https://github.com` and `https://github.com/` classify to null, whatever the parser says |
| LinkClassifierProperties.BareDomainRejected | lib/pdfLinkExtractor.ts:344-361 | every spelling the bare-domain deny list describes (either scheme, with or without the sub-domain prefix, with or without a trailing slash) classifies to null, for each of the nine listed domains, whatever the parser says |
| LinkExtractor.OneLink | lib/pdfLinkExtractor.ts:164-168 | one candidate gives at most one link, none exactly when classification rejects it, none for the empty string, and that link carries the trimmed candidate and the category of its type |
| LinkExtractor.ClassifyAll | lib/pdfLinkExtractor.ts:165-168 | classifying a candidate list yields at most one link per candidate, each with the category of its type |
| LinkExtractor.ClassifyAllAppend | lib/pdfLinkExtractor.ts:122-168 | classification works candidate by candidate: the links of a concatenation are the links of the parts, concatenated in order |
| LinkExtractor.ConvertToSocialLinks | lib/pdfLinkExtractor.ts:105-110 | the result has the same length and order, with each element's type and url copied |
| LinkExtractor.ExtractFromAnnotations | lib/pdfLinkExtractor.ts:112-189 | the annotation loop returns every non-empty URI that classifies, page by page, repeats included; a failed load gives none |
| LinkExtractor.ClassifyPage | lib/pdfLinkExtractor.ts:134-168 | the loop over one page's annotations returns exactly the links of its non-empty URIs that classify, in annotation order |
| LinkExtractor.Admit | lib/pdfLinkExtractor.ts:256-262 | what one turn does with an already trimmed URL: the links found so far stay in front and at most one link is added |
| LinkExtractor.CollectStep | lib/pdfLinkExtractor.ts:252-263 | one turn of the text and binary loop keeps the links found so far in front and adds at most one link |
| LinkExtractor.CollectStepAdds | lib/pdfLinkExtractor.ts:252-263 | one turn adds a link exactly when the trimmed candidate's URL was not found yet and the candidate classifies; the new link is that classification and carries the trimmed URL |
| LinkExtractor.Collect | lib/pdfLinkExtractor.ts:249-265 | the loop over all candidates keeps the starting links in front and adds at most one link per candidate |
| LinkExtractor.ScanMatches | lib/pdfLinkExtractor.ts:249-265 | the nested pattern and match loop equals the specification fold: trim, skip a URL already found, keep the candidate if it classifies |
| LinkExtractor.ExtractFromText | lib/pdfLinkExtractor.ts:191-273 | a failed text extraction yields none; otherwise the scan of the matches |
| LinkExtractor.ExtractAllPdfLinks | lib/pdfLinkExtractor.ts:50-103 | with `categorizeAllLinks` as the classifier, the result is the split of the first non-empty strategy's links; the text strategy runs only after empty annotations, the binary one only after empty text too |
| LinkExtractor.ExtractPdfLinks | lib/pdfLinkExtractor.ts:14-48 | with `categorizeAllLinks` as the classifier, the result is the first non-empty strategy's links converted to `{type, url}` |
| LinkExtractor.ChosenLinks | lib/pdfLinkExtractor.ts:20-42 | the chosen links are the annotation links when there are any; else the text links when there are any; else the binary links |
| LinkExtractor.CollectIsClassifyThenDedup | lib/pdfLinkExtractor.ts:252-263 | the loop's dedupe-while-classifying equals classifying every trimmed candidate and then keeping the first link per URL |
| LinkExtractor.DedupDistinct | lib/pdfLinkExtractor.ts:256-262 | deduplication yields pairwise-distinct URLs, covers every input URL, and invents no link |
| LinkExtractor.DedupKeepsFirst | lib/pdfLinkExtractor.ts:313-324 | every kept link is the first input link with its URL |
| LinkExtractor.ScanMatchesDistinct | lib/pdfLinkExtractor.ts:310-326 | the text and binary strategies never return two links with the same URL |
| LinkExtractor.AnnotationsKeepRepeats | lib/pdfLinkExtractor.ts:165-168 | one URI on two annotations yields the same link twice |
| LinkExtractor.ChosenEmptyOnlyIfAllEmpty | lib/pdfLinkExtractor.ts:60-69 | the fallback yields nothing exactly when all three strategies yield nothing |
| LinkExtractor.AnnotationsShortCircuit | lib/pdfLinkExtractor.ts:20-26 | once the annotations yield a link, the text and binary inputs cannot change the result |
| LinkExtractor.TextShortCircuit | lib/pdfLinkExtractor.ts:28-35 | after empty annotations, once the text yields a link, the binary input cannot change the result |
| LinkExtractor.OfCategory | lib/pdfLinkExtractor.ts:72-82 | a category list is no longer than the chosen links; it is empty when no link has the category and as long as the chosen links when all have it |
| LinkExtractor.Split | lib/pdfLinkExtractor.ts:72-82 | the three category lists together are exactly as long as the chosen links |
| LinkExtractor.ChosenLinksWellTyped | lib/pdfLinkExtractor.ts:61-69 | every chosen link has the category of its type, and the text and binary strategies' links have distinct URLs |
| LinkExtractor.SplitPartitions | lib/pdfLinkExtractor.ts:72-82 | the three category lists together hold exactly the chosen links (as a multiset), and their lengths sum to the chosen count |
| LinkExtractor.OfCategoryKeepsOrder | lib/pdfLinkExtractor.ts:72-74 | each category list is an order-preserving selection of the converted links, holding exactly those of its category |
| LinkExtractor.SplitTypes | lib/pdfLinkExtractor.ts:76-82 | project links are `repository` or `demo`, portfolio links are `portfolio` or `website`, and social links are none of these |
| LinkExtractor.OfCategoryTypes | lib/pdfLinkExtractor.ts:76-82 | when every link's category agrees with its type, every link filed under a category has a type of that category |
| ResumeExtract.RemoveAll | app/api/resume-extract/route.ts:106 | removing occurrences of a pattern never lengthens the text |
| ResumeExtract.RemoveAllKeepsOrder | app/api/resume-extract/route.ts:106 | the removal only deletes: the result is a subsequence of the text, its other characters kept in order |
| ResumeExtract.RemoveAllPrefix | app/api/resume-extract/route.ts:106 | text none of whose characters can start the pattern is kept verbatim in front of the removal of what follows it |
| ResumeExtract.RemoveAllAbsent | app/api/resume-extract/route.ts:106 | text that does not contain the pattern is left unchanged |
| ResumeExtract.RemoveAllFences | app/api/resume-extract/route.ts:106 | after every "```" is removed, no "```" remains: removal cannot glue backticks into a new fence |
| ResumeExtract.StripCodeFences | app/api/resume-extract/route.ts:104-107 | a reply mentioning "```json" ends with no "```" at all; any other reply, plain "```" fences included, is parsed unchanged |
| ResumeExtract.StripCodeFencesKeepsOrder | app/api/resume-extract/route.ts:104-107 | the parser receives a subsequence of the reply: fence stripping only deletes |
| ResumeExtract.FencedReplyUnwrapped | app/api/resume-extract/route.ts:104-107 | for every JSON text without a backtick, the reply "```json", newline, the text, newline, "```" reaches the parser as exactly the text and one newline |
| ResumeExtract.PlainFenceKept | app/api/resume-extract/route.ts:105 | the reply "```" alone comes back unchanged, because it contains no "```json" |
| ResumeExtract.TypeName | app/api/resume-extract/route.ts:305-316 | a display name exists exactly for the ten known types, and none of them is empty |
| ResumeExtract.DisplayName | app/api/resume-extract/route.ts:318 | a known type gets its table name; any other type gets a name of the same length, its first letter upper-cased and the rest kept |
| ResumeExtract.CreateProjectLink | app/api/resume-extract/route.ts:304-325 | the `{type, url}` read back from the created link is the input, and the link always has a name |
| ResumeExtract.CreateProjectLinkName | app/api/resume-extract/route.ts:318 | the name is the table entry for a known type; otherwise it is the type with its first letter upper-cased and the rest kept, of the same length, so an empty type gives an empty name |
| ResumeExtract.KnownTypeNames | app/api/resume-extract/route.ts:305-318 | `repository`, `demo`, `backend` and `github` get "Source Code", "Live Demo", "Backend API" and "GitHub"; the empty type gets "" |
| ResumeExtract.Keep | app/api/resume-extract/route.ts:207-209 | a kept link is an object whose url is truthy and neither "" nor "undefined"; an object with a non-string truthy url is kept |
| ResumeExtract.CleanLinks | app/api/resume-extract/route.ts:205-210 | the cleaned links are an order-preserving selection of the project's links, holding exactly the objects with a truthy url other than "undefined"; a non-array `links` gives none |
| ResumeExtract.Cap | app/api/resume-extract/route.ts:216-217 | the per-project quota is between 2 and 4 |
| ResumeExtract.CapCases | app/api/resume-extract/route.ts:216-217 | the quota is 2 for fewer than two pool links per project, 3 for fewer than three, and 4 otherwise |
| ResumeExtract.Fill | app/api/resume-extract/route.ts:220-234 | one project attaches at most its quota of pool links and the pool only shrinks |
| ResumeExtract.FillSpec | app/api/resume-extract/route.ts:220-234 | filling keeps the project's links in front and appends one created link per attached pool link; the pool loses exactly a prefix, split in order between attached and discarded links; filling stops only at the quota or on an empty pool |
| ResumeExtract.FillAddsNewUrls | app/api/resume-extract/route.ts:224-231 | every attached link has a URL the project lacked, counting links attached before it |
| ResumeExtract.FillDropsKnownUrls | app/api/resume-extract/route.ts:224-228 | every discarded link's URL is already on the project |
| ResumeExtract.FillProject | app/api/resume-extract/route.ts:220-234 | the `while` loop with `shift` and `push` reaches the project links and remaining pool of the specification |
| ResumeExtract.Distribute | app/api/resume-extract/route.ts:201-240 | there is one rewritten project per summarizer project, and the remaining pool is no longer than the pool |
| ResumeExtract.HostedProjects | app/api/resume-extract/route.ts:246-252 | one synthetic project per link; the i-th is named with the prefix and i+1, is described as "Project hosted at <url>" with that link's URL, and holds that link's created entry |
| ResumeExtract.DistributeProjects | app/api/resume-extract/route.ts:199-240 | the `map` over projects throws exactly on a null project; otherwise it reaches the specification's projects and remaining pool |
| ResumeExtract.AppendLeftovers | app/api/resume-extract/route.ts:243-253 | the leftover `forEach` appends one `Additional Project i` per remaining link, in order |
| ResumeExtract.EnhanceProjects | app/api/resume-extract/route.ts:195-253 | filling every project with the computed quota, then appending leftovers, equals the specification |
| ResumeExtract.DistributeConserves | app/api/resume-extract/route.ts:199-253 | the pool loses exactly a prefix, and that prefix is an in-order shuffle of the attached links and the discarded duplicates; the links the returned projects gain, read in project order, are exactly the created entries of the attached links; every discarded link's URL is on some returned project |
| ResumeExtract.DistributeGains | app/api/resume-extract/route.ts:220-237 | the links the returned projects carry beyond their cleaned links, concatenated in project order, are `createProjectLink` of the attached pool links, in pool order |
| ResumeExtract.DistributeDropsKnownUrls | app/api/resume-extract/route.ts:224-228 | every discarded pool link has a URL that one of the returned projects carries |
| ResumeExtract.DistributeAccountsForPool | app/api/resume-extract/route.ts:199-253 | every pool link is attached, discarded or left over, counted with multiplicity; the attached links keep pool order, and they are exactly what the returned projects gain |
| ResumeExtract.DistributeShape | app/api/resume-extract/route.ts:204-239 | each rewritten project keeps its name and description, starts with its cleaned links, and gains at most the quota |
| ResumeExtract.Enhance | app/api/resume-extract/route.ts:195-255 | the rewrite throws exactly when a summarizer project is null; otherwise there are at least as many projects as before and at most one more per pool link |
| ResumeExtract.EnhanceShape | app/api/resume-extract/route.ts:195-255 | the rewrite throws exactly when a project is null; otherwise it gives the original projects (each gaining at most 4 links), then one `Additional Project i` per leftover link; the pool loses a prefix split between attached and discarded links, and the attached links are exactly what the original projects gain |
| ResumeExtract.ExtractedEntries | app/api/resume-extract/route.ts:173-175 | the extractor's links enter `social_links` one for one, with the same type and url |
| ResumeExtract.Pool | app/api/resume-extract/route.ts:189-192 | the pool is the project links followed by the portfolio links |
| ResumeExtract.ChooseSocial | app/api/resume-extract/route.ts:172-182 | with extractor social links, the result has one entry per extractor link carrying its type and URL; the result is empty exactly when the extractor found none and the summarizer's `social_links` is not a non-empty array |
| ResumeExtract.RewriteProjects | app/api/resume-extract/route.ts:185-268 | an empty pool leaves `projects` as it is; with a non-empty pool, the rewrite throws exactly when a summarizer project is null, and otherwise yields an array with at least one project and no fewer than the summarizer had |
| ResumeExtract.LogThrows | app/api/resume-extract/route.ts:278-287 | logging throws for a truthy non-array `projects`, never for a falsy one, and never for an array of objects whose `links` are arrays |
| ResumeExtract.MergeSpec | app/api/resume-extract/route.ts:161-288 | a non-object, a failed parse or a reply with `error` is left as it is; a merged reply gets an array `social_links`; with an empty pool, `projects` is untouched and the merge throws only where logging it throws |
| ResumeExtract.Merge | app/api/resume-extract/route.ts:161-288 | the merge block, reassigning `social_links` and `projects`, equals the merge specification |
| ResumeExtract.Respond | app/api/resume-extract/route.ts:99-114 | a reply that fails to parse is answered with `{raw, error}`, and a successful answer carries the upload URL |
| ResumeExtract.SocialChoice | app/api/resume-extract/route.ts:172-182 | the social links are the extractor's if it found any, else the summarizer's non-empty array, else empty |
| ResumeExtract.HostedProjectsLogSafely | app/api/resume-extract/route.ts:278-287 | synthetic projects never make the final logging throw |
| ResumeExtract.MergeFreshProjects | app/api/resume-extract/route.ts:256-267 | with a non-empty pool and no summarizer projects, the merge succeeds with one `Project i` per pool link, in pool order |
| ResumeExtract.MergeEnhancedProjects | app/api/resume-extract/route.ts:195-255 | with a non-empty pool and summarizer projects, the merge throws exactly on a null project; otherwise it returns the filled projects, then the leftovers as additional projects, and the filled projects gain exactly the created entries of the attached links |
| ResumeExtract.EnhancedLogsSafely | app/api/resume-extract/route.ts:278-287 | when no summarizer project is null, the enhanced list exists and logging it does not throw, because every entry is a project with a links array |
| ResumeExtract.RespondMergesParsedReply | app/api/resume-extract/route.ts:290-300 | the handler answers 500 exactly when the merge throws, and returns a non-mergeable reply unchanged |
| ResumeExtract.PoolNamesFromTable | app/api/resume-extract/route.ts:318 | links that come from the extractor are only `repository`, `demo`, `portfolio` or `website`, so their names always come from the table |
| ResumeExtract.TwoProjectsFiveLinks | app/api/resume-extract/route.ts:216-217 | two projects and five pool links give a quota of 3 |
| ResumeExtract.SingleDemoLinkProject | app/api/resume-extract/route.ts:260-264 | with no summarizer projects, a single demo link becomes `Project 1`, "Project hosted at <url>", with one "Live Demo" link |
| QueueStatus.CountOf | app/api/job-queue-status/route.ts:49 | a status's count never exceeds the row count, and is 0 for a status no row has |
| QueueStatus.Bump | app/api/job-queue-status/route.ts:49 | one increment keeps every existing key in place and adds at most one key; a status that already has a key adds none, and an added key is the status with count 1 |
| QueueStatus.Tally | app/api/job-queue-status/route.ts:47-54 | the summary starts with the four seeded keys in order and has at most one key per row beyond them |
| QueueStatus.BumpFacts | app/api/job-queue-status/route.ts:49 | one increment of `acc[status]`, a missing key reading as 0, adds one to the total and to that status's count, changes no other count, keeps the keys in order and distinct, and adds a key `status` at the end with count 1 when it was missing |
| QueueStatus.TallySummarizes | app/api/job-queue-status/route.ts:47-54 | the summary starts with `pending`, `processing`, `completed` and `failed`; it has one key per status (seeded or seen); each count equals the number of rows with that status; the counts sum to the row count |
| QueueStatus.AbsentStatus | app/api/job-queue-status/route.ts:53 | a status with no rows has a key only if it is a seed, and that key reads 0 |
| QueueStatus.Summarize | app/api/job-queue-status/route.ts:47-54 | the `reduce` loop yields the specification's summary, with every property above |
| QueueStatus.GetQueueStatus | app/api/job-queue-status/route.ts:11-62 | a missing or empty `user_id` gives 400 "user_id is required" before any query; a query error gives 500; otherwise the rows, their summary and `total` equal to the row count, which is also the sum of the summary |

## Left out

- PDF loading, the object-graph walk over annotations, `pdf-parse` and `Buffer.toString('binary')` are foreign library calls. Their outputs are inputs to the model. An annotation whose lookup throws is skipped by the source; the model sees it as one without a URI.
- The regular-expression engine and the exact pattern lists are not modelled. Matches are given per pattern, in match order.
- WHATWG URL parsing is not modelled. The parser is a parameter.
- The `typeof url !== 'string'` guard of `categorizeAllLinks` is not modelled, because every candidate in the model is a string.
- Text.ToLower: only ASCII letters are lowered. The keywords are ASCII, so full Unicode lowering cannot change the keyword tests.
- ResumeExtract.CreateProjectLink: only ASCII letters are upper-cased. A type that names an `Object.prototype` member (such as `constructor`) would pick up the inherited value in the source; the model does not capture this. `PoolNamesFromTable` shows that pool types never reach either case.
- The rest of the POST handler is not modelled: reading the form data, the 400 for a missing file, the Cloudinary upload, the summarizer call and its failure, and the prompt text. All are network or foreign I/O.
- `JSON.parse` is a parameter.
- Summary fields other than `error`, `social_links` and `projects`, and project fields other than `name`, `description` and `links`, pass through the merge untouched and are not modelled.
- Project entries that are non-null non-objects are not modelled. These are strings, numbers and arrays, which the object spread would turn into index-keyed objects.
- A top-level JSON array reply is treated like any other non-object. The properties the merge would set on an array are dropped by serialization.
- Console logging is not modelled, except where it throws (lines 278-287 of the route).
- The `catch` of `extractAllPdfLinks`, and the route's `catch` around it, are not modelled. Every strategy catches its own failures, so in the model these handlers are never reached.
- QueueStatus: statuses are strings. The source also allows the following, which the model does not capture:
  - the key order JavaScript gives integer-like keys;
  - keys that name `Object.prototype` members;
  - non-string (null) statuses.
- DistributeDropsKnownUrls: states that some returned project carries each discarded URL. It does not name that project, which is the one being filled when the link was shifted.
- Merge determinism holds trivially, because every operation is a function of its inputs.

## Behaviour of the code

The model follows the code. Some of its behaviour is easy to miss:

- The merge comment at line 214 of app/api/resume-extract/route.ts says links are distributed "evenly". The code instead drains the shared pool from the front, project by project, each up to the quota of lines 216-217. It also discards a pool link whose URL the current project already has (lines 224-228). `DistributeAccountsForPool` therefore counts three outcomes: attached, discarded and left over.
- The summarizer's own project links are only filtered (lines 205-210), never deduplicated. A pool link is refused only when its URL is already on the project.
- Only the text and binary strategies deduplicate, each within itself ("Avoid duplicates", lines 255 and 316 of lib/pdfLinkExtractor.ts). The annotation strategy keeps repeats (`AnnotationsKeepRepeats`). Strategies are never combined: the first that finds anything wins.
- The handler answers 500 in two cases:
  - a summarizer project is `null` while the pool is non-empty;
  - the final logging meets a truthy non-array `projects`, a `null` project, or a truthy non-array `links`.
