/** The brand dashboard of frontend/app/brands/page.tsx: the competitor
    list and its handlers, the brand picker's filter, the per-campaign
    reach/conversion toggle (which drives the conversion pixel's campaign
    settings), the top-remixes ranking, and the prompt analysis and agent
    analytics the page loads. `Math.random()` draws are parameters in
    `[0, 1)`; the data the page fetches are parameters too. */
module Brands {
  import opened Wrappers
  import Seqs
  import opened Strings
  import opened Json
  import opened Vendor
  import LlmJson
  import AnalyzePromptsRoute
  import LettaAnalyticsRoute
  import ConversionTracking

  /** A value `Math.random()` can return. */
  predicate IsDraw(r: real) {
    0.0 <= r < 1.0
  }

  // ----- Competitors -------------------------------------------------------

  /** A competitor as the page stores it: an object with a brand, a score,
      an engagement label and a colour class. Competitors can also come from
      the agent's analytics, so the list holds JSON values. */
  function CompetitorValue(brand: string, score: int, engagement: string, color: string): JVal {
    JObj([("brand", JStr(brand)), ("score", JNum(score)), ("engagement", JStr(engagement)), ("color", JStr(color))])
  }

  const InitialCompetitors: seq<JVal> := [
    CompetitorValue("Competitor A", 78, "Medium", "bg-blue-500"),
    CompetitorValue("Competitor B", 65, "Medium", "bg-purple-500"),
    CompetitorValue("Competitor C", 54, "Low", "bg-gray-500")
  ]

  const Palette: seq<string> := ["blue", "purple", "green", "orange", "pink"]

  /** `Math.floor(r * 40) + 50`. */
  function Score(r: real): (s: int)
    requires IsDraw(r)
    ensures 50 <= s <= 89
  {
    (r * 40.0).Floor + 50
  }

  /** Every score from 50 to 89 is drawn by some value of `Math.random()`,
      and no other. */
  lemma ScoreRange(s: int)
    requires 50 <= s <= 89
    ensures IsDraw((s - 50) as real / 40.0) && Score((s - 50) as real / 40.0) == s
  {
  }

  /** The colour class: one of the five palette entries, chosen by
      `Math.floor(r * 5)`. */
  function Color(r: real): (c: string)
    requires IsDraw(r)
    ensures exists k :: 0 <= k < |Palette| && c == "bg-" + Palette[k] + "-500"
  {
    var k := (r * 5.0).Floor;
    "bg-" + Palette[k] + "-500"
  }

  /** The competitor `handleAddCompetitor` builds from three draws. */
  function NewCompetitor(brand: string, r1: real, r2: real, r3: real): (c: JVal)
    requires IsDraw(r1) && IsDraw(r2) && IsDraw(r3)
    ensures Get(Some(c), "brand") == Some(JStr(brand))
    ensures exists s :: 50 <= s <= 89 && Get(Some(c), "score") == Some(JNum(s))
    ensures Get(Some(c), "engagement") == Some(JStr(if r2 > 0.5 then "Medium" else "Low"))
    ensures exists k :: 0 <= k < |Palette| && Get(Some(c), "color") == Some(JStr("bg-" + Palette[k] + "-500"))
  {
    var c := CompetitorValue(brand, Score(r1), if r2 > 0.5 then "Medium" else "Low", Color(r3));
    CompetitorFields(brand, Score(r1), if r2 > 0.5 then "Medium" else "Low", Color(r3));
    c
  }

  lemma CompetitorFields(brand: string, score: int, engagement: string, color: string)
    ensures var c := Some(CompetitorValue(brand, score, engagement, color));
            Get(c, "brand") == Some(JStr(brand)) && Get(c, "score") == Some(JNum(score)) &&
            Get(c, "engagement") == Some(JStr(engagement)) && Get(c, "color") == Some(JStr(color))
  {
    var entries := CompetitorValue(brand, score, engagement, color).entries;
    LookupAt(entries, 0);
    LookupAt(entries, 1);
    LookupAt(entries, 2);
    LookupAt(entries, 3);
  }

  /** `competitors.filter((_, i) => i !== index)`. */
  function RemoveIndex(s: seq<JVal>, index: int): (r: seq<JVal>)
    ensures 0 <= index < |s| ==> |r| == |s| - 1 && multiset(r) + multiset{s[index]} == multiset(s)
    ensures 0 <= index < |s| ==> forall i :: 0 <= i < |r| ==> r[i] == if i < index then s[i] else s[i + 1]
    ensures !(0 <= index < |s|) ==> r == s
  {
    if 0 <= index < |s| then
      assert s == s[..index] + [s[index]] + s[index + 1..];
      s[..index] + s[index + 1..]
    else s
  }

  /** `{ ...c, brand: name }`: the brand replaced in place, or appended when
      the object has none; every other field kept. */
  function Rename(c: JVal, name: string): (r: JVal)
    ensures r.JObj? && Get(Some(r), "brand") == Some(JStr(name))
    ensures c.JObj? ==> forall k :: k != "brand" ==> Get(Some(r), k) == Get(Some(c), k)
  {
    match c
    case JObj(entries) => JObj(Assign(entries, "brand", JStr(name)))
    case _ => JObj([("brand", JStr(name))])
  }

  // ----- Brand picker --------------------------------------------------------

  const AvailableBrands: seq<string> := [
    "Nike", "Apple", "Coca-Cola", "Tesla", "McDonald's", "Spotify",
    "Adidas", "Amazon", "Pepsi", "Samsung", "Google", "Microsoft",
    "Target", "Walmart", "Best Buy", "Netflix", "Uber", "Airbnb"
  ]

  /** The brands whose lower-cased name contains the lower-cased query, in
      their order. */
  function FilterBrands(brands: seq<string>, query: string): (r: seq<string>)
    ensures |r| <= |brands|
  {
    Seqs.Filter(brands, b => ContainsIgnoreCase(b, query))
  }

  /** A brand is offered exactly when it is available and its name
      contains the query, ignoring case. */
  lemma FilterBrandsMembers(brands: seq<string>, query: string)
    ensures forall b :: b in FilterBrands(brands, query) <==> b in brands && ContainsIgnoreCase(b, query)
  {
    Seqs.FilterMembers(brands, b => ContainsIgnoreCase(b, query));
  }

  /** `filteredBrands` for the current search query. */
  function FilteredBrands(query: string): seq<string> {
    FilterBrands(AvailableBrands, query)
  }

  /** Filtering keeps the order: the matches of a concatenation are the
      matches of each part, in turn. */
  lemma FilterBrandsAppend(a: seq<string>, b: seq<string>, query: string)
    ensures FilterBrands(a + b, query) == FilterBrands(a, query) + FilterBrands(b, query)
  {
    Seqs.FilterAppend(a, b, b => ContainsIgnoreCase(b, query));
  }

  /** An empty query keeps every brand, and filtering twice by the same
      query is filtering once. */
  lemma FilterBrandsProperties(brands: seq<string>, query: string)
    ensures FilterBrands(brands, "") == brands
    ensures FilterBrands(FilterBrands(brands, query), query) == FilterBrands(brands, query)
  {
    assert Lower("") == "";
    forall i | 0 <= i < |brands| ensures ContainsIgnoreCase(brands[i], "") {
      EmptyOccursEverywhere(Lower(brands[i]));
    }
    Seqs.FilterKeepsAll(brands, b => ContainsIgnoreCase(b, ""));
    Seqs.FilterIdempotent(brands, b => ContainsIgnoreCase(b, query));
  }

  /** With an empty search box all 18 brands are offered. */
  lemma EmptyQueryOffersAll()
    ensures FilteredBrands("") == AvailableBrands && |FilteredBrands("")| == 18
  {
    FilterBrandsProperties(AvailableBrands, "");
  }

  // ----- Campaign view modes -------------------------------------------------

  datatype ViewMode = Reach | Conversion

  /** `campaignViewModes[id] || 'reach'`. */
  function ModeOf(modes: map<int, ViewMode>, id: int): (m: ViewMode)
    ensures id !in modes ==> m == Reach
    ensures id in modes ==> m == modes[id]
  {
    if id in modes then modes[id] else Reach
  }

  function Flip(m: ViewMode): (r: ViewMode)
    ensures r != m
  {
    if m == Conversion then Reach else Conversion
  }

  /** The record after `toggleCampaignViewMode(id)`. */
  function Toggled(modes: map<int, ViewMode>, id: int): (r: map<int, ViewMode>)
    ensures ModeOf(r, id) != ModeOf(modes, id)
    ensures forall other :: other != id ==> ModeOf(r, other) == ModeOf(modes, other)
  {
    modes[id := Flip(ModeOf(modes, id))]
  }

  /** Toggling twice shows the campaign in the mode it started in. */
  lemma ToggleTwice(modes: map<int, ViewMode>, id: int)
    ensures ModeOf(Toggled(Toggled(modes, id), id), id) == ModeOf(modes, id)
  {
  }

  // ----- Top remixes ---------------------------------------------------------

  /** `prompt.id` for a stored prompt; the numeric ids of the built-in
      list. */
  datatype RemixId = MockId(n: int) | PromptId(s: string)

  datatype Remix = Remix(id: RemixId, creator: string, image: string, likes: int, views: int,
                         campaign: string, prompt: Option<string>)

  const MockTopRemixes: seq<Remix> := [
    Remix(MockId(1), "Sarah Chen", "/nike-athletic-shoe-advertisement.jpg", 8234, 45230, "Summer Collection 2025", None),
    Remix(MockId(2), "Marcus Johnson", "/apple-iphone-product-advertisement.jpg", 7891, 42100, "Tech Innovation Series", None),
    Remix(MockId(3), "Emma Rodriguez", "/coca-cola-super-bowl-commercial.jpg", 7456, 39870, "Holiday Special", None)
  ]

  /** A row of `getPromptsForCompany`: the prompt, its author and the joined
      ad's image and title (`None` for `null` or a missing ad). */
  datatype PromptRow = PromptRow(id: string, userId: Option<string>, content: string,
                                 adImageUrl: Option<string>, adTitle: Option<string>)

  /** `v || fallback` for an optional string. */
  function OrDefault(v: Option<string>, fallback: string): (r: string)
    ensures r == fallback || (v.Some? && r == v.value && r != "")
  {
    if v.Some? && v.value != "" then v.value else fallback
  }

  /** `s.slice(0, 8)`. */
  function Prefix8(s: string): (r: string)
    ensures |r| == if |s| < 8 then |s| else 8
    ensures StartsWith(s, r)
  {
    if |s| < 8 then s else s[..8]
  }

  /** The creator label as the page writes it: the template literal is
      never empty, so the `"Anonymous"` alternative is dead and a missing
      user id shows as "User undefined". */
  function CreatorAsWritten(userId: Option<string>): (c: string)
    ensures StartsWith(c, "User ")
  {
    "User " + (if userId.Some? then Prefix8(userId.value) else "undefined")
  }

  /** The fallback never applies. */
  lemma NeverAnonymous(userId: Option<string>)
    ensures CreatorAsWritten(userId) != "Anonymous"
    ensures CreatorAsWritten(None) == "User undefined"
  {
    assert CreatorAsWritten(userId)[0] == 'U';
  }

  /** The creator label as evidently intended: "Anonymous" when the prompt
      has no author. */
  function Creator(userId: Option<string>): (c: string)
    ensures c == "Anonymous" <==> userId.None? || userId.value == ""
    ensures userId.Some? && userId.value != "" ==> c == CreatorAsWritten(userId)
  {
    NeverAnonymous(userId);
    if userId.Some? && userId.value != "" then CreatorAsWritten(userId) else "Anonymous"
  }

  /** `Math.floor(r * 10000) + 1000`. */
  function Likes(r: real): (l: int)
    requires IsDraw(r)
    ensures 1000 <= l <= 10999
  {
    (r * 10000.0).Floor + 1000
  }

  /** One prompt as a remix card; `r` is its likes draw. */
  function ToRemix(row: PromptRow, r: real): (x: Remix)
    requires IsDraw(r)
    ensures x.id == PromptId(row.id) && x.prompt == Some(row.content)
    ensures 1000 <= x.likes <= 10999 && x.views == 5 * x.likes
    ensures x.image == OrDefault(row.adImageUrl, "/nike-athletic-shoe-advertisement.jpg")
    ensures x.campaign == OrDefault(row.adTitle, "Nike Campaign")
    ensures x.creator == CreatorAsWritten(row.userId) && StartsWith(x.creator, "User ")
  {
    var likes := Likes(r);
    Remix(PromptId(row.id), CreatorAsWritten(row.userId), OrDefault(row.adImageUrl, "/nike-athletic-shoe-advertisement.jpg"),
          likes, likes * 5, OrDefault(row.adTitle, "Nike Campaign"), Some(row.content))
  }

  predicate Draws(draws: seq<real>, n: nat) {
    |draws| == n && forall i :: 0 <= i < n ==> IsDraw(draws[i])
  }

  function Remixes(rows: seq<PromptRow>, draws: seq<real>): (xs: seq<Remix>)
    requires Draws(draws, |rows|)
    ensures |xs| == |rows|
    ensures forall i :: 0 <= i < |rows| ==> xs[i] == ToRemix(rows[i], draws[i])
  {
    seq(|rows|, i requires 0 <= i < |rows| => ToRemix(rows[i], draws[i]))
  }

  /** Highest likes first. */
  predicate SortedByLikes(xs: seq<Remix>) {
    forall i, j :: 0 <= i < j < |xs| ==> xs[i].likes >= xs[j].likes
  }

  /** Inserts `x` before the first remix with no more likes than it, so that
      it precedes the ties that came after it in the input. */
  function Insert(x: Remix, xs: seq<Remix>): (r: seq<Remix>)
    ensures multiset(r) == multiset(xs) + multiset{x}
  {
    if |xs| == 0 || x.likes >= xs[0].likes then [x] + xs
    else
      assert xs == [xs[0]] + xs[1..];
      [xs[0]] + Insert(x, xs[1..])
  }

  /** Inserting keeps every remix at or below a bound that `x` and all of
      `xs` respect. */
  lemma {:induction false} InsertBelow(x: Remix, xs: seq<Remix>, bound: int)
    requires x.likes <= bound && forall i :: 0 <= i < |xs| ==> xs[i].likes <= bound
    ensures forall i :: 0 <= i < |Insert(x, xs)| ==> Insert(x, xs)[i].likes <= bound
  {
    if |xs| > 0 && x.likes < xs[0].likes {
      InsertBelow(x, xs[1..], bound);
      var rest := Insert(x, xs[1..]);
      assert Insert(x, xs) == [xs[0]] + rest;
      forall i | 1 <= i < |Insert(x, xs)| ensures Insert(x, xs)[i].likes <= bound {
        assert Insert(x, xs)[i] == rest[i - 1];
      }
    } else {
      forall i | 1 <= i < |Insert(x, xs)| ensures Insert(x, xs)[i].likes <= bound {
        assert Insert(x, xs)[i] == xs[i - 1];
      }
    }
  }

  /** Inserting into a sorted list keeps it sorted. */
  lemma {:induction false} InsertSorted(x: Remix, xs: seq<Remix>)
    requires SortedByLikes(xs)
    ensures SortedByLikes(Insert(x, xs))
  {
    if |xs| > 0 && x.likes < xs[0].likes {
      var rest := Insert(x, xs[1..]);
      InsertSorted(x, xs[1..]);
      InsertBelow(x, xs[1..], xs[0].likes);
      var r := [xs[0]] + rest;
      assert Insert(x, xs) == r;
      forall i, j | 0 <= i < j < |r| ensures r[i].likes >= r[j].likes {
        assert r[j] == rest[j - 1];
        if i > 0 {
          assert r[i] == rest[i - 1];
        }
      }
    } else {
      var r := [x] + xs;
      assert Insert(x, xs) == r;
      forall i, j | 0 <= i < j < |r| ensures r[i].likes >= r[j].likes {
        assert r[j] == xs[j - 1];
        if i > 0 {
          assert r[i] == xs[i - 1];
        }
      }
    }
  }

  /** `.sort((a, b) => b.likes - a.likes)`, a stable sort. */
  function SortByLikes(xs: seq<Remix>): (r: seq<Remix>)
    ensures multiset(r) == multiset(xs) && SortedByLikes(r)
  {
    if |xs| == 0 then []
    else
      assert xs == [xs[0]] + xs[1..];
      var rest := SortByLikes(xs[1..]);
      InsertSorted(xs[0], rest);
      Insert(xs[0], rest)
  }

  /** `.slice(0, 6)` of the sorted remixes. */
  function TopSix(xs: seq<Remix>): (r: seq<Remix>)
    ensures |r| == if |xs| < 6 then |xs| else 6
  {
    var sorted := SortByLikes(xs);
    assert |sorted| == |multiset(sorted)| == |multiset(xs)| == |xs|;
    if |sorted| <= 6 then sorted else sorted[..6]
  }

  /** In a list sorted by likes, every remix before a cut has at least as
      many likes as every remix after it. */
  lemma SortedCut(s: seq<Remix>, k: nat)
    requires SortedByLikes(s) && k <= |s|
    ensures forall x, y :: x in s[..k] && y in s[k..] ==> x.likes >= y.likes
  {
    forall x, y | x in s[..k] && y in s[k..] ensures x.likes >= y.likes {
      var i :| 0 <= i < k && s[..k][i] == x;
      var j :| 0 <= j < |s| - k && s[k..][j] == y;
      assert s[i] == x && s[k + j] == y;
    }
  }

  /** The cards shown are at most six of the remixes, highest likes first,
      and no remix left out has more likes than one that is shown. */
  lemma TopSixProperties(xs: seq<Remix>)
    ensures |TopSix(xs)| == if |xs| <= 6 then |xs| else 6
    ensures SortedByLikes(TopSix(xs))
    ensures multiset(TopSix(xs)) <= multiset(xs)
    ensures forall x, y :: x in TopSix(xs) && y in multiset(xs) - multiset(TopSix(xs)) ==> x.likes >= y.likes
  {
    var sorted := SortByLikes(xs);
    assert |sorted| == |xs| by {
      assert |multiset(sorted)| == |multiset(xs)|;
    }
    var k := if |sorted| <= 6 then |sorted| else 6;
    var top := sorted[..k];
    assert top == TopSix(xs);
    assert sorted == top + sorted[k..];
    assert multiset(sorted) == multiset(top) + multiset(sorted[k..]);
    SortedCut(sorted, k);
  }

  /** Every card built from a stored prompt estimates its views as five
      times its likes. */
  lemma TopRemixViews(rows: seq<PromptRow>, draws: seq<real>)
    requires Draws(draws, |rows|)
    ensures forall x :: x in TopSix(Remixes(rows, draws)) ==> x.views == 5 * x.likes && 1000 <= x.likes <= 10999
  {
    var xs := Remixes(rows, draws);
    forall x | x in xs ensures x.views == 5 * x.likes && 1000 <= x.likes <= 10999 {
      var i :| 0 <= i < |xs| && xs[i] == x;
    }
    TopSixFrom(xs);
  }

  /** Every card shown is one of the remixes. */
  lemma TopSixFrom(xs: seq<Remix>)
    ensures forall x :: x in TopSix(xs) ==> x in xs
  {
    TopSixProperties(xs);
    forall x | x in TopSix(xs) ensures x in xs {
      assert x in multiset(TopSix(xs));
    }
  }

  // ----- Prompt analysis -----------------------------------------------------

  datatype PromptAnalysis = PromptAnalysis(themes: seq<string>, emotionalTone: string,
                                           styleReferences: seq<string>, intent: string)

  /** What the analysis panels show: the built-in analysis, or the JSON the
      analysis route answered with. */
  datatype ShownAnalysis = Builtin(analysis: PromptAnalysis) | Fetched(data: JVal)

  const FallbackPrompts: seq<string> := [
    "Add dynamic motion blur to the Nike shoes",
    "Make the swoosh logo glow with neon energy",
    "Transform the background into an urban basketball court",
    "Add futuristic athletic performance stats overlay",
    "Create a street art style with graffiti elements"
  ]

  const FallbackAnalysis: PromptAnalysis := PromptAnalysis(
    ["Athletic", "Urban", "Dynamic", "Modern", "Performance"],
    "Energetic and aspirational, focusing on athletic achievement and urban style",
    ["Street Art", "Modern Athletic", "Urban Fashion", "Tech-Minimal"],
    "Users aim to enhance Nike's athletic imagery with modern, urban aesthetics while maintaining brand recognition")

  /** The prompts sent for analysis: the stored ones, or the five built-in
      prompts when the company has none. */
  function PromptsToAnalyze(contents: seq<string>): (ps: seq<string>)
    ensures |ps| > 0
    ensures |contents| > 0 ==> ps == contents
  {
    if |contents| > 0 then contents else FallbackPrompts
  }

  /** The body `JSON.stringify({ prompts })` as the route reads it back. */
  function RequestBody(ps: seq<string>): JVal {
    JObj([("prompts", JArr(seq(|ps|, i requires 0 <= i < |ps| => JStr(ps[i]))))])
  }

  /** `fetchAndAnalyzePrompts`: the analysis route is asked about the
      prompts; any answer other than 200 makes the page throw and show the
      built-in analysis. */
  function AnalysisShown(contents: seq<string>, apiKey: Option<string>, call: string -> ModelReply,
                         parse: string -> Option<JVal>): (r: ShownAnalysis)
    ensures r.Builtin? ==> r.analysis == FallbackAnalysis
  {
    match AnalyzePromptsRoute.Post(Some(RequestBody(PromptsToAnalyze(contents))), apiKey, call, parse)
    case Analysis(v) => Fetched(v)
    case _ => Builtin(FallbackAnalysis)
  }

  /** The route reads the prompts array back out of the page's request. */
  lemma RequestBodyRead(ps: seq<string>)
    ensures Get(Some(RequestBody(ps)), "prompts") == Some(JArr(seq(|ps|, i requires 0 <= i < |ps| => JStr(ps[i]))))
  {
  }

  /** Without an API key on the server, the page shows the built-in
      analysis. */
  lemma NoKeyShowsBuiltin(contents: seq<string>, call: string -> ModelReply, parse: string -> Option<JVal>)
    ensures AnalysisShown(contents, None, call, parse) == Builtin(FallbackAnalysis)
  {
    RequestBodyRead(PromptsToAnalyze(contents));
  }

  /** End to end: Claude is sent the prompts to analyse (the built-in five
      when the company has none), one per line after the instruction, and a
      fenced `json` answer is what the panels show once parsed. */
  lemma FencedAnalysisShown(contents: seq<string>, apiKey: string, call: string -> ModelReply,
                            parse: string -> Option<JVal>, prefix: string, inner: string, rest: string)
    requires apiKey != ""
    requires LlmJson.NoBacktick(prefix) && LlmJson.NoBacktick(inner) && LlmJson.Trim(inner) != ""
    requires call(AnalyzePromptsRoute.Instruction + Join(PromptsToAnalyze(contents), "\n")) ==
             OkJson(AnalyzePromptsRoute.TextReply(prefix + "```json" + inner + "```" + rest))
    requires parse(LlmJson.Trim(inner)).Some?
    ensures AnalysisShown(contents, Some(apiKey), call, parse) == Fetched(parse(LlmJson.Trim(inner)).value)
  {
    var ps := PromptsToAnalyze(contents);
    var prompts := seq(|ps|, i requires 0 <= i < |ps| => JStr(ps[i]));
    AnalyzePromptsRoute.UserPromptOfStrings(ps);
    AnalyzePromptsRoute.FencedAnswerParsed(prompts, apiKey, call, parse, prefix, inner, rest);
    assert RequestBody(ps) == JObj([("prompts", JArr(prompts))]);
  }

  // ----- The page ------------------------------------------------------------

  /** The dashboard's state, with the conversion pixel helpers it calls. */
  class Dashboard {
    var competitors: seq<JVal>
    var searchQuery: string
    var showAddCompetitor: bool
    var editingCompetitor: Option<int>
    var campaignViewModes: map<int, ViewMode>
    var topRemixes: seq<Remix>
    var promptAnalysis: Option<ShownAnalysis>
    var lettaAnalytics: Option<JVal>
    var currentTab: string
    const tracker: ConversionTracking.Tracker

    constructor(tracker: ConversionTracking.Tracker)
      ensures this.tracker == tracker
      ensures competitors == InitialCompetitors && topRemixes == MockTopRemixes
      ensures searchQuery == "" && !showAddCompetitor && editingCompetitor.None?
      ensures campaignViewModes == map[] && promptAnalysis.None? && lettaAnalytics.None?
      ensures currentTab == "campaigns"
    {
      this.tracker := tracker;
      competitors, topRemixes := InitialCompetitors, MockTopRemixes;
      searchQuery, showAddCompetitor, editingCompetitor := "", false, None;
      campaignViewModes, promptAnalysis, lettaAnalytics := map[], None, None;
      currentTab := "campaigns";
    }

    /** `handleAddCompetitor(brand)` with its three draws. */
    method HandleAddCompetitor(brand: string, r1: real, r2: real, r3: real)
      requires IsDraw(r1) && IsDraw(r2) && IsDraw(r3)
      modifies this
      ensures competitors == old(competitors) + [NewCompetitor(brand, r1, r2, r3)]
      ensures !showAddCompetitor && searchQuery == ""
      ensures editingCompetitor == old(editingCompetitor) && campaignViewModes == old(campaignViewModes)
      ensures topRemixes == old(topRemixes) && promptAnalysis == old(promptAnalysis)
      ensures lettaAnalytics == old(lettaAnalytics) && currentTab == old(currentTab)
    {
      competitors := competitors + [NewCompetitor(brand, r1, r2, r3)];
      showAddCompetitor := false;
      searchQuery := "";
    }

    /** `handleRemoveCompetitor(index)`. */
    method HandleRemoveCompetitor(index: int)
      modifies this
      ensures competitors == RemoveIndex(old(competitors), index)
      ensures searchQuery == old(searchQuery) && showAddCompetitor == old(showAddCompetitor)
      ensures editingCompetitor == old(editingCompetitor) && campaignViewModes == old(campaignViewModes)
      ensures topRemixes == old(topRemixes) && promptAnalysis == old(promptAnalysis)
      ensures lettaAnalytics == old(lettaAnalytics) && currentTab == old(currentTab)
    {
      competitors := RemoveIndex(competitors, index);
    }

    /** `handleUpdateCompetitor(index, brand)`, called from the edit form of
      an existing competitor. */
    method HandleUpdateCompetitor(index: int, brand: string)
      requires 0 <= index < |competitors|
      modifies this
      ensures |competitors| == |old(competitors)|
      ensures competitors[index] == Rename(old(competitors)[index], brand)
      ensures forall i :: 0 <= i < |competitors| && i != index ==> competitors[i] == old(competitors)[i]
      ensures editingCompetitor.None? && searchQuery == ""
      ensures showAddCompetitor == old(showAddCompetitor) && campaignViewModes == old(campaignViewModes)
      ensures topRemixes == old(topRemixes) && promptAnalysis == old(promptAnalysis)
      ensures lettaAnalytics == old(lettaAnalytics) && currentTab == old(currentTab)
    {
      var updated := competitors;
      updated := updated[index := Rename(updated[index], brand)];
      competitors := updated;
      editingCompetitor := None;
      searchQuery := "";
    }

    /** `getCampaignViewMode(id)`. */
    function GetCampaignViewMode(id: int): ViewMode
      reads this
    {
      ModeOf(campaignViewModes, id)
    }

    /** Every campaign given a mode on this page is tracked by the pixel
      exactly when it is shown in conversion mode. */
    predicate TrackingAgrees()
      reads this, tracker
    {
      forall id :: id in campaignViewModes ==>
        tracker.IsCampaignTrackingEnabled(IntToString(id)) == (campaignViewModes[id] == Conversion)
    }

    /** `toggleCampaignViewMode(id)`: the mode flips and the pixel's setting
      for the campaign follows it. When the settings can be written, the
      page and the pixel keep agreeing. */
    method ToggleCampaignViewMode(id: int)
      modifies this, tracker
      ensures campaignViewModes == Toggled(old(campaignViewModes), id)
      ensures GetCampaignViewMode(id) != old(GetCampaignViewMode(id))
      ensures tracker.stored == if old(tracker.inBrowser)
                                then ConversionTracking.AfterSet(old(tracker.stored), IntToString(id), GetCampaignViewMode(id) == Conversion)
                                else old(tracker.stored)
      ensures tracker.inBrowser == old(tracker.inBrowser) && tracker.queue == old(tracker.queue)
      ensures tracker.sent == old(tracker.sent) && tracker.pendingTimers == old(tracker.pendingTimers)
      ensures tracker.pixelLoaded == old(tracker.pixelLoaded) && tracker.trackIsFunction == old(tracker.trackIsFunction)
      ensures tracker.inBrowser && ConversionTracking.Writable(old(tracker.stored)) ==>
                tracker.IsCampaignTrackingEnabled(IntToString(id)) == (GetCampaignViewMode(id) == Conversion) &&
                ConversionTracking.Writable(tracker.stored)
      ensures tracker.inBrowser && ConversionTracking.Writable(old(tracker.stored)) && old(TrackingAgrees()) ==>
                TrackingAgrees()
      ensures competitors == old(competitors) && searchQuery == old(searchQuery)
      ensures topRemixes == old(topRemixes) && promptAnalysis == old(promptAnalysis)
      ensures lettaAnalytics == old(lettaAnalytics) && currentTab == old(currentTab)
      ensures showAddCompetitor == old(showAddCompetitor) && editingCompetitor == old(editingCompetitor)
    {
      var newMode := Flip(ModeOf(campaignViewModes, id));
      var trackingEnabled := newMode == Conversion;
      ghost var modes0 := campaignViewModes;
      ghost var stored0 := tracker.stored;
      campaignViewModes := campaignViewModes[id := newMode];
      tracker.SetCampaignTracking(IntToString(id), trackingEnabled);
      if tracker.inBrowser && ConversionTracking.Writable(stored0) {
        forall other | other in campaignViewModes && other != id
          ensures tracker.IsCampaignTrackingEnabled(IntToString(other)) ==
                  ConversionTracking.Enabled(stored0, IntToString(other))
        {
          IntToStringInjective(other, id);
          ConversionTracking.SetThenEnabled(stored0, IntToString(id), trackingEnabled, IntToString(other));
        }
        ConversionTracking.SetThenEnabled(stored0, IntToString(id), trackingEnabled, IntToString(id) + "x");
      }
    }

    /** The agent analytics reply: kept when the route answered 200, and its
      `competitors` array, when present, replaces the list. */
    method LoadLettaAnalytics(reply: LettaAnalyticsRoute.Reply)
      modifies this
      ensures !reply.Analytics? ==> lettaAnalytics == old(lettaAnalytics) && competitors == old(competitors)
      ensures reply.Analytics? ==> lettaAnalytics == Some(reply.analytics)
      ensures reply.Analytics? ==>
                var listed := Get(Some(reply.analytics), "competitors");
                competitors == if listed.Some? && listed.value.JArr? then listed.value.elems else old(competitors)
      ensures searchQuery == old(searchQuery) && showAddCompetitor == old(showAddCompetitor)
      ensures editingCompetitor == old(editingCompetitor) && campaignViewModes == old(campaignViewModes)
      ensures topRemixes == old(topRemixes) && promptAnalysis == old(promptAnalysis) && currentTab == old(currentTab)
    {
      if reply.Analytics? {
        var data := reply.analytics;
        lettaAnalytics := Some(data);
        var listed := Get(Some(data), "competitors");
        if Truthy(listed) && listed.value.JArr? {
          competitors := listed.value.elems;
        }
      }
    }

    /** The top-remixes part of `fetchDashboardData`: with stored prompts the
      cards become the six most liked of them; without, the built-in cards
      stay. */
    method LoadTopRemixes(rows: seq<PromptRow>, draws: seq<real>)
      requires Draws(draws, |rows|)
      modifies this
      ensures |rows| > 0 ==> topRemixes == TopSix(Remixes(rows, draws))
      ensures |rows| == 0 ==> topRemixes == old(topRemixes)
      ensures competitors == old(competitors) && searchQuery == old(searchQuery)
      ensures showAddCompetitor == old(showAddCompetitor) && editingCompetitor == old(editingCompetitor)
      ensures campaignViewModes == old(campaignViewModes) && promptAnalysis == old(promptAnalysis)
      ensures lettaAnalytics == old(lettaAnalytics) && currentTab == old(currentTab)
    {
      if |rows| > 0 {
        topRemixes := TopSix(Remixes(rows, draws));
      }
    }

    /** `handleTabChange(value)`: opening the analytics or signals tab runs
      the prompt analysis again. */
    method HandleTabChange(value: string, contents: seq<string>, apiKey: Option<string>,
                           call: string -> ModelReply, parse: string -> Option<JVal>)
      modifies this
      ensures currentTab == value
      ensures value == "analytics" || value == "signals" ==>
                promptAnalysis == Some(AnalysisShown(contents, apiKey, call, parse))
      ensures value != "analytics" && value != "signals" ==> promptAnalysis == old(promptAnalysis)
      ensures competitors == old(competitors) && searchQuery == old(searchQuery)
      ensures showAddCompetitor == old(showAddCompetitor) && editingCompetitor == old(editingCompetitor)
      ensures campaignViewModes == old(campaignViewModes) && topRemixes == old(topRemixes)
      ensures lettaAnalytics == old(lettaAnalytics)
    {
      currentTab := value;
      if value == "analytics" || value == "signals" {
        promptAnalysis := Some(AnalysisShown(contents, apiKey, call, parse));
      }
    }
  }
}
