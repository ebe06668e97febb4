/** The on-page half of AuditEngine.runOnPageAudit (server/services/auditEngine.ts):
    page records of a finished crawl reduced to a fixed-shape metrics record. */
module OnPage {
  import opened Wrappers
  import opened Seqs
  import opened JsMath

  datatype Image = Image(alt: Option<string>)

  datatype Meta = Meta(
    title: Option<string>, description: Option<string>, h1: Option<seq<string>>, images: Option<seq<Image>>)

  /** A crawled page: its status code, its meta block and `page_timing.time_to_interactive`. */
  datatype Page = Page(statusCode: int, meta: Option<Meta>, timeToInteractive: Option<int>)

  /** The crawl summary's `checks.mobile_friendly` flag. */
  datatype CrawlSummary = CrawlSummary(mobileFriendly: Option<bool>)

  datatype OnPageMetrics = OnPageMetrics(
    totalPages: int, errors404: int, errors5xx: int,
    missingTitles: int, missingDescriptions: int,
    duplicateTitles: int, duplicateDescriptions: int,
    missingH1: int, missingAltText: int, avgLoadTime: int, mobileScore: int)

  /** A string field is truthy when it is present and not empty. */
  function Truthy(s: Option<string>): Option<string>
  {
    if s.Some? && s.value != "" then s else None
  }

  function TitleOf(page: Page): Option<string>
  {
    if page.meta.Some? then Truthy(page.meta.value.title) else None
  }

  function DescriptionOf(page: Page): Option<string>
  {
    if page.meta.Some? then Truthy(page.meta.value.description) else None
  }

  predicate Is404(page: Page) { page.statusCode == 404 }

  predicate Is5xx(page: Page) { page.statusCode >= 500 }

  predicate LacksTitle(page: Page) { TitleOf(page).None? }

  predicate LacksDescription(page: Page) { DescriptionOf(page).None? }

  predicate LacksH1(page: Page)
  {
    page.meta.None? || page.meta.value.h1.None? || |page.meta.value.h1.value| == 0
  }

  predicate LacksAlt(image: Image) { Truthy(image.alt).None? }

  /** Images of the page without alt text; a page without an image list has none. */
  function MissingAltOn(page: Page): int
  {
    if page.meta.Some? && page.meta.value.images.Some? then Count(page.meta.value.images.value, LacksAlt) else 0
  }

  /** The time to interactive a page adds to the total; an absent or zero value adds nothing. */
  function LoadTimeOf(page: Page): int
  {
    if page.timeToInteractive.Some? && page.timeToInteractive.value != 0 then page.timeToInteractive.value else 0
  }

  /** `seen.set(v, (seen.get(v) || 0) + 1)` */
  function Bump(seen: map<string, nat>, v: string): map<string, nat>
  {
    seen[v := (if v in seen then seen[v] else 0) + 1]
  }

  /** The `Map<string, number>` of counts built by inserting the values of `s` in order. */
  function Tally(s: seq<string>): map<string, nat>
  {
    if |s| == 0 then map[] else Bump(Tally(s[..|s| - 1]), s[|s| - 1])
  }

  /** The distinct values that occur more than once in `s`. */
  function Repeated(s: seq<string>): set<string>
  {
    set v | v in s && multiset(s)[v] > 1
  }

  /** The keys of a count map whose count is above one. */
  function RepeatedKeys(m: map<string, nat>): set<string>
  {
    set k | k in m && m[k] > 1
  }

  /** The rounded average time to interactive, taken over all pages. */
  function AvgLoadTime(pages: seq<Page>): int
  {
    if |pages| > 0 then RoundDiv(Sum(pages, LoadTimeOf), |pages|) else 0
  }

  /** The binary mobile score. */
  function MobileScore(summary: Option<CrawlSummary>): (r: int)
    ensures r == 100 || r == 50
    ensures r == 100 <==> summary.Some? && summary.value.mobileFriendly == Some(true)
  {
    if summary.Some? && summary.value.mobileFriendly == Some(true) then 100 else 50
  }

  /** What the aggregation computes, stated per metric. */
  function Metrics(pages: seq<Page>, summary: Option<CrawlSummary>): OnPageMetrics
  {
    OnPageMetrics(
      |pages|, Count(pages, Is404), Count(pages, Is5xx),
      Count(pages, LacksTitle), Count(pages, LacksDescription),
      |Repeated(Somes(pages, TitleOf))|, |Repeated(Somes(pages, DescriptionOf))|,
      Count(pages, LacksH1), Sum(pages, MissingAltOn), AvgLoadTime(pages), MobileScore(summary))
  }

  /** Adding one occurrence of `v` raises its count by one, starting from zero. */
  lemma TallySnoc(s: seq<string>, v: string)
    ensures Tally(s + [v]) == Bump(Tally(s), v)
  {
    assert (s + [v])[..|s|] == s;
  }

  /** The count map holds exactly the values of `s`, each with its number of occurrences. */
  lemma {:induction false} TallyCounts(s: seq<string>)
    ensures Tally(s).Keys == set v | v in s
    ensures forall v :: v in Tally(s) ==> Tally(s)[v] == multiset(s)[v]
  {
    if |s| > 0 {
      var init, last := s[..|s| - 1], s[|s| - 1];
      assert s == init + [last];
      TallyCounts(init);
      assert multiset(s) == multiset(init) + multiset{last};
    }
  }

  /** The keys counted above one are exactly the values repeated in `s`. */
  lemma RepeatedKeysOfTally(s: seq<string>)
    ensures RepeatedKeys(Tally(s)) == Repeated(s)
  {
    TallyCounts(s);
  }

  /** How each per-page quantity changes when the prefix grows by one page. */
  lemma PrefixStep(pages: seq<Page>, i: int)
    requires 0 <= i < |pages|
    ensures Count(pages[..i + 1], Is404) == Count(pages[..i], Is404) + (if Is404(pages[i]) then 1 else 0)
    ensures Count(pages[..i + 1], Is5xx) == Count(pages[..i], Is5xx) + (if Is5xx(pages[i]) then 1 else 0)
    ensures Count(pages[..i + 1], LacksTitle) == Count(pages[..i], LacksTitle) + (if LacksTitle(pages[i]) then 1 else 0)
    ensures Count(pages[..i + 1], LacksDescription)
         == Count(pages[..i], LacksDescription) + (if LacksDescription(pages[i]) then 1 else 0)
    ensures Count(pages[..i + 1], LacksH1) == Count(pages[..i], LacksH1) + (if LacksH1(pages[i]) then 1 else 0)
    ensures Sum(pages[..i + 1], MissingAltOn) == Sum(pages[..i], MissingAltOn) + MissingAltOn(pages[i])
    ensures Sum(pages[..i + 1], LoadTimeOf) == Sum(pages[..i], LoadTimeOf) + LoadTimeOf(pages[i])
    ensures TitleOf(pages[i]).None? ==> Somes(pages[..i + 1], TitleOf) == Somes(pages[..i], TitleOf)
    ensures TitleOf(pages[i]).Some? ==>
      Somes(pages[..i + 1], TitleOf) == Somes(pages[..i], TitleOf) + [TitleOf(pages[i]).value]
    ensures DescriptionOf(pages[i]).None? ==>
      Somes(pages[..i + 1], DescriptionOf) == Somes(pages[..i], DescriptionOf)
    ensures DescriptionOf(pages[i]).Some? ==>
      Somes(pages[..i + 1], DescriptionOf) == Somes(pages[..i], DescriptionOf) + [DescriptionOf(pages[i]).value]
  {
    assert pages[..i + 1][..i] == pages[..i];
  }

  /** The loop over the count map's entries counting those above one. */
  method CountRepeatedKeys(seen: map<string, nat>) returns (n: int)
    ensures n == |RepeatedKeys(seen)|
  {
    n := 0;
    var todo := seen.Keys;
    while todo != {}
      invariant todo <= seen.Keys
      invariant n == |RepeatedKeys(seen) - todo|
      decreases |todo|
    {
      var k :| k in todo;
      assert RepeatedKeys(seen) - (todo - {k})
          == (RepeatedKeys(seen) - todo) + (if seen[k] > 1 then {k} else {});
      if seen[k] > 1 {
        n := n + 1;
      }
      todo := todo - {k};
    }
  }

  /** The counters and count maps after the page loop of runOnPageAudit. */
  datatype Scan = Scan(
    errors404: int, errors5xx: int, missingTitles: int, missingDescriptions: int,
    missingH1: int, missingAltText: int, totalLoadTime: int,
    titlesSeen: map<string, nat>, descriptionsSeen: map<string, nat>)

  /** The page loop of runOnPageAudit: nine counters and two count maps updated page by page. */
  method ScanPages(pages: seq<Page>) returns (r: Scan)
    ensures r.errors404 == Count(pages, Is404) && r.errors5xx == Count(pages, Is5xx)
    ensures r.missingTitles == Count(pages, LacksTitle)
    ensures r.missingDescriptions == Count(pages, LacksDescription)
    ensures r.missingH1 == Count(pages, LacksH1)
    ensures r.missingAltText == Sum(pages, MissingAltOn)
    ensures r.totalLoadTime == Sum(pages, LoadTimeOf)
    ensures r.titlesSeen == Tally(Somes(pages, TitleOf))
    ensures r.descriptionsSeen == Tally(Somes(pages, DescriptionOf))
  {
    var errors404, errors5xx := 0, 0;
    var missingTitles, missingDescriptions := 0, 0;
    var missingH1, missingAltText, totalLoadTime := 0, 0, 0;
    var titlesSeen: map<string, nat> := map[];
    var descriptionsSeen: map<string, nat> := map[];

    for i := 0 to |pages|
      invariant errors404 == Count(pages[..i], Is404)
      invariant errors5xx == Count(pages[..i], Is5xx)
      invariant missingTitles == Count(pages[..i], LacksTitle)
      invariant missingDescriptions == Count(pages[..i], LacksDescription)
      invariant missingH1 == Count(pages[..i], LacksH1)
      invariant missingAltText == Sum(pages[..i], MissingAltOn)
      invariant totalLoadTime == Sum(pages[..i], LoadTimeOf)
      invariant titlesSeen == Tally(Somes(pages[..i], TitleOf))
      invariant descriptionsSeen == Tally(Somes(pages[..i], DescriptionOf))
    {
      var page := pages[i];
      PrefixStep(pages, i);

      if page.statusCode == 404 {
        errors404 := errors404 + 1;
      }
      if page.statusCode >= 500 {
        errors5xx := errors5xx + 1;
      }

      var title := TitleOf(page);
      if title.None? {
        missingTitles := missingTitles + 1;
      } else {
        TallySnoc(Somes(pages[..i], TitleOf), title.value);
        titlesSeen := Bump(titlesSeen, title.value);
      }

      var description := DescriptionOf(page);
      if description.None? {
        missingDescriptions := missingDescriptions + 1;
      } else {
        TallySnoc(Somes(pages[..i], DescriptionOf), description.value);
        descriptionsSeen := Bump(descriptionsSeen, description.value);
      }

      if page.meta.None? || page.meta.value.h1.None? || |page.meta.value.h1.value| == 0 {
        missingH1 := missingH1 + 1;
      }

      if page.meta.Some? && page.meta.value.images.Some? {
        missingAltText := missingAltText + Count(page.meta.value.images.value, LacksAlt);
      }

      if page.timeToInteractive.Some? && page.timeToInteractive.value != 0 {
        totalLoadTime := totalLoadTime + page.timeToInteractive.value;
      }
    }
    assert pages[..|pages|] == pages;
    r := Scan(errors404, errors5xx, missingTitles, missingDescriptions, missingH1, missingAltText,
              totalLoadTime, titlesSeen, descriptionsSeen);
  }

  /** runOnPageAudit's aggregation: the page loop, the duplicate counts and the final record. */
  method AnalyzePages(pages: seq<Page>, summary: Option<CrawlSummary>) returns (m: OnPageMetrics)
    ensures m == Metrics(pages, summary)
  {
    var scan := ScanPages(pages);
    var duplicateTitles := CountRepeatedKeys(scan.titlesSeen);
    var duplicateDescriptions := CountRepeatedKeys(scan.descriptionsSeen);
    RepeatedKeysOfTally(Somes(pages, TitleOf));
    RepeatedKeysOfTally(Somes(pages, DescriptionOf));

    m := OnPageMetrics(
      |pages|, scan.errors404, scan.errors5xx, scan.missingTitles, scan.missingDescriptions,
      duplicateTitles, duplicateDescriptions, scan.missingH1, scan.missingAltText,
      if |pages| > 0 then RoundDiv(scan.totalLoadTime, |pages|) else 0,
      if summary.Some? && summary.value.mobileFriendly == Some(true) then 100 else 50);
  }

  // ---------------------------------------------------------------------------
  // Properties of the metrics

  /** A page is never both a 404 and a 5xx, so the two error counts fit within the page count. */
  lemma ErrorCountsBounded(pages: seq<Page>, summary: Option<CrawlSummary>)
    ensures var m := Metrics(pages, summary);
      0 <= m.errors404 && 0 <= m.errors5xx && m.errors404 + m.errors5xx <= m.totalPages
  {
    CountDisjoint(pages, Is404, Is5xx);
  }

  /** Each missing-field count is at most the number of pages. */
  lemma MissingCountsBounded(pages: seq<Page>, summary: Option<CrawlSummary>)
    ensures var m := Metrics(pages, summary);
      && 0 <= m.missingTitles <= m.totalPages
      && 0 <= m.missingDescriptions <= m.totalPages
      && 0 <= m.missingH1 <= m.totalPages
  {
    CountAtMostLength(pages, LacksTitle);
    CountAtMostLength(pages, LacksDescription);
    CountAtMostLength(pages, LacksH1);
  }

  /** The sum of the counts held by a count map. */
  ghost function MapTotal(m: map<string, nat>): nat
    decreases |m|
  {
    if |m| == 0 then 0
    else
      var k :| k in m;
      assert (m - {k}).Keys == m.Keys - {k};
      m[k] + MapTotal(m - {k})
  }

  /** Taking a present key out of a map shrinks it by one. */
  lemma RemoveKeySize(m: map<string, nat>, k: string)
    requires k in m
    ensures |m - {k}| == |m| - 1
  {
    assert (m - {k}).Keys == m.Keys - {k};
  }

  /** A non-empty map's total is one of its counts plus the total of the rest. */
  lemma MapTotalUnfold(m: map<string, nat>, k: string)
    requires k in m
    ensures exists j :: j in m && MapTotal(m) == m[j] + MapTotal(m - {j})
  {
    assert k in m.Keys && |m.Keys| == |m|;
    assert |m| != 0;
  }

  /** The total does not depend on which key is taken out first. */
  lemma MapTotalRemove(m: map<string, nat>, k: string)
    requires k in m
    ensures MapTotal(m) == m[k] + MapTotal(m - {k})
    decreases |m|, 1
  {
    MapTotalUnfold(m, k);
    var j :| j in m && MapTotal(m) == m[j] + MapTotal(m - {j});
    if j != k {
      SwapRemove(m, j, k);
    }
  }

  /** The step of MapTotalRemove where the unfolding took out another key j. */
  lemma SwapRemove(m: map<string, nat>, j: string, k: string)
    requires j in m && k in m && j != k
    requires MapTotal(m) == m[j] + MapTotal(m - {j})
    ensures MapTotal(m) == m[k] + MapTotal(m - {k})
    decreases |m|, 0
  {
    var mj, mk := m - {j}, m - {k};
    RemoveKeySize(m, j);
    RemoveKeySize(m, k);
    MapTotalRemove(mj, k);
    MapTotalRemove(mk, j);
    assert mj - {k} == mk - {j};
  }

  /** The counts of a count map add up to the number of values inserted. */
  lemma {:induction false} TallyTotal(s: seq<string>)
    ensures MapTotal(Tally(s)) == |s|
  {
    if |s| > 0 {
      var init, v := s[..|s| - 1], s[|s| - 1];
      var before := Tally(init);
      TallyTotal(init);
      var after := Bump(before, v);
      MapTotalRemove(after, v);
      if v in before {
        MapTotalRemove(before, v);
        assert after - {v} == before - {v};
      } else {
        assert after - {v} == before;
      }
    }
  }

  /** Every page either counts as missing a title or adds one to its title's count. */
  lemma TitlesAccountedFor(pages: seq<Page>, summary: Option<CrawlSummary>)
    ensures Metrics(pages, summary).missingTitles + MapTotal(Tally(Somes(pages, TitleOf))) == |pages|
  {
    SomesPartition(pages, TitleOf, LacksTitle);
    TallyTotal(Somes(pages, TitleOf));
  }

  /** Every page either counts as missing a description or adds one to its description's count. */
  lemma DescriptionsAccountedFor(pages: seq<Page>, summary: Option<CrawlSummary>)
    ensures Metrics(pages, summary).missingDescriptions + MapTotal(Tally(Somes(pages, DescriptionOf))) == |pages|
  {
    SomesPartition(pages, DescriptionOf, LacksDescription);
    TallyTotal(Somes(pages, DescriptionOf));
  }

  function TitledPage(title: string): Page
  {
    Page(200, Some(Meta(Some(title), None, None, None)), None)
  }

  /** Titles A, A, A, B give one duplicate title: repeated values are counted, not occurrences. */
  lemma DuplicateTitlesCountValues()
    ensures Metrics([TitledPage("A"), TitledPage("A"), TitledPage("A"), TitledPage("B")], None).duplicateTitles == 1
  {
    var pages := [TitledPage("A"), TitledPage("A"), TitledPage("A"), TitledPage("B")];
    assert pages[..1][..0] == [];
    assert pages[..2][..1] == pages[..1];
    assert pages[..3][..2] == pages[..2];
    assert pages[..4][..3] == pages[..3];
    assert pages[..4] == pages;
    assert Somes(pages[..1], TitleOf) == ["A"];
    assert Somes(pages[..2], TitleOf) == ["A", "A"];
    assert Somes(pages[..3], TitleOf) == ["A", "A", "A"];
    var titles := Somes(pages, TitleOf);
    assert titles == ["A", "A", "A", "B"];
    assert multiset(titles)["A"] == 3;
    assert multiset(titles)["B"] == 1;
    assert Repeated(titles) == {"A"};
  }

  function TimedPage(ms: int): Page
  {
    Page(200, None, Some(ms))
  }

  /** An empty crawl has average load time 0. */
  lemma AvgLoadTimeEmpty(summary: Option<CrawlSummary>)
    ensures Metrics([], summary).avgLoadTime == 0
  {
  }

  /** Timings 100, 200 and 300 ms average to 200 ms. */
  lemma AvgLoadTimeExample()
    ensures AvgLoadTime([TimedPage(100), TimedPage(200), TimedPage(300)]) == 200
  {
    var pages := [TimedPage(100), TimedPage(200), TimedPage(300)];
    assert pages[..1][..0] == [];
    assert pages[..2][..1] == pages[..1];
    assert pages[..3][..2] == pages[..2];
    assert Sum(pages[..1], LoadTimeOf) == 100;
    assert Sum(pages[..2], LoadTimeOf) == 300;
    assert Sum(pages, LoadTimeOf) == 600;
  }

  /** The divisor is the number of pages, timed or not: 300 ms on one of two pages averages to 150. */
  lemma AvgLoadTimeCountsUntimedPages()
    ensures AvgLoadTime([TimedPage(300), Page(200, None, None)]) == 150
  {
    var pages := [TimedPage(300), Page(200, None, None)];
    assert pages[..1][..0] == [];
    assert Sum(pages, LoadTimeOf) == 300;
  }

  /** With timings between 0 and `hi`, the average load time lies between 0 and `hi`. */
  lemma AvgLoadTimeBetween(pages: seq<Page>, hi: int)
    requires forall p :: p in pages && p.timeToInteractive.Some? ==> 0 <= p.timeToInteractive.value <= hi
    requires hi >= 0
    ensures 0 <= AvgLoadTime(pages) <= hi
  {
    if |pages| > 0 {
      SumBetween(pages, LoadTimeOf, 0, hi);
      RoundDivBetween(Sum(pages, LoadTimeOf), |pages|, 0, hi);
    }
  }
}
