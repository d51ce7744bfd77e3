/** neighborhood_v1.py: the compound crawler in two passes. The first pass walks districts,
    counties and listing pages with generators, keeps every compound it meets in
    `neighborhood_list` and appends its `asdict` to "<city>_<typ>.json"; the second reads
    each listed compound's detail page and appends its `as_dict()` to "<city>_<typ>.txt".
    The list can also be loaded from a file the first pass wrote. */
module NeighborhoodV1 {
  import opened Common
  import HomeLink
  import HomeLinkV1
  import opened N = Neighborhood

  // ----- the first pass: what the generators yield before an exception ends them -----

  /** The compounds a pass met, in order, and the exception that ended it, if any. */
  datatype Walk = Walk(items: seq<NData>, error: Option<Error>)

  /** Running one walk after another: the second runs only when the first ended normally. */
  function Then(a: Walk, b: Walk): Walk
  {
    if a.error.Some? then a else Walk(a.items + b.items, b.error)
  }

  /** The anchors of a listing page before the first one without href. */
  function Leading(links: seq<HomeLink.Anchor>): (r: seq<HomeLink.Anchor>)
    ensures |r| <= |links| && r == links[..|r|]
    ensures forall j | 0 <= j < |r| :: r[j].href.Some?
    ensures |r| < |links| ==> links[|r|].href.None?
  {
    if links == [] || links[0].href.None? then [] else [links[0]] + Leading(links[1..])
  }

  /** The leading anchors stop exactly at the first link without href. */
  lemma {:induction false} LeadingAt(links: seq<HomeLink.Anchor>, i: nat)
    requires i <= |links| && forall j | 0 <= j < i :: links[j].href.Some?
    requires i < |links| ==> links[i].href.None?
    ensures Leading(links) == links[..i]
    decreases i
  {
    if i > 0 {
      LeadingAt(links[1..], i - 1);
      assert links[..i] == [links[0]] + links[1..][..i - 1];
    }
  }

  /** The compounds of these links, tagged with where they were listed. */
  function TaggedAnchors(links: seq<HomeLink.Anchor>, district: HomeLink.Region, county: HomeLink.Region, city: string): (r: seq<NData>)
    ensures |r| == |links|
  {
    if links == [] then []
    else TaggedAnchors(links[..|links| - 1], district, county, city) + [Tagged(FromAnchor(links[|links| - 1]), district, county, city)]
  }

  lemma TaggedAnchorsSnoc(links: seq<HomeLink.Anchor>, district: HomeLink.Region, county: HomeLink.Region, city: string, i: nat)
    requires i < |links|
    ensures TaggedAnchors(links[..i + 1], district, county, city)
      == TaggedAnchors(links[..i], district, county, city) + TaggedAnchors([links[i]], district, county, city)
  {
    assert links[..i + 1][..i] == links[..i];
    assert [links[i]][..0] == [];
  }

  lemma {:induction false} TaggedAnchorsAt(links: seq<HomeLink.Anchor>, district: HomeLink.Region, county: HomeLink.Region, city: string, i: nat)
    requires i < |links|
    ensures TaggedAnchors(links, district, county, city)[i] == Tagged(FromAnchor(links[i]), district, county, city)
    decreases |links|
  {
    if i < |links| - 1 {
      TaggedAnchorsAt(links[..|links| - 1], district, county, city, i);
    }
  }

  /** v1's `get_neighborhood_from_current_page(url)` as the crawl consumes it: the bare
      request raising, or a link without href, raises out of the whole pass; the compounds
      yielded before are kept. */
  function PageWalk(site: NSite, domain: string, city: string, district: HomeLink.Region, county: HomeLink.Region, page: nat): Walk
  {
    match site.listingBare(ListingUrl(domain, county, page))
    case None => Walk([], Some(FetchFailed))
    case Some(links) =>
      var good := Leading(links);
      Walk(TaggedAnchors(good, district, county, city), if |good| == |links| then None else Some(KeyError))
  }

  /** Listing pages lo, ..., hi - 1, until one raises. */
  function PagesWalk(site: NSite, domain: string, city: string, district: HomeLink.Region, county: HomeLink.Region,
                     lo: nat, hi: int): Walk
    decreases hi - lo
  {
    if hi <= lo then Walk([], None)
    else Then(PagesWalk(site, domain, city, district, county, lo, hi - 1), PageWalk(site, domain, city, district, county, hi - 1))
  }

  /** A county: pages 1 to total_page inclusive; nothing when the page count fails or is 0. */
  function CountyWalk(site: NSite, domain: string, city: string, district: HomeLink.Region, county: HomeLink.Region): Walk
  {
    match site.totalPage(domain + county.url)
    case None => Walk([], None)
    case Some(n) => PagesWalk(site, domain, city, district, county, 1, n + 1)
  }

  function CountiesWalk(site: NSite, domain: string, city: string, district: HomeLink.Region, counties: seq<HomeLink.Region>): Walk
  {
    if counties == [] then Walk([], None)
    else
      Then(CountiesWalk(site, domain, city, district, counties[..|counties| - 1]),
           CountyWalk(site, domain, city, district, counties[|counties| - 1]))
  }

  /** `get_counties_list()` for one district: a district whose counties cannot be listed is
      skipped. */
  function DistrictWalk(site: NSite, domain: string, city: string, district: HomeLink.Region): Walk
  {
    match CountiesOf(site, domain, district)
    case Err(_) => Walk([], None)
    case Ok(counties) => CountiesWalk(site, domain, city, district, counties)
  }

  function DistrictsWalk(site: NSite, domain: string, city: string, districts: seq<HomeLink.Region>): Walk
  {
    if districts == [] then Walk([], None)
    else
      Then(DistrictsWalk(site, domain, city, districts[..|districts| - 1]),
           DistrictWalk(site, domain, city, districts[|districts| - 1]))
  }

  /** v1's `get_districts()`: the regions of the links that have an href, in order. */
  function WithHref(links: seq<HomeLink.Anchor>): (r: seq<HomeLink.Region>)
    ensures |r| <= |links|
  {
    if links == [] then []
    else
      var init, a := links[..|links| - 1], links[|links| - 1];
      WithHref(init) + (if a.href.Some? then [HomeLink.GetRegion("", a).value] else [])
  }

  /** A region is listed exactly when some link with an href yields it. */
  lemma {:induction false} WithHrefFrom(links: seq<HomeLink.Anchor>)
    ensures forall x :: x in WithHref(links) <==> exists a | a in links :: HomeLink.GetRegion("", a) == Some(x)
    decreases |links|
  {
    if links != [] {
      var init, a := links[..|links| - 1], links[|links| - 1];
      WithHrefFrom(init);
      assert links == init + [a];
      forall x
        ensures x in WithHref(links) <==> exists b | b in links :: HomeLink.GetRegion("", b) == Some(x)
      {
        if x in WithHref(links) {
          if x in WithHref(init) {
            var b :| b in init && HomeLink.GetRegion("", b) == Some(x);
            assert b in links;
          } else {
            assert HomeLink.GetRegion("", a) == Some(x);
          }
        }
        if exists b | b in links :: HomeLink.GetRegion("", b) == Some(x) {
          var b :| b in links && HomeLink.GetRegion("", b) == Some(x);
          if b in init {
            assert x in WithHref(init);
          } else {
            assert b == a;
          }
        }
      }
    }
  }

  /** When every link has an href, v1 keeps every link's region, in order. */
  lemma {:induction false} WithHrefEvery(links: seq<HomeLink.Anchor>)
    requires forall i | 0 <= i < |links| :: links[i].href.Some?
    ensures |WithHref(links)| == |links|
    ensures forall i | 0 <= i < |links| :: Some(WithHref(links)[i]) == HomeLink.GetRegion("", links[i])
    decreases |links|
  {
    if links != [] {
      var init, a := links[..|links| - 1], links[|links| - 1];
      WithHrefEvery(init);
      assert WithHref(links) == WithHref(init) + [HomeLink.GetRegion("", a).value];
    }
  }

  /** When every link has an href, v1 lists the same districts as `get_districts()` of v0. */
  lemma WithHrefAll(links: seq<HomeLink.Anchor>)
    requires forall i | 0 <= i < |links| :: links[i].href.Some?
    ensures HomeLink.RegionsOf("", links) == Some(WithHref(links))
  {
    WithHrefEvery(links);
    var r := HomeLink.RegionsOf("", links).value;
    assert |r| == |links|;
    assert r == WithHref(links);
  }

  /** The districts v1 walks, or FetchFailed when the bare request for the city page raises. */
  function DistrictsV1(site: NSite): Result<seq<HomeLink.Region>>
  {
    match site.districtLinksBare
    case None => Err(FetchFailed)
    case Some(links) => Ok(WithHref(links))
  }

  /** The whole first pass of `start_crawler_neighborhood_list`. */
  function ListWalk(site: NSite, domain: string, city: string): Walk
  {
    match DistrictsV1(site)
    case Err(e) => Walk([], Some(e))
    case Ok(districts) => DistrictsWalk(site, domain, city, districts)
  }

  // ----- properties of the first pass -----

  /** Once a page raises, the later pages of the county are not requested. */
  lemma {:induction false} PagesWalkStops(site: NSite, domain: string, city: string, district: HomeLink.Region,
                                          county: HomeLink.Region, lo: nat, k: nat, hi: int)
    requires lo <= k <= hi && PagesWalk(site, domain, city, district, county, lo, k).error.Some?
    ensures PagesWalk(site, domain, city, district, county, lo, hi) == PagesWalk(site, domain, city, district, county, lo, k)
    decreases hi - k
  {
    if k < hi {
      PagesWalkStops(site, domain, city, district, county, lo, k, hi - 1);
    }
  }

  lemma {:induction false} CountiesWalkStops(site: NSite, domain: string, city: string, district: HomeLink.Region,
                                             counties: seq<HomeLink.Region>, k: nat)
    requires k <= |counties| && CountiesWalk(site, domain, city, district, counties[..k]).error.Some?
    ensures CountiesWalk(site, domain, city, district, counties) == CountiesWalk(site, domain, city, district, counties[..k])
    decreases |counties| - k
  {
    if k == |counties| {
      assert counties[..k] == counties;
    } else {
      assert counties[..k + 1][..k] == counties[..k];
      CountiesWalkStops(site, domain, city, district, counties, k + 1);
    }
  }

  lemma {:induction false} DistrictsWalkStops(site: NSite, domain: string, city: string, districts: seq<HomeLink.Region>, k: nat)
    requires k <= |districts| && DistrictsWalk(site, domain, city, districts[..k]).error.Some?
    ensures DistrictsWalk(site, domain, city, districts) == DistrictsWalk(site, domain, city, districts[..k])
    decreases |districts| - k
  {
    if k == |districts| {
      assert districts[..k] == districts;
    } else {
      assert districts[..k + 1][..k] == districts[..k];
      DistrictsWalkStops(site, domain, city, districts, k + 1);
    }
  }

  /** A listing page whose k-th link lacks an href yields the k compounds before it, then
      ends the pass with KeyError. */
  lemma PageWalkMissingHref(site: NSite, domain: string, city: string, district: HomeLink.Region, county: HomeLink.Region,
                            page: nat, links: seq<HomeLink.Anchor>, k: nat)
    requires site.listingBare(ListingUrl(domain, county, page)) == Some(links)
    requires k < |links| && links[k].href.None? && forall j | 0 <= j < k :: links[j].href.Some?
    ensures PageWalk(site, domain, city, district, county, page)
      == Walk(TaggedAnchors(links[..k], district, county, city), Some(KeyError))
  {
    LeadingAt(links, k);
  }

  /** Every page v1 requests bare answers as `requests_get` does: status 200 at the first
      try, or both requests raising. Only then do the two crawlers read the same pages. */
  ghost predicate SameAnswers(site: NSite)
  {
    site.districtLinksBare == site.districtLinks
    && forall url :: site.listingBare(url) == site.listing(url)
  }

  /** A listing page that answers with an error status: `requests_get` raises, so the first
      crawler skips the page, while v1 parses the error page, yields its links and goes on. */
  lemma PageWalkErrorPage(site: NSite, domain: string, city: string, district: HomeLink.Region, county: HomeLink.Region,
                          page: nat, links: seq<HomeLink.Anchor>)
    requires site.listing(ListingUrl(domain, county, page)).None?
    requires site.listingBare(ListingUrl(domain, county, page)) == Some(links)
    requires forall j | 0 <= j < |links| :: links[j].href.Some?
    ensures PageVisits(site, domain, city, district, county, page) == []
    ensures PageWalk(site, domain, city, district, county, page) == Walk(TaggedAnchors(links, district, county, city), None)
  {
    LeadingAt(links, |links|);
    assert links[..|links|] == links;
  }

  /** A city page that answers with an error status: the first crawler raises FetchFailed
      before it lists anything, while v1 walks the districts linked from the error page. */
  lemma DistrictsErrorPage(site: NSite, links: seq<HomeLink.Anchor>)
    requires site.districtLinks.None? && site.districtLinksBare == Some(links)
    ensures DistrictsOf(site) == Err(FetchFailed)
    ensures DistrictsV1(site) == Ok(WithHref(links))
  {
  }

  /** A page that does not raise, and whose bare answer is `requests_get`'s, yields what the
      first crawler visits on it. */
  lemma PageWalkAgrees(site: NSite, domain: string, city: string, district: HomeLink.Region, county: HomeLink.Region, page: nat)
    requires site.listingBare(ListingUrl(domain, county, page)) == site.listing(ListingUrl(domain, county, page))
    requires PageWalk(site, domain, city, district, county, page).error.None?
    ensures PageWalk(site, domain, city, district, county, page).items == PageVisits(site, domain, city, district, county, page)
  {
    var links := site.listingBare(ListingUrl(domain, county, page)).value;
    assert Leading(links) == links;
    var listed := Listed(links).value;
    forall i | 0 <= i < |links|
      ensures TaggedAnchors(links, district, county, city)[i] == TagEach(listed, district, county, city)[i]
    {
      TaggedAnchorsAt(links, district, county, city, i);
    }
  }

  /** One more page, for the walk and for the first crawler's visits alike. */
  lemma PagesStep(site: NSite, domain: string, city: string, district: HomeLink.Region, county: HomeLink.Region, lo: nat, hi: int)
    requires lo < hi
    ensures PagesWalk(site, domain, city, district, county, lo, hi)
      == Then(PagesWalk(site, domain, city, district, county, lo, hi - 1), PageWalk(site, domain, city, district, county, hi - 1))
    ensures PagesVisits(site, domain, city, district, county, lo, hi)
      == PagesVisits(site, domain, city, district, county, lo, hi - 1) + PageVisits(site, domain, city, district, county, hi - 1)
  {
  }

  lemma {:induction false} PagesWalkAgrees(site: NSite, domain: string, city: string, district: HomeLink.Region,
                                           county: HomeLink.Region, lo: nat, hi: int)
    requires forall i: nat | lo <= i < hi :: site.listingBare(ListingUrl(domain, county, i)) == site.listing(ListingUrl(domain, county, i))
    requires PagesWalk(site, domain, city, district, county, lo, hi).error.None?
    ensures PagesWalk(site, domain, city, district, county, lo, hi).items == PagesVisits(site, domain, city, district, county, lo, hi)
    decreases hi - lo
  {
    if lo < hi {
      PagesStep(site, domain, city, district, county, lo, hi);
      PagesWalkAgrees(site, domain, city, district, county, lo, hi - 1);
      PageWalkAgrees(site, domain, city, district, county, hi - 1);
    }
  }

  lemma {:induction false} CountiesWalkAgrees(site: NSite, domain: string, city: string, district: HomeLink.Region,
                                              counties: seq<HomeLink.Region>)
    requires SameAnswers(site)
    requires CountiesWalk(site, domain, city, district, counties).error.None?
    ensures CountiesWalk(site, domain, city, district, counties).items == CountiesVisits(site, domain, city, district, counties)
    decreases |counties|
  {
    if counties != [] {
      var county := counties[|counties| - 1];
      CountiesWalkAgrees(site, domain, city, district, counties[..|counties| - 1]);
      var total := site.totalPage(domain + county.url);
      if total.Some? {
        PagesWalkAgrees(site, domain, city, district, county, 1, total.value + 1);
      }
    }
  }

  lemma {:induction false} DistrictsWalkAgrees(site: NSite, domain: string, city: string, districts: seq<HomeLink.Region>)
    requires SameAnswers(site)
    requires CountiesList(site, domain, districts).Ok?
    requires DistrictsWalk(site, domain, city, districts).error.None?
    ensures DistrictsWalk(site, domain, city, districts).items == PairsVisits(site, domain, city, CountiesList(site, domain, districts).value)
    decreases |districts|
  {
    if districts != [] {
      var init, d := districts[..|districts| - 1], districts[|districts| - 1];
      var pairs := CountiesList(site, domain, districts).value;
      assert pairs == CountiesList(site, domain, init).value + [(CountiesOf(site, domain, d).value, d)];
      assert pairs[..|pairs| - 1] == CountiesList(site, domain, init).value;
      DistrictsWalkAgrees(site, domain, city, init);
      CountiesWalkAgrees(site, domain, city, d, CountiesOf(site, domain, d).value);
    }
  }

  /** When every bare answer is `requests_get`'s and neither crawler raises, the first pass
      of v1 meets exactly the compounds `start_crawler` of the first crawler visits, in the
      same order. */
  lemma ListWalkAgrees(site: NSite, domain: string, city: string)
    requires SameAnswers(site)
    requires Crawl(site, domain, city).Ok? && ListWalk(site, domain, city).error.None?
    ensures ListWalk(site, domain, city).items == Crawl(site, domain, city).value
  {
    var links := site.districtLinks.value;
    WithHrefAll(links);
    DistrictsWalkAgrees(site, domain, city, WithHref(links));
  }

  // ----- loading the list from a file -----

  /** One line of a url-list file as `get_neighborhood_list_from_file` reads it. */
  datatype LineRead = Skip | Record(d: NData) | Fail(e: Error)

  /** Skipped when json.loads fails or gives no dict; TypeError from `Neighborhood(**d)`
      when a key names no field. */
  function ReadLine(line: string, parse: string -> Option<Value>): LineRead
  {
    match parse(line)
    case None => Skip
    case Some(v) =>
      if !v.Dict? then Skip
      else match FromFields(v.entries)
        case None => Fail(TypeError)
        case Some(d) => Record(d)
  }

  /** `_url_list`: the urls of the compounds taken so far. */
  function UrlList(ds: seq<NData>): (r: seq<Value>)
    ensures |r| == |ds| && forall i | 0 <= i < |ds| :: r[i] == ds[i].url
  {
    seq(|ds|, i requires 0 <= i < |ds| => ds[i].url)
  }

  function UrlOf(d: NData): Value
  {
    d.url
  }

  /** The compounds `get_neighborhood_list_from_file` appends, in order: the first of each
      url; the exception that ends it, if any. */
  function ListFromFile(lines: seq<string>, parse: string -> Option<Value>): Walk
  {
    if lines == [] then Walk([], None)
    else
      var before := ListFromFile(lines[..|lines| - 1], parse);
      if before.error.Some? then before
      else match ReadLine(lines[|lines| - 1], parse)
        case Skip => before
        case Fail(e) => Walk(before.items, Some(e))
        case Record(d) => if d.url in UrlList(before.items) then before else Walk(before.items + [d], None)
  }

  /** The records the lines hold, in order, until one fails. */
  function Decoded(lines: seq<string>, parse: string -> Option<Value>): seq<NData>
  {
    if lines == [] then []
    else
      Decoded(lines[..|lines| - 1], parse)
      + match ReadLine(lines[|lines| - 1], parse) case Record(d) => [d] case _ => []
  }

  lemma {:induction false} ListFromFileStops(lines: seq<string>, parse: string -> Option<Value>, k: nat)
    requires k <= |lines| && ListFromFile(lines[..k], parse).error.Some?
    ensures ListFromFile(lines, parse) == ListFromFile(lines[..k], parse)
    decreases |lines| - k
  {
    if k == |lines| {
      assert lines[..k] == lines;
    } else {
      assert lines[..k + 1][..k] == lines[..k];
      ListFromFileStops(lines, parse, k + 1);
    }
  }

  /** A file read that does not raise keeps the first record of each url: it is
      `drop_duplicates` on the url of what the lines hold. */
  /** A url is on the url list of some records exactly when one of them has it. */
  lemma UrlListKeys(ds: seq<NData>, u: Value)
    ensures u in UrlList(ds) <==> u in KeysOf(ds, UrlOf)
  {
    KeysOfMember(ds, UrlOf);
    if u in KeysOf(ds, UrlOf) {
      var i :| 0 <= i < |ds| && UrlOf(ds[i]) == u;
      assert UrlList(ds)[i] == u;
    }
  }

  lemma {:induction false} ListFromFileDedup(lines: seq<string>, parse: string -> Option<Value>)
    requires ListFromFile(lines, parse).error.None?
    ensures ListFromFile(lines, parse).items == DedupBy(Decoded(lines, parse), UrlOf)
    decreases |lines|
  {
    if lines != [] {
      var init := lines[..|lines| - 1];
      var before := ListFromFile(init, parse);
      var ds := Decoded(init, parse);
      ListFromFileDedup(init, parse);
      match ReadLine(lines[|lines| - 1], parse)
      case Skip =>
        assert Decoded(lines, parse) == ds + [];
        assert ds + [] == ds;
      case Record(d) =>
        assert Decoded(lines, parse) == ds + [d];
        assert (ds + [d])[..|ds|] == ds;
        DedupAfterKeySet({}, ds, UrlOf);
        UrlListKeys(before.items, d.url);
    }
  }

  /** The lines of a url-list file holding these records, as `save_json(asdict(n))` wrote
      them. */
  function ListLines(ds: seq<NData>, dumps: Value -> string): (r: seq<string>)
    ensures |r| == |ds| && forall i | 0 <= i < |ds| :: r[i] == LineText(Encoded(Dict(Fields(ds[i]))), dumps)
  {
    seq(|ds|, i requires 0 <= i < |ds| => LineText(Encoded(Dict(Fields(ds[i]))), dumps))
  }

  /** A line `save_json(asdict(d))` wrote reads back as d. */
  lemma ReadListLine(d: NData, dumps: Value -> string, parse: string -> Option<Value>)
    requires forall v :: parse(dumps(v) + "\n") == Some(v)
    ensures ReadLine(LineText(Encoded(Dict(Fields(d))), dumps), parse) == Record(d)
  {
    assert LineText(Encoded(Dict(Fields(d))), dumps) == dumps(Dict(Fields(d))) + "\n";
    FromFieldsOfFields(d);
  }

  /** Lines that each hold a record read back as those records, without an exception. */
  lemma {:induction false} DecodedRecords(lines: seq<string>, ds: seq<NData>, parse: string -> Option<Value>)
    requires |lines| == |ds| && forall i | 0 <= i < |ds| :: ReadLine(lines[i], parse) == Record(ds[i])
    ensures ListFromFile(lines, parse).error.None?
    ensures Decoded(lines, parse) == ds
    decreases |ds|
  {
    if ds != [] {
      var init, d := ds[..|ds| - 1], ds[|ds| - 1];
      DecodedRecords(lines[..|lines| - 1], init, parse);
      assert ds == init + [d];
    }
  }

  /** Reading back the url-list file the first pass wrote (with a json.loads that inverts
      json.dumps) gives its compounds again, each url once, in first-seen order. */
  lemma ListFileRoundTrip(ds: seq<NData>, dumps: Value -> string, parse: string -> Option<Value>)
    requires forall v :: parse(dumps(v) + "\n") == Some(v)
    ensures ListFromFile(ListLines(ds, dumps), parse) == Walk(DedupBy(ds, UrlOf), None)
  {
    var lines := ListLines(ds, dumps);
    forall i | 0 <= i < |ds|
      ensures ReadLine(lines[i], parse) == Record(ds[i])
    {
      ReadListLine(ds[i], dumps, parse);
    }
    DecodedRecords(lines, ds, parse);
    ListFromFileDedup(lines, parse);
  }

  // ----- the second pass -----

  /** A compound after `get_neighborhood`: its detail fields filled in, or as it was when the
      request raised. */
  function DetailOr(pages: string -> Option<Page>, d: NData): NData
  {
    match Detailed(pages, d)
    case None => d
    case Some(x) => x
  }

  /** The list after `get_all_neighborhood(start, end)`: the compounds whose index lies in
      the window are detailed, the others are untouched. */
  function Processed(ds: seq<NData>, pages: string -> Option<Page>, start: int, end: int): (r: seq<NData>)
    ensures |r| == |ds|
  {
    if ds == [] then []
    else
      var i := |ds| - 1;
      Processed(ds[..i], pages, start, end) + [if HomeLinkV1.InWindow(i, start, end) then DetailOr(pages, ds[i]) else ds[i]]
  }

  /** The compound at index i after the second pass. */
  lemma {:induction false} ProcessedAt(ds: seq<NData>, pages: string -> Option<Page>, start: int, end: int, i: nat)
    requires i < |ds|
    ensures Processed(ds, pages, start, end)[i] == if HomeLinkV1.InWindow(i, start, end) then DetailOr(pages, ds[i]) else ds[i]
    decreases |ds|
  {
    if i < |ds| - 1 {
      ProcessedAt(ds[..|ds| - 1], pages, start, end, i);
    }
  }

  /** The second pass changes no compound's identity: city, district, county, name and url
      stay as the first pass set them. */
  lemma ProcessedKeepsIdentity(ds: seq<NData>, pages: string -> Option<Page>, start: int, end: int, i: nat)
    requires i < |ds|
    ensures var r := Processed(ds, pages, start, end)[i];
      r.cityName == ds[i].cityName && r.district == ds[i].district && r.county == ds[i].county
      && r.name == ds[i].name && r.url == ds[i].url
  {
    ProcessedAt(ds, pages, start, end, i);
    if HomeLinkV1.InWindow(i, start, end) && Detailed(pages, ds[i]).Some? {
      WithDetailFields(ds[i], ds[i], pages(ds[i].url.s).value);
    }
  }

  /** The records the second pass saves, in index order. */
  function WindowRecords(ds: seq<NData>, pages: string -> Option<Page>, start: int, end: int): seq<Value>
  {
    if ds == [] then []
    else
      WindowRecords(ds[..|ds| - 1], pages, start, end)
      + if HomeLinkV1.InWindow(|ds| - 1, start, end) then Records(pages, [ds[|ds| - 1]]) else []
  }

  /** Once the second loop has passed the whole list, what it holds and what it saved are
      the whole pass's. */
  lemma WindowDone(ds: seq<NData>, pages: string -> Option<Page>, start: int, end: int)
    ensures Processed(ds[..|ds|], pages, start, end) + ds[|ds|..] == Processed(ds, pages, start, end)
    ensures WindowRecords(ds[..|ds|], pages, start, end) == WindowRecords(ds, pages, start, end)
  {
    assert ds[..|ds|] == ds && ds[|ds|..] == [];
    assert Processed(ds, pages, start, end) + [] == Processed(ds, pages, start, end);
  }

  /** The window picks the slice [start, end] of the list (to its end when end is 0); what is
      saved for it is what the first crawler saves for those compounds. */
  lemma {:induction false} WindowRecordsSlice(ds: seq<NData>, pages: string -> Option<Page>, start: nat, end: int)
    requires start <= |ds| && |ds| <= HomeLinkV1.Upper(end) + 1
    ensures WindowRecords(ds, pages, start, end) == Records(pages, ds[start..])
    decreases |ds|
  {
    if |ds| == start {
      assert ds[start..] == [];
      WindowRecordsNone(ds, pages, start, end);
    } else {
      var init := ds[..|ds| - 1];
      WindowRecordsSlice(init, pages, start, end);
      assert ds[start..] == init[start..] + [ds[|ds| - 1]];
      RecordsConcat(pages, init[start..], [ds[|ds| - 1]]);
    }
  }

  lemma {:induction false} WindowRecordsNone(ds: seq<NData>, pages: string -> Option<Page>, start: int, end: int)
    requires |ds| <= start
    ensures WindowRecords(ds, pages, start, end) == []
    decreases |ds|
  {
    if ds != [] {
      WindowRecordsNone(ds[..|ds| - 1], pages, start, end);
    }
  }

  /** The `asdict` records of the url-list file. */
  function FieldDicts(ds: seq<NData>): seq<Value>
  {
    if ds == [] then [] else FieldDicts(ds[..|ds| - 1]) + [Dict(Fields(ds[|ds| - 1]))]
  }

  lemma {:induction false} FieldDictsConcat(a: seq<NData>, b: seq<NData>)
    ensures FieldDicts(a + b) == FieldDicts(a) + FieldDicts(b)
    decreases |b|
  {
    if b != [] {
      assert (a + b)[..|a + b| - 1] == a + b[..|b| - 1];
      FieldDictsConcat(a, b[..|b| - 1]);
    } else {
      assert a + b == a;
    }
  }

  /** Since the list held d0 and the files f0, exactly `items` were appended to the list
      and their `asdict`s to the url-list file at path. */
  ghost predicate AddedSince(d0: seq<NData>, f0: map<string, seq<Line>>, path: string, items: seq<NData>,
                             now: seq<NData>, fnow: map<string, seq<Line>>)
  {
    now == d0 + items && fnow == Appended(f0, path, FieldDicts(items))
  }

  /** One step of a first-pass loop: what the step appended joins what the loop appended
      before it. */
  lemma JsonStep(d0: seq<NData>, f0: map<string, seq<Line>>, path: string, done: seq<NData>,
                 cur: seq<NData>, fcur: map<string, seq<Line>>, next: seq<NData>,
                 now: seq<NData>, fnow: map<string, seq<Line>>)
    requires AddedSince(d0, f0, path, done, cur, fcur) && AddedSince(cur, fcur, path, next, now, fnow)
    ensures AddedSince(d0, f0, path, done + next, now, fnow)
  {
    FieldDictsConcat(done, next);
    AppendedTwice(f0, path, FieldDicts(done), FieldDicts(next));
    ConcatAssoc(d0, done, next);
  }

  /** `files` is `f0` with the records of the compounds of `done` that lie in the window
      appended to `path`. */
  ghost predicate SavedWindow(f0: map<string, seq<Line>>, path: string, done: seq<NData>, pages: string -> Option<Page>,
                              start: int, end: int, files: map<string, seq<Line>>)
  {
    files == Appended(f0, path, WindowRecords(done, pages, start, end))
  }

  /** One step of the second loop of `get_all_neighborhood`. */
  lemma WindowStep(before: seq<NData>, idx: nat, pages: string -> Option<Page>, start: int, end: int,
                   cur: seq<NData>, now: seq<NData>, f0: map<string, seq<Line>>, fcur: map<string, seq<Line>>,
                   fnow: map<string, seq<Line>>, path: string)
    requires idx < |before| && cur == Processed(before[..idx], pages, start, end) + before[idx..]
    requires now == cur[idx := if HomeLinkV1.InWindow(idx, start, end) then DetailOr(pages, cur[idx]) else cur[idx]]
    requires fcur == Appended(f0, path, WindowRecords(before[..idx], pages, start, end))
    requires fnow == Appended(fcur, path, if HomeLinkV1.InWindow(idx, start, end) then Records(pages, [cur[idx]]) else [])
    ensures now == Processed(before[..idx + 1], pages, start, end) + before[idx + 1..]
    ensures fnow == Appended(f0, path, WindowRecords(before[..idx + 1], pages, start, end))
  {
    var p := Processed(before[..idx], pages, start, end);
    assert before[..idx + 1][..idx] == before[..idx];
    assert cur[idx] == before[idx];
    assert before[idx..] == [before[idx]] + before[idx + 1..];
    var v := if HomeLinkV1.InWindow(idx, start, end) then DetailOr(pages, before[idx]) else before[idx];
    assert Processed(before[..idx + 1], pages, start, end) == p + [v];
    assert now == (p + [v]) + before[idx + 1..];
    AppendedTwice(f0, path, WindowRecords(before[..idx], pages, start, end),
                  if HomeLinkV1.InWindow(idx, start, end) then Records(pages, [before[idx]]) else []);
    assert WindowRecords(before[..idx + 1], pages, start, end) == WindowRecords(before[..idx], pages, start, end)
      + if HomeLinkV1.InWindow(idx, start, end) then Records(pages, [before[idx]]) else [];
  }

  // ----- the spider -----

  class NeighborhoodSpiderV1 {
    /** The part inherited from `NeighborhoodSpider`. */
    const parent: NeighborhoodSpider
    const cityZhName: string
    const savePathName: string
    var neighborhoodList: seq<Neighborhood>
    /** The data the objects of `neighborhoodList` hold, in order. */
    ghost var listData: seq<NData>

    /** Each object is on the list once, and `listData` is what the objects hold. */
    ghost predicate Valid()
      reads this, neighborhoodList
    {
      |listData| == |neighborhoodList|
      && (forall i | 0 <= i < |neighborhoodList| :: neighborhoodList[i].Data() == listData[i])
      && forall i, j | 0 <= i < j < |neighborhoodList| :: neighborhoodList[i] != neighborhoodList[j]
    }

    constructor (cityAbbreviation: string, cityZhName: string, typ: string)
      ensures parent.cityAbbreviation == cityAbbreviation && parent.cityZhName == cityZhName && parent.typ == typ
      ensures parent.domain == HomeLink.Domain(cityAbbreviation) && this.cityZhName == cityZhName
      ensures savePathName == cityAbbreviation + "_" + typ
      ensures neighborhoodList == [] && listData == [] && Valid()
    {
      parent := new NeighborhoodSpider(cityAbbreviation, cityZhName, typ);
      this.cityZhName := cityZhName;
      savePathName := cityAbbreviation + "_" + typ;
      neighborhoodList := [];
      listData := [];
    }

    function JsonPath(): string
    {
      savePathName + ".json"
    }

    function TxtPath(): string
    {
      savePathName + ".txt"
    }

    /** `Neighborhood(**neighborhood)` for a link, then tagged with the county, the district
        and the city. */
    method NewTagged(district: HomeLink.Region, county: HomeLink.Region, a: HomeLink.Anchor) returns (n: Neighborhood)
      ensures fresh(n) && n.Data() == Tagged(FromAnchor(a), district, county, cityZhName)
    {
      n := new Neighborhood(FromAnchor(a));
      n.county := OptStr(county.name);
      n.district := OptStr(district.name);
      n.cityName := Str(cityZhName);
    }

    /** `self.neighborhood_list.append(neighborhood)` for an object not yet on the list. */
    method Push(n: Neighborhood)
      requires Valid() && n !in neighborhoodList
      modifies this
      ensures neighborhoodList == old(neighborhoodList) + [n] && listData == old(listData) + [n.Data()]
      ensures Valid()
    {
      neighborhoodList := neighborhoodList + [n];
      listData := listData + [n.Data()];
    }

    /** The body of the innermost loop of the first pass: tag the compound, append it to the
        list and save its `asdict` to the url-list file. */
    method AddNeighborhood(disk: Disk, district: HomeLink.Region, county: HomeLink.Region, a: HomeLink.Anchor)
      requires Valid()
      modifies this, disk
      ensures forall n | n in neighborhoodList :: n in old(neighborhoodList) || fresh(n)
      ensures Valid()
      ensures AddedSince(old(listData), old(disk.files), JsonPath(), TaggedAnchors([a], district, county, cityZhName), listData, disk.files)
    {
      var n := NewTagged(district, county, a);
      Push(n);
      SavedOne(disk.files, JsonPath(), Dict(Fields(n.Data())));
      assert FieldDicts([n.Data()]) == [Dict(Fields(n.Data()))];
      disk.SaveJson(Dict(Fields(n.Data())), JsonPath());
      assert TaggedAnchors([a], district, county, cityZhName) == [n.Data()] by {
        assert [a][..0] == [];
      }
    }

    /** One turn of the loop over a listing page's links, stated as the loop's invariant
        carried one link on. */
    method AddAnchorAt(disk: Disk, district: HomeLink.Region, county: HomeLink.Region, anchors: seq<HomeLink.Anchor>, i: nat,
                       ghost d0: seq<NData>, ghost f0: map<string, seq<Line>>)
      requires Valid() && i < |anchors|
      requires AddedSince(d0, f0, JsonPath(), TaggedAnchors(anchors[..i], district, county, cityZhName), listData, disk.files)
      modifies this, disk
      ensures forall n | n in neighborhoodList :: n in old(neighborhoodList) || fresh(n)
      ensures Valid()
      ensures AddedSince(d0, f0, JsonPath(), TaggedAnchors(anchors[..i + 1], district, county, cityZhName), listData, disk.files)
    {
      ghost var done := TaggedAnchors(anchors[..i], district, county, cityZhName);
      ghost var next := TaggedAnchors([anchors[i]], district, county, cityZhName);
      ghost var cur, fcur := listData, disk.files;
      AddNeighborhood(disk, district, county, anchors[i]);
      JsonStep(d0, f0, JsonPath(), done, cur, fcur, next, listData, disk.files);
      TaggedAnchorsSnoc(anchors, district, county, cityZhName, i);
    }

    /** `for neighborhood in self.get_neighborhood_from_current_page(url)` once the page is
        fetched: a link without href raises KeyError out of the generator. */
    method ListAnchors(disk: Disk, district: HomeLink.Region, county: HomeLink.Region, anchors: seq<HomeLink.Anchor>)
      returns (err: Option<Error>)
      requires Valid()
      modifies this, disk
      ensures forall n | n in neighborhoodList :: n in old(neighborhoodList) || fresh(n)
      ensures Valid()
      ensures err == if |Leading(anchors)| == |anchors| then None else Some(KeyError)
      ensures AddedSince(old(listData), old(disk.files), JsonPath(), TaggedAnchors(Leading(anchors), district, county, cityZhName),
                         listData, disk.files)
    {
      ghost var d0 := listData;
      ghost var f0 := disk.files;
      ghost var l0 := neighborhoodList;
      var i := 0;
      while i < |anchors|
        invariant forall n | n in neighborhoodList :: n in l0 || fresh(n)
        invariant 0 <= i <= |anchors| && Valid()
        invariant forall j | 0 <= j < i :: anchors[j].href.Some?
        invariant AddedSince(d0, f0, JsonPath(), TaggedAnchors(anchors[..i], district, county, cityZhName), listData, disk.files)
      {
        if anchors[i].href.None? {
          LeadingAt(anchors, i);
          return Some(KeyError);
        }
        AddAnchorAt(disk, district, county, anchors, i, d0, f0);
        i := i + 1;
      }
      LeadingAt(anchors, i);
      assert anchors[..i] == anchors;
      return None;
    }

    /** One listing page of the first pass. */
    method ListPage(site: NSite, disk: Disk, district: HomeLink.Region, county: HomeLink.Region, page: nat)
      returns (err: Option<Error>)
      requires Valid()
      modifies this, disk
      ensures forall n | n in neighborhoodList :: n in old(neighborhoodList) || fresh(n)
      ensures Valid()
      ensures err == PageWalk(site, parent.domain, cityZhName, district, county, page).error
      ensures AddedSince(old(listData), old(disk.files), JsonPath(), PageWalk(site, parent.domain, cityZhName, district, county, page).items,
                         listData, disk.files)
    {
      var links := site.listingBare(parent.domain + county.url + "pg" + NatToString(page));
      assert parent.domain + county.url + "pg" + NatToString(page) == ListingUrl(parent.domain, county, page);
      if links.None? {
        return Some(FetchFailed);
      }
      err := ListAnchors(disk, district, county, links.value);
    }

    /** One turn of the loop over the listing pages, stated as the loop's invariant carried
        one page on. */
    method ListPageAt(site: NSite, disk: Disk, district: HomeLink.Region, county: HomeLink.Region, page: nat,
                      ghost d0: seq<NData>, ghost f0: map<string, seq<Line>>)
      returns (err: Option<Error>)
      requires Valid() && page >= 1
      requires var w := PagesWalk(site, parent.domain, cityZhName, district, county, 1, page);
        w.error.None? && AddedSince(d0, f0, JsonPath(), w.items, listData, disk.files)
      modifies this, disk
      ensures forall n | n in neighborhoodList :: n in old(neighborhoodList) || fresh(n)
      ensures Valid()
      ensures var w := PagesWalk(site, parent.domain, cityZhName, district, county, 1, page + 1);
        err == w.error && AddedSince(d0, f0, JsonPath(), w.items, listData, disk.files)
    {
      ghost var done := PagesWalk(site, parent.domain, cityZhName, district, county, 1, page).items;
      ghost var cur, fcur := listData, disk.files;
      err := ListPage(site, disk, district, county, page);
      ghost var next := PageWalk(site, parent.domain, cityZhName, district, county, page).items;
      assert PagesWalk(site, parent.domain, cityZhName, district, county, 1, page + 1)
        == Then(PagesWalk(site, parent.domain, cityZhName, district, county, 1, page), PageWalk(site, parent.domain, cityZhName, district, county, page));
      JsonStep(d0, f0, JsonPath(), done, cur, fcur, next, listData, disk.files);
    }

    /** `for page in range(1, total_page + 1)` in the first pass. */
    method ListPages(site: NSite, disk: Disk, district: HomeLink.Region, county: HomeLink.Region, totalPage: int)
      returns (err: Option<Error>)
      requires Valid()
      modifies this, disk
      ensures forall n | n in neighborhoodList :: n in old(neighborhoodList) || fresh(n)
      ensures Valid()
      ensures var w := PagesWalk(site, parent.domain, cityZhName, district, county, 1, totalPage + 1);
        err == w.error && AddedSince(old(listData), old(disk.files), JsonPath(), w.items, listData, disk.files)
    {
      ghost var d0 := listData;
      ghost var f0 := disk.files;
      ghost var l0 := neighborhoodList;
      var page := 1;
      while page <= totalPage
        invariant forall n | n in neighborhoodList :: n in l0 || fresh(n)
        invariant page == 1 || 1 < page <= totalPage + 1
        invariant Valid()
        invariant var w := PagesWalk(site, parent.domain, cityZhName, district, county, 1, page);
          w.error.None? && AddedSince(d0, f0, JsonPath(), w.items, listData, disk.files)
      {
        err := ListPageAt(site, disk, district, county, page, d0, f0);
        if err.Some? {
          PagesWalkStops(site, parent.domain, cityZhName, district, county, 1, page + 1, totalPage + 1);
          return;
        }
        page := page + 1;
      }
      assert PagesWalk(site, parent.domain, cityZhName, district, county, 1, totalPage + 1)
        == PagesWalk(site, parent.domain, cityZhName, district, county, 1, page);
      return None;
    }

    /** One county of the first pass: skipped when its page count fails or is 0. */
    method ListCounty(site: NSite, disk: Disk, district: HomeLink.Region, county: HomeLink.Region)
      returns (err: Option<Error>)
      requires Valid()
      modifies this, disk
      ensures forall n | n in neighborhoodList :: n in old(neighborhoodList) || fresh(n)
      ensures Valid()
      ensures var w := CountyWalk(site, parent.domain, cityZhName, district, county);
        err == w.error && AddedSince(old(listData), old(disk.files), JsonPath(), w.items, listData, disk.files)
    {
      var totalPage := site.totalPage(parent.domain + county.url);
      if totalPage.None? || totalPage.value == 0 {
        return None;
      }
      err := ListPages(site, disk, district, county, totalPage.value);
    }

    method ListCounties(site: NSite, disk: Disk, district: HomeLink.Region, counties: seq<HomeLink.Region>)
      returns (err: Option<Error>)
      requires Valid()
      modifies this, disk
      ensures forall n | n in neighborhoodList :: n in old(neighborhoodList) || fresh(n)
      ensures Valid()
      ensures var w := CountiesWalk(site, parent.domain, cityZhName, district, counties);
        err == w.error && AddedSince(old(listData), old(disk.files), JsonPath(), w.items, listData, disk.files)
    {
      ghost var d0 := listData;
      ghost var f0 := disk.files;
      assert counties[..0] == [];
      ghost var l0 := neighborhoodList;
      var i := 0;
      while i < |counties|
        invariant forall n | n in neighborhoodList :: n in l0 || fresh(n)
        invariant 0 <= i <= |counties| && Valid()
        invariant var w := CountiesWalk(site, parent.domain, cityZhName, district, counties[..i]);
          w.error.None? && AddedSince(d0, f0, JsonPath(), w.items, listData, disk.files)
      {
        assert counties[..i + 1][..i] == counties[..i];
        ghost var done := CountiesWalk(site, parent.domain, cityZhName, district, counties[..i]).items;
        ghost var cur, fcur := listData, disk.files;
        err := ListCounty(site, disk, district, counties[i]);
        ghost var next := CountyWalk(site, parent.domain, cityZhName, district, counties[i]).items;
        assert CountiesWalk(site, parent.domain, cityZhName, district, counties[..i + 1])
          == Then(CountiesWalk(site, parent.domain, cityZhName, district, counties[..i]), CountyWalk(site, parent.domain, cityZhName, district, counties[i]));
        JsonStep(d0, f0, JsonPath(), done, cur, fcur, next, listData, disk.files);
        if err.Some? {
          CountiesWalkStops(site, parent.domain, cityZhName, district, counties, i + 1);
          return;
        }
        i := i + 1;
      }
      assert counties[..i] == counties;
      return None;
    }

    /** One district of `get_counties_list()`: skipped when its counties cannot be listed. */
    method ListDistrict(site: NSite, disk: Disk, district: HomeLink.Region) returns (err: Option<Error>)
      requires Valid()
      modifies this, disk
      ensures forall n | n in neighborhoodList :: n in old(neighborhoodList) || fresh(n)
      ensures Valid()
      ensures var w := DistrictWalk(site, parent.domain, cityZhName, district);
        err == w.error && AddedSince(old(listData), old(disk.files), JsonPath(), w.items, listData, disk.files)
    {
      var counties := CountiesOf(site, parent.domain, district);
      if counties.Err? {
        return None;
      }
      err := ListCounties(site, disk, district, counties.value);
    }

    /** `for counties, district in self.get_counties_list()`. */
    method ListDistricts(site: NSite, disk: Disk, districts: seq<HomeLink.Region>) returns (err: Option<Error>)
      requires Valid()
      modifies this, disk
      ensures forall n | n in neighborhoodList :: n in old(neighborhoodList) || fresh(n)
      ensures Valid()
      ensures var w := DistrictsWalk(site, parent.domain, cityZhName, districts);
        err == w.error && AddedSince(old(listData), old(disk.files), JsonPath(), w.items, listData, disk.files)
    {
      ghost var d0 := listData;
      ghost var f0 := disk.files;
      assert districts[..0] == [];
      ghost var l0 := neighborhoodList;
      var i := 0;
      while i < |districts|
        invariant forall n | n in neighborhoodList :: n in l0 || fresh(n)
        invariant 0 <= i <= |districts| && Valid()
        invariant var w := DistrictsWalk(site, parent.domain, cityZhName, districts[..i]);
          w.error.None? && AddedSince(d0, f0, JsonPath(), w.items, listData, disk.files)
      {
        assert districts[..i + 1][..i] == districts[..i];
        ghost var done := DistrictsWalk(site, parent.domain, cityZhName, districts[..i]).items;
        ghost var cur, fcur := listData, disk.files;
        err := ListDistrict(site, disk, districts[i]);
        ghost var next := DistrictWalk(site, parent.domain, cityZhName, districts[i]).items;
        assert DistrictsWalk(site, parent.domain, cityZhName, districts[..i + 1])
          == Then(DistrictsWalk(site, parent.domain, cityZhName, districts[..i]), DistrictWalk(site, parent.domain, cityZhName, districts[i]));
        JsonStep(d0, f0, JsonPath(), done, cur, fcur, next, listData, disk.files);
        if err.Some? {
          DistrictsWalkStops(site, parent.domain, cityZhName, districts, i + 1);
          return;
        }
        i := i + 1;
      }
      assert districts[..i] == districts;
      return None;
    }

    /** `get_neighborhood(n)`: read n's detail page and save its record; an exception is
        caught and n left as it was. */
    method GetNeighborhood(n: Neighborhood, pages: string -> Option<Page>, disk: Disk)
      modifies n, disk
      ensures n.Data() == DetailOr(pages, old(n.Data()))
      ensures disk.files == Appended(old(disk.files), TxtPath(), Records(pages, [old(n.Data())]))
    {
      RecordsOne(pages, n.Data());
      var ok := parent.GetNeighborhoodDetailInfo(n, pages);
      if ok {
        SavedOne(disk.files, TxtPath(), AsDict(n.Data()));
        disk.SaveJson(AsDict(n.Data()), TxtPath());
      }
    }

    /** One step of the second loop of `get_all_neighborhood`: the compound at idx is
        detailed when idx lies in the window. */
    method ProcessAt(idx: nat, upper: int, pages: string -> Option<Page>, disk: Disk, start: int, end: int)
      requires Valid() && idx < |neighborhoodList| && upper == HomeLinkV1.Upper(end)
      modifies this, disk, neighborhoodList[idx]
      ensures Valid() && neighborhoodList == old(neighborhoodList)
      ensures listData == old(listData)[idx := if HomeLinkV1.InWindow(idx, start, end) then DetailOr(pages, old(listData)[idx]) else old(listData)[idx]]
      ensures disk.files == Appended(old(disk.files), TxtPath(),
        if HomeLinkV1.InWindow(idx, start, end) then Records(pages, [old(listData)[idx]]) else [])
    {
      if start <= idx <= upper {
        var n := neighborhoodList[idx];
        GetNeighborhood(n, pages, disk);
        listData := listData[idx := n.Data()];
        assert forall i | 0 <= i < |neighborhoodList| && i != idx :: neighborhoodList[i] != n;
      }
    }

    /** The list after the second loop has passed its first idx compounds. */
    ghost predicate PassedUpTo(before: seq<NData>, idx: nat, pages: string -> Option<Page>, start: int, end: int)
      requires idx <= |before|
      reads this
    {
      listData == Processed(before[..idx], pages, start, end) + before[idx..]
    }

    /** The state of the second loop of `get_all_neighborhood` once it has passed `idx`
        compounds of the list `list` that held `before`. */
    ghost predicate WindowAt(idx: nat, list: seq<Neighborhood>, before: seq<NData>, pages: string -> Option<Page>,
                             start: int, end: int, f0: map<string, seq<Line>>, files: map<string, seq<Line>>)
      reads this, neighborhoodList
    {
      Valid() && neighborhoodList == list && idx <= |before| == |list|
      && PassedUpTo(before, idx, pages, start, end)
      && SavedWindow(f0, TxtPath(), before[..idx], pages, start, end, files)
    }

    /** Once the second loop has passed the whole list, it holds and has saved the whole pass's. */
    lemma WindowEnd(list: seq<Neighborhood>, before: seq<NData>, pages: string -> Option<Page>,
                    start: int, end: int, f0: map<string, seq<Line>>, files: map<string, seq<Line>>)
      requires WindowAt(|list|, list, before, pages, start, end, f0, files)
      ensures Valid() && neighborhoodList == list
      ensures listData == Processed(before, pages, start, end)
      ensures files == Appended(f0, TxtPath(), WindowRecords(before, pages, start, end))
    {
      WindowDone(before, pages, start, end);
    }

    /** One turn of the second loop, stated as the loop's invariant carried one index on. */
    method Advance(idx: nat, upper: int, pages: string -> Option<Page>, disk: Disk, start: int, end: int,
                   ghost list: seq<Neighborhood>, ghost before: seq<NData>, ghost f0: map<string, seq<Line>>)
      returns (next: nat)
      requires idx < |list| && upper == HomeLinkV1.Upper(end)
      requires WindowAt(idx, list, before, pages, start, end, f0, disk.files)
      modifies this, disk, list
      ensures next == idx + 1 && WindowAt(next, list, before, pages, start, end, f0, disk.files)
    {
      ghost var cur := listData;
      ghost var fcur := disk.files;
      ProcessAt(idx, upper, pages, disk, start, end);
      WindowStep(before, idx, pages, start, end, cur, listData, f0, fcur, disk.files, TxtPath());
      next := idx + 1;
    }

    /** The de-duplication loop at the head of `get_all_neighborhood`: `_url_list` is never
        extended, so every object is kept, in order. */
    method KeptByUrl() returns (list: seq<Neighborhood>)
      ensures list == neighborhoodList
    {
      var urls: seq<Value> := [];
      list := [];
      var k := 0;
      while k < |neighborhoodList|
        invariant 0 <= k <= |neighborhoodList| && list == neighborhoodList[..k]
      {
        if neighborhoodList[k].url !in urls {
          list := list + [neighborhoodList[k]];
        }
        k := k + 1;
      }
    }

    /** `get_all_neighborhood(start, end)`: every compound whose index lies in [start, end]
        (end 0 meaning 2^64) gets its detail read and saved; then `custom_format` is called
        with two of its three required arguments and raises TypeError. */
    method GetAllNeighborhood(pages: string -> Option<Page>, disk: Disk, start: int, end: int) returns (err: Option<Error>)
      requires Valid()
      modifies this, disk, neighborhoodList
      ensures Valid() && err == Some(TypeError) && neighborhoodList == old(neighborhoodList)
      ensures listData == Processed(old(listData), pages, start, end)
      ensures disk.files == Appended(old(disk.files), TxtPath(), WindowRecords(old(listData), pages, start, end))
    {
      var upper := if end == 0 then 0x1_0000_0000_0000_0000 else end;
      var list := KeptByUrl();
      ghost var before := listData;
      ghost var f0 := disk.files;
      var idx := 0;
      while idx < |list|
        invariant 0 <= idx <= |list| && WindowAt(idx, list, before, pages, start, end, f0, disk.files)
      {
        idx := Advance(idx, upper, pages, disk, start, end, list, before, f0);
      }
      WindowEnd(list, before, pages, start, end, f0, disk.files);
      return Some(TypeError);
    }

    /** `start_crawler_neighborhood_list()`: the first pass, then, unless it raised, the
        second pass over the whole list, which ends in TypeError. */
    method StartCrawlerNeighborhoodList(site: NSite, disk: Disk) returns (err: Option<Error>)
      requires Valid()
      modifies this, disk, neighborhoodList
      ensures Valid() && err.Some?
      ensures var w := ListWalk(site, parent.domain, cityZhName);
        w.error.Some? ==> (err == w.error && listData == old(listData) + w.items
                           && disk.files == Appended(old(disk.files), JsonPath(), FieldDicts(w.items)))
      ensures var w := ListWalk(site, parent.domain, cityZhName);
        w.error.None? ==> (err == Some(TypeError) && listData == Processed(old(listData) + w.items, site.pages, 0, 0)
                           && disk.files == Appended(Appended(old(disk.files), JsonPath(), FieldDicts(w.items)), TxtPath(),
                                                     WindowRecords(old(listData) + w.items, site.pages, 0, 0)))
    {
      var districts := DistrictsV1(site);
      if districts.Err? {
        return Some(districts.error);
      }
      err := ListDistricts(site, disk, districts.value);
      if err.Some? {
        return;
      }
      assert forall i | 0 <= i < |neighborhoodList| :: neighborhoodList[i] in old(neighborhoodList) || fresh(neighborhoodList[i]);
      err := GetAllNeighborhood(site.pages, disk, 0, 0);
    }

    /** The list after `get_neighborhood_list_from_file` has read the first k lines without
        an exception, with `_url_list` holding the urls of what it took. */
    ghost predicate LoadedUpTo(lines: seq<string>, parse: string -> Option<Value>, k: nat, d0: seq<NData>, urls: seq<Value>)
      requires k <= |lines|
      reads this
    {
      var w := ListFromFile(lines[..k], parse);
      w.error.None? && listData == d0 + w.items && urls == UrlList(w.items)
    }

    /** One line of `get_neighborhood_list_from_file`, stated as the loop's invariant carried
        one line on, or the exception that line raises. */
    method LoadLineAt(lines: seq<string>, parse: string -> Option<Value>, idx: nat, urls: seq<Value>, ghost d0: seq<NData>)
      returns (err: Option<Error>, urlsOut: seq<Value>)
      requires Valid() && idx < |lines| && LoadedUpTo(lines, parse, idx, d0, urls)
      modifies this
      ensures forall n | n in neighborhoodList :: n in old(neighborhoodList) || fresh(n)
      ensures Valid()
      ensures err.None? ==> LoadedUpTo(lines, parse, idx + 1, d0, urlsOut)
      ensures err.Some? ==> var w := ListFromFile(lines[..idx + 1], parse); err == w.error && listData == d0 + w.items
    {
      assert lines[..idx + 1][..idx] == lines[..idx];
      ghost var done := ListFromFile(lines[..idx], parse).items;
      urlsOut := urls;
      var read := ReadLine(lines[idx], parse);
      if read.Fail? {
        return Some(read.e), urlsOut;
      }
      if read.Record? {
        var n := new Neighborhood(read.d);
        if n.url !in urls {
          neighborhoodList := neighborhoodList + [n];
          listData := listData + [read.d];
          urlsOut := urls + [n.url];
          assert UrlList(done + [read.d]) == UrlList(done) + [read.d.url];
        }
      }
      return None, urlsOut;
    }

    /** `get_neighborhood_list_from_file(filename)`: OSError when the file cannot be opened. */
    method GetNeighborhoodListFromFile(content: Option<seq<string>>, parse: string -> Option<Value>)
      returns (err: Option<Error>)
      requires Valid()
      modifies this
      ensures forall n | n in neighborhoodList :: n in old(neighborhoodList) || fresh(n)
      ensures Valid()
      ensures content.None? ==> err == Some(OSError) && listData == old(listData)
      ensures content.Some? ==> err == ListFromFile(content.value, parse).error
      ensures content.Some? ==> listData == old(listData) + ListFromFile(content.value, parse).items
    {
      if content.None? {
        return Some(OSError);
      }
      var lines := content.value;
      ghost var d0 := listData;
      var urls: seq<Value> := [];
      assert lines[..0] == [];
      assert listData == d0 + [];
      ghost var l0 := neighborhoodList;
      var idx := 0;
      while idx < |lines|
        invariant forall n | n in neighborhoodList :: n in l0 || fresh(n)
        invariant 0 <= idx <= |lines| && Valid()
        invariant LoadedUpTo(lines, parse, idx, d0, urls)
      {
        var e;
        e, urls := LoadLineAt(lines, parse, idx, urls, d0);
        if e.Some? {
          ListFromFileStops(lines, parse, idx + 1);
          return e;
        }
        idx := idx + 1;
      }
      assert lines[..idx] == lines;
      return None;
    }

    /** `start_crawler_from_file(filename, start, end)`. */
    method StartCrawlerFromFile(content: Option<seq<string>>, parse: string -> Option<Value>, pages: string -> Option<Page>,
                                disk: Disk, start: int, end: int) returns (err: Option<Error>)
      requires Valid()
      modifies this, disk, neighborhoodList
      ensures Valid() && err.Some?
      ensures content.None? ==> err == Some(OSError) && disk.files == old(disk.files)
      ensures content.Some? && ListFromFile(content.value, parse).error.Some?
        ==> err == ListFromFile(content.value, parse).error && disk.files == old(disk.files)
      ensures content.Some? && ListFromFile(content.value, parse).error.None?
        ==> (err == Some(TypeError)
             && disk.files == Appended(old(disk.files), TxtPath(),
                                       WindowRecords(old(listData) + ListFromFile(content.value, parse).items, pages, start, end)))
    {
      err := GetNeighborhoodListFromFile(content, parse);
      if err.Some? {
        return;
      }
      assert forall i | 0 <= i < |neighborhoodList| :: neighborhoodList[i] in old(neighborhoodList) || fresh(neighborhoodList[i]);
      err := GetAllNeighborhood(pages, disk, start, end);
    }
  }

  /** `crawler_neighborhood(city_abbreviation, city_zh_name, file, start, end)`: a fresh
      spider for typ "xiaoqu"; with a file name it loads the list from the file, otherwise it
      runs the first pass. Either way the run ends in an exception. */
  method CrawlerNeighborhood(cityAbbreviation: string, cityZhName: string, file: string, content: Option<seq<string>>,
                             start: int, end: int, site: NSite, disk: Disk, parse: string -> Option<Value>)
    returns (err: Option<Error>)
    modifies disk
    ensures err.Some?
    ensures file != "" && content.None? ==> err == Some(OSError) && disk.files == old(disk.files)
    ensures file != "" && content.Some? && ListFromFile(content.value, parse).error.Some?
      ==> err == ListFromFile(content.value, parse).error && disk.files == old(disk.files)
    ensures file != "" && content.Some? && ListFromFile(content.value, parse).error.None?
      ==> (err == Some(TypeError)
           && disk.files == Appended(old(disk.files), cityAbbreviation + "_xiaoqu.txt",
                                     WindowRecords(ListFromFile(content.value, parse).items, site.pages, start, end)))
    ensures file == "" && ListWalk(site, HomeLink.Domain(cityAbbreviation), cityZhName).error.Some?
      ==> (err == ListWalk(site, HomeLink.Domain(cityAbbreviation), cityZhName).error
           && disk.files == Appended(old(disk.files), cityAbbreviation + "_xiaoqu.json",
                                     FieldDicts(ListWalk(site, HomeLink.Domain(cityAbbreviation), cityZhName).items)))
    ensures file == "" && ListWalk(site, HomeLink.Domain(cityAbbreviation), cityZhName).error.None?
      ==> (err == Some(TypeError)
           && disk.files == Appended(Appended(old(disk.files), cityAbbreviation + "_xiaoqu.json",
                                              FieldDicts(ListWalk(site, HomeLink.Domain(cityAbbreviation), cityZhName).items)),
                                     cityAbbreviation + "_xiaoqu.txt",
                                     WindowRecords(ListWalk(site, HomeLink.Domain(cityAbbreviation), cityZhName).items, site.pages, 0, 0)))
  {
    var spider := new NeighborhoodSpiderV1(cityAbbreviation, cityZhName, "xiaoqu");
    assert spider.JsonPath() == cityAbbreviation + "_xiaoqu.json";
    assert spider.TxtPath() == cityAbbreviation + "_xiaoqu.txt";
    if file != "" {
      if content.Some? {
        assert [] + ListFromFile(content.value, parse).items == ListFromFile(content.value, parse).items;
      }
      err := spider.StartCrawlerFromFile(content, parse, site.pages, disk, start, end);
    } else {
      assert [] + ListWalk(site, spider.parent.domain, cityZhName).items == ListWalk(site, spider.parent.domain, cityZhName).items;
      err := spider.StartCrawlerNeighborhoodList(site, disk);
    }
  }
}
