/** home_link.py: the lianjia.com deal crawler. A city's district links lead to county
    links, a county to its listing pages, a listing page to house links, and a house to a
    detail page whose record is appended as a JSON line to "<city>.txt". What the site
    serves is a `Site` value; fetching and XPath are not part of this model. */
module HomeLink {
  import opened Common

  /** An `<a>` element: its text (None when empty) and its href attribute, if any. */
  datatype Anchor = Anchor(text: Option<string>, href: Option<string>)

  /** `Region(name, url)`. */
  datatype Region = Region(name: Option<string>, url: string)

  /** `House(url, title, block_name, district, county)`. */
  datatype House = House(url: string, title: string, blockName: string, district: Option<string>, county: Option<string>)

  /** What a house's detail page yields: the fields read from its script, the "lng,lat"
      text, and the remaining fields in their fixed order. */
  datatype Detail = Detail(roomCode: Value, city: Value, block: Value, coordinates: string, rest: seq<(string, Value)>)

  /** What the site serves; None where a request, or the XPath on its answer, raises. */
  datatype Site = Site(
    districtLinks: Option<seq<Anchor>>,
    countyLinks: string -> Option<seq<Anchor>>,
    totalPage: string -> Option<int>,
    houseLinks: string -> Option<seq<Anchor>>,
    detail: string -> Option<Detail>)

  function Domain(city: string): string
  {
    "https://" + city + ".lianjia.com"
  }

  function SubDomain(city: string): string
  {
    Domain(city) + "/chengjiao/"
  }

  /** `House.__hash__`: the url alone. */
  function HouseHash(h: House): string
  {
    h.url
  }

  /** Houses hash alike exactly when their urls agree, whatever their other fields. */
  lemma HouseHashOnUrl(h1: House, h2: House)
    ensures HouseHash(h1) == HouseHash(h2) <==> h1.url == h2.url
    ensures HouseHash(h1.(district := h2.district, county := h2.county)) == HouseHash(h1)
  {
  }

  // ----- regions -----

  /** `get_region(elem)`: None where the element has no href (KeyError). */
  function GetRegion(domain: string, a: Anchor): (r: Option<Region>)
    ensures r.Some? <==> a.href.Some?
    ensures r.Some? ==> (r.value.name == a.text && StartsWith(r.value.url, domain)
      && r.value.url[|domain|..] == a.href.value)
  {
    if a.href.None? then None else Some(Region(a.text, domain + a.href.value))
  }

  /** `[self.get_region(elem) for elem in ...]` inside a try: one region per link, in
      order, or None when any link fails. */
  function RegionsOf(domain: string, links: seq<Anchor>): (r: Option<seq<Region>>)
    ensures r.Some? <==> forall i | 0 <= i < |links| :: links[i].href.Some?
    ensures r.Some? ==> (|r.value| == |links|
      && forall i | 0 <= i < |links| :: Some(r.value[i]) == GetRegion(domain, links[i]))
  {
    if forall i | 0 <= i < |links| :: links[i].href.Some? then
      Some(seq(|links|, i requires 0 <= i < |links| => GetRegion(domain, links[i]).value))
    else None
  }

  /** `get_districts()`. */
  function Districts(site: Site, city: string): Option<seq<Region>>
  {
    match site.districtLinks
    case None => None
    case Some(links) => RegionsOf(Domain(city), links)
  }

  /** `get_counties(district)`. */
  function Counties(site: Site, city: string, district: Region): Option<seq<Region>>
  {
    match site.countyLinks(district.url)
    case None => None
    case Some(links) => RegionsOf(Domain(city), links)
  }

  /** `filter(lambda x: x.name in names, regions)`. */
  function Named(regions: seq<Region>, names: seq<string>): (r: seq<Region>)
    ensures |r| <= |regions|
  {
    if regions == [] then []
    else
      var x := regions[|regions| - 1];
      Named(regions[..|regions| - 1], names) + (if x.name.Some? && x.name.value in names then [x] else [])
  }

  /** The filter keeps exactly the regions whose name is in the list. */
  lemma {:induction false} NamedSpec(regions: seq<Region>, names: seq<string>)
    ensures forall x :: x in Named(regions, names) <==> x in regions && x.name.Some? && x.name.value in names
    decreases |regions|
  {
    if regions != [] {
      var init := regions[..|regions| - 1];
      NamedSpec(init, names);
      assert regions == init + [regions[|regions| - 1]];
    }
  }

  /** Filtering by a list that names every region keeps all of them. */
  lemma {:induction false} NamedAll(regions: seq<Region>, names: seq<string>)
    requires forall x | x in regions :: x.name.Some? && x.name.value in names
    ensures Named(regions, names) == regions
    decreases |regions|
  {
    if regions != [] {
      var init, last := regions[..|regions| - 1], regions[|regions| - 1];
      forall x | x in init
        ensures x.name.Some? && x.name.value in names
      {
        var j :| 0 <= j < |init| && init[j] == x;
        assert regions[j] == x;
      }
      NamedAll(init, names);
      assert regions[|regions| - 1] == last;
      assert regions == init + [last];
    }
  }

  // ----- houses -----

  /** `house_title.split(" ")[0]`. */
  function BlockName(title: string): string
  {
    Split(title, ' ')[0]
  }

  /** The block name is the title up to its first space, or the whole title. */
  lemma BlockNameIsPrefix(title: string)
    ensures StartsWith(title, BlockName(title)) && ' ' !in BlockName(title)
    ensures |BlockName(title)| < |title| ==> title[|BlockName(title)|] == ' '
    ensures ' ' !in title ==> BlockName(title) == title
  {
    SplitFirst(title, ' ');
  }

  function NewHouse(url: string, title: string): House
  {
    House(url, title, BlockName(title), None, None)
  }

  /** What get_house_from_current_page returns for the links of a page: one House per
      link, or None when a link lacks its href or its text. */
  function HousesOf(links: seq<Anchor>): Option<seq<House>>
  {
    if links == [] then Some([])
    else match HousesOf(links[..|links| - 1])
      case None => None
      case Some(hs) =>
        var a := links[|links| - 1];
        if a.href.None? || a.text.None? then None else Some(hs + [NewHouse(a.href.value, a.text.value)])
  }

  /** One house per link, in order, untagged. */
  lemma {:induction false} HousesOfShape(links: seq<Anchor>)
    ensures HousesOf(links).Some? <==> forall i | 0 <= i < |links| :: links[i].href.Some? && links[i].text.Some?
    ensures HousesOf(links).Some? ==>
      var hs := HousesOf(links).value;
      |hs| == |links| && forall i | 0 <= i < |links| :: hs[i] == NewHouse(links[i].href.value, links[i].text.value)
    decreases |links|
  {
    if links != [] {
      var init := links[..|links| - 1];
      HousesOfShape(init);
      assert forall i | 0 <= i < |init| :: init[i] == links[i];
    }
  }

  lemma {:induction false} HousesOfStops(links: seq<Anchor>, k: nat)
    requires k <= |links| && HousesOf(links[..k]).None?
    ensures HousesOf(links).None?
    decreases |links| - k
  {
    if k == |links| {
      assert links[..k] == links;
    } else {
      assert links[..k + 1][..k] == links[..k];
      HousesOfStops(links, k + 1);
    }
  }

  /** `get_lng_lat`: the "lng,lat" text split at its comma; None (ValueError) unless it has
      exactly two fields. */
  function GetLngLat(coordinates: string): Option<(string, string)>
  {
    var parts := Split(coordinates, ',');
    if |parts| == 2 then Some((parts[0], parts[1])) else None
  }

  /** The split is exactly the text around its only comma. */
  lemma GetLngLatRoundTrip(coordinates: string, lng: string, lat: string)
    ensures GetLngLat(coordinates) == Some((lng, lat)) <==>
      coordinates == lng + "," + lat && ',' !in lng && ',' !in lat
  {
    var parts := Split(coordinates, ',');
    SplitJoin(coordinates, ',');
    if GetLngLat(coordinates) == Some((lng, lat)) {
      assert Join(parts, ',') == parts[0] + [','] + Join(parts[1..], ',');
      assert parts[1..] == [lat];
    }
    if coordinates == lng + "," + lat && ',' !in lng && ',' !in lat {
      SplitAtFirst(lng, lat, ',');
      SplitFirst(lat, ',');
    }
  }
  /** `get_house_all_info` for a house at `url` whose district and county fields hold the
      given values: its record, or None where the detail page or its coordinates fail. */
  function DetailRecord(detail: string -> Option<Detail>, url: string, district: Value, county: Value): (r: Option<Value>)
    ensures r.Some? <==> detail(url).Some? && GetLngLat(detail(url).value.coordinates).Some?
    ensures r.Some? ==> (r.value.Dict? && Get(r.value.entries, "区") == Some(district)
      && Get(r.value.entries, "县") == Some(county) && Get(r.value.entries, "房间代号") == Some(detail(url).value.roomCode))
  {
    match detail(url)
    case None => None
    case Some(p) =>
      match GetLngLat(p.coordinates)
      case None => None
      case Some((lng, lat)) =>
        var es := [("房间代号", p.roomCode), ("城市", p.city), ("区", district), ("县", county),
                   ("小区", p.block), ("lng", Str(lng)), ("lat", Str(lat))] + p.rest;
        assert Get(es, "区") == Get(es[1..], "区") == Get(es[2..], "区");
        assert es[2..][0].0 == "区";
        assert Get(es, "县") == Get(es[1..], "县") == Get(es[2..], "县") == Get(es[3..], "县");
        assert es[3..][0].0 == "县";
        Some(Dict(es))
  }

  /** `get_house_all_info(house)`. */
  function HouseAllInfo(detail: string -> Option<Detail>, h: House): Option<Value>
  {
    DetailRecord(detail, h.url, OptStr(h.district), OptStr(h.county))
  }

  /** `house.district = district.name; house.county = county.name`. */
  function Tag(h: House, district: Region, county: Region): House
  {
    h.(district := district.name, county := county.name)
  }

  /** The houses of a page after the loop has tagged each of them. */
  function TagAll(houses: seq<House>, district: Region, county: Region): (r: seq<House>)
    ensures |r| == |houses| && forall i | 0 <= i < |houses| :: r[i] == Tag(houses[i], district, county)
  {
    seq(|houses|, i requires 0 <= i < |houses| => Tag(houses[i], district, county))
  }

  /** The records of the houses whose detail succeeds, in order: what the crawl saves for them. */
  function Infos(detail: string -> Option<Detail>, houses: seq<House>): seq<Value>
  {
    if houses == [] then []
    else
      var info := HouseAllInfo(detail, houses[|houses| - 1]);
      Infos(detail, houses[..|houses| - 1]) + (if info.Some? then [info.value] else [])
  }

  lemma {:induction false} InfosConcat(detail: string -> Option<Detail>, a: seq<House>, b: seq<House>)
    ensures Infos(detail, a + b) == Infos(detail, a) + Infos(detail, b)
    decreases |b|
  {
    if b == [] {
      assert a + b == a;
    } else {
      var b' := b[..|b| - 1];
      assert (a + b)[..|a + b| - 1] == a + b';
      InfosConcat(detail, a, b');
    }
  }

  /** Each saved record is the record of one of the houses, carrying its district and county. */
  lemma {:induction false} InfosFrom(detail: string -> Option<Detail>, houses: seq<House>)
    ensures forall r | r in Infos(detail, houses) :: exists h | h in houses ::
      HouseAllInfo(detail, h) == Some(r) && Carries(r, "区", OptStr(h.district)) && Carries(r, "县", OptStr(h.county))
    decreases |houses|
  {
    if houses != [] {
      var init := houses[..|houses| - 1];
      InfosFrom(detail, init);
      forall r | r in Infos(detail, houses)
        ensures exists h | h in houses ::
          HouseAllInfo(detail, h) == Some(r) && Carries(r, "区", OptStr(h.district)) && Carries(r, "县", OptStr(h.county))
      {
        if r in Infos(detail, init) {
          var h :| h in init && HouseAllInfo(detail, h) == Some(r)
            && Carries(r, "区", OptStr(h.district)) && Carries(r, "县", OptStr(h.county));
          assert h in houses;
        } else {
          assert houses[|houses| - 1] in houses;
        }
      }
    }
  }

  // ----- the order in which the crawl visits houses -----

  /** The listing page i of a county: `f"{county.url}pg{i}"`. */
  function PageUrl(county: Region, i: nat): string
  {
    county.url + "pg" + NatToString(i)
  }

  /** The tagged houses of listing page i; none when the page fails. */
  function PageVisits(site: Site, district: Region, county: Region, i: nat): seq<House>
  {
    match site.houseLinks(PageUrl(county, i))
    case None => []
    case Some(links) =>
      match HousesOf(links)
      case None => []
      case Some(houses) => TagAll(houses, district, county)
  }

  /** The tagged houses of listing pages lo, ..., hi - 1. */
  function PagesVisits(site: Site, district: Region, county: Region, lo: nat, hi: int): seq<House>
    decreases hi - lo
  {
    if hi <= lo then [] else PagesVisits(site, district, county, lo, hi - 1) + PageVisits(site, district, county, hi - 1)
  }

  /** A county: pages 1 to totalPage - 1 (`range(1, total_page)`); none when the page count fails. */
  function CountyVisits(site: Site, district: Region, county: Region): seq<House>
  {
    match site.totalPage(county.url)
    case None => []
    case Some(n) => PagesVisits(site, district, county, 1, n)
  }

  function CountiesVisits(site: Site, district: Region, counties: seq<Region>): seq<House>
  {
    if counties == [] then []
    else CountiesVisits(site, district, counties[..|counties| - 1]) + CountyVisits(site, district, counties[|counties| - 1])
  }

  /** A district: none when its counties cannot be listed. */
  function DistrictVisits(site: Site, city: string, district: Region): seq<House>
  {
    match Counties(site, city, district)
    case None => []
    case Some(counties) => CountiesVisits(site, district, counties)
  }

  function DistrictsVisits(site: Site, city: string, districts: seq<Region>): seq<House>
  {
    if districts == [] then []
    else DistrictsVisits(site, city, districts[..|districts| - 1]) + DistrictVisits(site, city, districts[|districts| - 1])
  }

  /** Every house start_crawler visits, in order. */
  function CrawlVisits(site: Site, city: string): seq<House>
  {
    match Districts(site, city)
    case None => []
    case Some(districts) => DistrictsVisits(site, city, districts)
  }

  /** What start_crawler_counties visits, and the error that stops it (a failed district or
      county listing is None, which filter() rejects with TypeError). */
  datatype Outcome = Outcome(houses: seq<House>, error: Option<Error>)

  function SelectedVisits(site: Site, city: string, districts: seq<Region>, countyNames: seq<string>): Outcome
  {
    if districts == [] then Outcome([], None)
    else
      var before := SelectedVisits(site, city, districts[..|districts| - 1], countyNames);
      var district := districts[|districts| - 1];
      if before.error.Some? then before
      else match Counties(site, city, district)
        case None => Outcome(before.houses, Some(TypeError))
        case Some(counties) => Outcome(before.houses + CountiesVisits(site, district, Named(counties, countyNames)), None)
  }

  function CrawlCountiesOutcome(site: Site, city: string, districtNames: seq<string>, countyNames: seq<string>): Outcome
  {
    match Districts(site, city)
    case None => Outcome([], Some(TypeError))
    case Some(districts) => SelectedVisits(site, city, Named(districts, districtNames), countyNames)
  }

  // ----- properties of the crawl -----

  lemma {:induction false} PagesVisitsTagged(site: Site, district: Region, county: Region, lo: nat, hi: int)
    ensures forall h | h in PagesVisits(site, district, county, lo, hi) :: h.district == district.name && h.county == county.name
    decreases hi - lo
  {
    if lo < hi {
      PagesVisitsTagged(site, district, county, lo, hi - 1);
    }
  }

  /** Every house visited for a county list carries the district's name and the name of
      one of those counties. */
  lemma {:induction false} CountiesVisitsTagged(site: Site, district: Region, counties: seq<Region>)
    ensures forall h | h in CountiesVisits(site, district, counties) ::
      h.district == district.name && exists i | 0 <= i < |counties| :: h.county == counties[i].name
    decreases |counties|
  {
    if counties != [] {
      var init, county := counties[..|counties| - 1], counties[|counties| - 1];
      CountiesVisitsTagged(site, district, init);
      PagesVisitsTagged(site, district, county, 1, if site.totalPage(county.url).Some? then site.totalPage(county.url).value else 0);
      forall h | h in CountiesVisits(site, district, counties)
        ensures h.district == district.name && exists i | 0 <= i < |counties| :: h.county == counties[i].name
      {
        if h in CountiesVisits(site, district, init) {
          var i :| 0 <= i < |init| && h.county == init[i].name;
          assert counties[i] == init[i];
        } else {
          assert h.county == counties[|counties| - 1].name;
        }
      }
    }
  }

  /** `name` is the name of one of the counties listed for `district`. */
  predicate CountyOf(site: Site, city: string, district: Region, name: Option<string>)
  {
    var counties := Counties(site, city, district);
    counties.Some? && exists j | 0 <= j < |counties.value| :: name == counties.value[j].name
  }

  /** Every house visited carries the name of one of the districts and the name of one of
      that district's counties. */
  lemma {:induction false} DistrictsVisitsTagged(site: Site, city: string, districts: seq<Region>)
    ensures forall h | h in DistrictsVisits(site, city, districts) ::
      exists i | 0 <= i < |districts| :: h.district == districts[i].name && CountyOf(site, city, districts[i], h.county)
    decreases |districts|
  {
    if districts != [] {
      var init, district := districts[..|districts| - 1], districts[|districts| - 1];
      DistrictsVisitsTagged(site, city, init);
      var counties := Counties(site, city, district);
      if counties.Some? {
        CountiesVisitsTagged(site, district, counties.value);
      }
      forall h | h in DistrictsVisits(site, city, districts)
        ensures exists i | 0 <= i < |districts| :: h.district == districts[i].name && CountyOf(site, city, districts[i], h.county)
      {
        if h in DistrictsVisits(site, city, init) {
          var i :| 0 <= i < |init| && h.district == init[i].name && CountyOf(site, city, init[i], h.county);
          assert districts[i] == init[i];
        } else {
          assert h.district == district.name && CountyOf(site, city, district, h.county);
        }
      }
    }
  }

  /** Every record start_crawler saves carries the name of a district of the city and the
      name of one of that district's counties. */
  lemma CrawlRecordsTagged(site: Site, city: string)
    requires Districts(site, city).Some?
    ensures forall r | r in Infos(site.detail, CrawlVisits(site, city)) :: exists i | 0 <= i < |Districts(site, city).value| ::
      var d := Districts(site, city).value[i];
      Carries(r, "区", OptStr(d.name)) && exists c | CountyOf(site, city, d, c) :: Carries(r, "县", OptStr(c))
  {
    var ds := Districts(site, city).value;
    DistrictsVisitsTagged(site, city, ds);
    InfosFrom(site.detail, CrawlVisits(site, city));
    forall r | r in Infos(site.detail, CrawlVisits(site, city))
      ensures exists i | 0 <= i < |ds| ::
        Carries(r, "区", OptStr(ds[i].name)) && exists c | CountyOf(site, city, ds[i], c) :: Carries(r, "县", OptStr(c))
    {
      var h :| h in CrawlVisits(site, city) && Carries(r, "区", OptStr(h.district)) && Carries(r, "县", OptStr(h.county));
      var i :| 0 <= i < |ds| && h.district == ds[i].name && CountyOf(site, city, ds[i], h.county);
    }
  }

  /** Listing pages of one county have different urls. */
  lemma PageUrlInjective(county: Region, i: nat, j: nat)
    requires i != j
    ensures PageUrl(county, i) != PageUrl(county, j)
  {
    var p := county.url + "pg";
    if PageUrl(county, i) == PageUrl(county, j) {
      assert NatToString(i) == PageUrl(county, i)[|p|..];
      assert NatToString(j) == PageUrl(county, j)[|p|..];
      NatToStringInjective(i, j);
    }
  }

  /** The site with the listing of one county's page n replaced. */
  function WithListing(site: Site, county: Region, n: nat, links: Option<seq<Anchor>>): Site
  {
    site.(houseLinks := u => if u == PageUrl(county, n) then links else site.houseLinks(u))
  }

  /** `range(1, total_page)` never requests page total_page: whatever that page lists, the
      houses visited for the county are the same. */
  lemma {:induction false} LastPageNeverVisited(site: Site, district: Region, county: Region, n: nat, hi: int, links: Option<seq<Anchor>>)
    requires hi <= n
    ensures PagesVisits(WithListing(site, county, n, links), district, county, 1, hi) == PagesVisits(site, district, county, 1, hi)
    decreases hi
  {
    if 1 < hi {
      LastPageNeverVisited(site, district, county, n, hi - 1, links);
      PageUrlInjective(county, hi - 1, n);
    }
  }

  /** With every name selected and every listing available, start_crawler_counties visits
      exactly what start_crawler visits. */
  lemma {:induction false} SelectedVisitsAll(site: Site, city: string, districts: seq<Region>, countyNames: seq<string>)
    requires forall d | d in districts :: (Counties(site, city, d).Some?
      && forall x | x in Counties(site, city, d).value :: x.name.Some? && x.name.value in countyNames)
    ensures SelectedVisits(site, city, districts, countyNames) == Outcome(DistrictsVisits(site, city, districts), None)
    decreases |districts|
  {
    if districts != [] {
      var init, district := districts[..|districts| - 1], districts[|districts| - 1];
      assert forall d | d in init :: d in districts;
      SelectedVisitsAll(site, city, init, countyNames);
      NamedAll(Counties(site, city, district).value, countyNames);
    }
  }

  lemma CrawlCountiesAll(site: Site, city: string, districtNames: seq<string>, countyNames: seq<string>)
    requires Districts(site, city).Some?
    requires forall d | d in Districts(site, city).value :: d.name.Some? && d.name.value in districtNames
    requires forall d | d in Districts(site, city).value :: (Counties(site, city, d).Some?
      && forall x | x in Counties(site, city, d).value :: x.name.Some? && x.name.value in countyNames)
    ensures CrawlCountiesOutcome(site, city, districtNames, countyNames) == Outcome(CrawlVisits(site, city), None)
  {
    NamedAll(Districts(site, city).value, districtNames);
    SelectedVisitsAll(site, city, Districts(site, city).value, countyNames);
  }

  /** Once a listing fails, the outcome keeps what was visited before and that error. */
  lemma {:induction false} SelectedStops(site: Site, city: string, districts: seq<Region>, countyNames: seq<string>, k: nat)
    requires k <= |districts| && SelectedVisits(site, city, districts[..k], countyNames).error.Some?
    ensures SelectedVisits(site, city, districts, countyNames) == SelectedVisits(site, city, districts[..k], countyNames)
    decreases |districts| - k
  {
    if k == |districts| {
      assert districts[..k] == districts;
    } else {
      assert districts[..k + 1][..k] == districts[..k];
      SelectedStops(site, city, districts, countyNames, k + 1);
    }
  }

  /** `files` is `f0` with the records of `houses` (those whose detail succeeds) appended
      to `path`, in order. */
  ghost predicate SavedSince(f0: map<string, seq<Line>>, path: string, detail: string -> Option<Detail>, houses: seq<House>,
                             files: map<string, seq<Line>>)
  {
    files == Appended(f0, path, Infos(detail, houses))
  }

  /** Saving the records of `done`, then those of `next`, saves those of `done + next`. */
  lemma SavedStep(f0: map<string, seq<Line>>, path: string, detail: string -> Option<Detail>, done: seq<House>,
                  mid: map<string, seq<Line>>, next: seq<House>, files: map<string, seq<Line>>)
    requires SavedSince(f0, path, detail, done, mid) && SavedSince(mid, path, detail, next, files)
    ensures SavedSince(f0, path, detail, done + next, files)
  {
    InfosConcat(detail, done, next);
    AppendedTwice(f0, path, Infos(detail, done), Infos(detail, next));
  }

  // ----- the spider -----

  class HomeLinkSpider {
    const cityAbbreviation: string
    const domain: string
    const subDomain: string

    constructor (cityAbbreviation: string)
      ensures this.cityAbbreviation == cityAbbreviation
      ensures domain == Domain(cityAbbreviation) && subDomain == SubDomain(cityAbbreviation)
    {
      this.cityAbbreviation := cityAbbreviation;
      domain := Domain(cityAbbreviation);
      subDomain := SubDomain(cityAbbreviation);
    }

    /** `f"{self.city_abbreviation}.txt"`. */
    function SavePath(): string
    {
      cityAbbreviation + ".txt"
    }

    /** `get_house_from_current_page` on the links of a fetched page. */
    method GetHouseFromCurrentPage(links: seq<Anchor>) returns (houses: Option<seq<House>>)
      ensures houses == HousesOf(links)
    {
      var list: seq<House> := [];
      var i := 0;
      while i < |links|
        invariant 0 <= i <= |links|
        invariant HousesOf(links[..i]) == Some(list)
      {
        assert links[..i + 1][..i] == links[..i];
        var a := links[i];
        if a.href.None? || a.text.None? {
          HousesOfStops(links, i + 1);
          return None;
        }
        list := list + [NewHouse(a.href.value, a.text.value)];
        i := i + 1;
      }
      assert links[..i] == links;
      return Some(list);
    }

    /** The innermost loop: tag each house, fetch its record, save it when there is one. */
    method SaveHouses(site: Site, disk: Disk, district: Region, county: Region, houses: seq<House>)
      modifies disk
      ensures disk.files == Appended(old(disk.files), SavePath(), Infos(site.detail, TagAll(houses, district, county)))
    {
      var path := SavePath();
      ghost var files0 := disk.files;
      assert TagAll(houses[..0], district, county) == [];
      var i := 0;
      while i < |houses|
        invariant 0 <= i <= |houses|
        invariant disk.files == Appended(files0, path, Infos(site.detail, TagAll(houses[..i], district, county)))
      {
        ghost var tagged := TagAll(houses[..i + 1], district, county);
        assert tagged[..i] == TagAll(houses[..i], district, county);
        ghost var done := Infos(site.detail, TagAll(houses[..i], district, county));
        var house := Tag(houses[i], district, county);
        var info := HouseAllInfo(site.detail, house);
        if info.Some? {
          SavedOne(disk.files, path, info.value);
          disk.SaveJson(info.value, path);
          AppendedTwice(files0, path, done, [info.value]);
        } else {
          assert done + [] == done;
        }
        i := i + 1;
      }
      assert houses[..i] == houses;
    }

    /** `for i in range(1, total_page)`: each listing page, skipped when it fails or is empty. */
    method CrawlPages(site: Site, disk: Disk, district: Region, county: Region, totalPage: int)
      modifies disk
      ensures disk.files == Appended(old(disk.files), SavePath(), Infos(site.detail, PagesVisits(site, district, county, 1, totalPage)))
    {
      var path := SavePath();
      ghost var files0 := disk.files;
      var i := 1;
      while i < totalPage
        invariant i == 1 || 1 < i <= totalPage
        invariant disk.files == Appended(files0, path, Infos(site.detail, PagesVisits(site, district, county, 1, i)))
      {
        ghost var done := PagesVisits(site, district, county, 1, i);
        InfosConcat(site.detail, done, PageVisits(site, district, county, i));
        var links := site.houseLinks(PageUrl(county, i));
        var houses: Option<seq<House>> := None;
        if links.Some? {
          houses := GetHouseFromCurrentPage(links.value);
        }
        if houses.None? || houses.value == [] {
          assert PageVisits(site, district, county, i) == [];
          assert Infos(site.detail, done) + [] == Infos(site.detail, done);
        } else {
          SaveHouses(site, disk, district, county, houses.value);
          AppendedTwice(files0, path, Infos(site.detail, done), Infos(site.detail, PageVisits(site, district, county, i)));
        }
        i := i + 1;
      }
      if totalPage < 1 {
        assert PagesVisits(site, district, county, 1, totalPage) == [];
      }
    }

    /** The loop over one district's counties: a county whose page count fails is skipped. */
    method CrawlCounties(site: Site, disk: Disk, district: Region, counties: seq<Region>)
      modifies disk
      ensures disk.files == Appended(old(disk.files), SavePath(), Infos(site.detail, CountiesVisits(site, district, counties)))
    {
      var path := SavePath();
      ghost var files0 := disk.files;
      assert counties[..0] == [];
      var i := 0;
      while i < |counties|
        invariant 0 <= i <= |counties|
        invariant disk.files == Appended(files0, path, Infos(site.detail, CountiesVisits(site, district, counties[..i])))
      {
        var county := counties[i];
        ghost var done := CountiesVisits(site, district, counties[..i]);
        ghost var now := CountyVisits(site, district, county);
        assert counties[..i + 1][..i] == counties[..i];
        assert CountiesVisits(site, district, counties[..i + 1]) == done + now;
        InfosConcat(site.detail, done, now);
        var totalPage := site.totalPage(county.url);
        if totalPage.None? {
          assert Infos(site.detail, done + now) == Infos(site.detail, done);
        } else {
          CrawlPages(site, disk, district, county, totalPage.value);
          AppendedTwice(files0, path, Infos(site.detail, done), Infos(site.detail, now));
        }
        i := i + 1;
      }
      assert counties[..i] == counties;
    }

    /** One district of start_crawler: skipped when its counties cannot be listed. */
    method CrawlDistrict(site: Site, disk: Disk, district: Region)
      modifies disk
      ensures SavedSince(old(disk.files), SavePath(), site.detail, DistrictVisits(site, cityAbbreviation, district), disk.files)
    {
      var counties := Counties(site, cityAbbreviation, district);
      if counties.None? || counties.value == [] {
        assert DistrictVisits(site, cityAbbreviation, district) == [];
      } else {
        CrawlCounties(site, disk, district, counties.value);
      }
    }

    /** `start_crawler`: every district, every county, every listing page but the last. */
    method StartCrawler(site: Site, disk: Disk)
      modifies disk
      ensures disk.files == Appended(old(disk.files), SavePath(), Infos(site.detail, CrawlVisits(site, cityAbbreviation)))
    {
      var path := SavePath();
      ghost var files0 := disk.files;
      var districts := Districts(site, cityAbbreviation);
      if districts.None? || districts.value == [] {
        return;
      }
      var ds := districts.value;
      assert ds[..0] == [];
      var i := 0;
      while i < |ds|
        invariant 0 <= i <= |ds|
        invariant SavedSince(files0, path, site.detail, DistrictsVisits(site, cityAbbreviation, ds[..i]), disk.files)
      {
        assert ds[..i + 1][..i] == ds[..i];
        ghost var mid := disk.files;
        CrawlDistrict(site, disk, ds[i]);
        SavedStep(files0, path, site.detail, DistrictsVisits(site, cityAbbreviation, ds[..i]), mid,
                  DistrictVisits(site, cityAbbreviation, ds[i]), disk.files);
        i := i + 1;
      }
      assert ds[..i] == ds;
    }

    /** One district of start_crawler_counties: its named counties, or false when its
        counties cannot be listed, in which case nothing is saved. */
    method CrawlNamedCounties(site: Site, disk: Disk, district: Region, countyNames: seq<string>) returns (listed: bool)
      modifies disk
      ensures listed == Counties(site, cityAbbreviation, district).Some?
      ensures !listed ==> disk.files == old(disk.files)
      ensures listed ==> SavedSince(old(disk.files), SavePath(), site.detail,
                                    CountiesVisits(site, district, Named(Counties(site, cityAbbreviation, district).value, countyNames)), disk.files)
    {
      var counties := Counties(site, cityAbbreviation, district);
      if counties.None? {
        return false;
      }
      var cs := Named(counties.value, countyNames);
      if cs != [] {
        CrawlCounties(site, disk, district, cs);
      }
      return true;
    }

    /** The loop of start_crawler_counties over the selected districts, stopped with
        TypeError by the first one whose counties cannot be listed. */
    method CrawlSelected(site: Site, disk: Disk, ds: seq<Region>, countyNames: seq<string>) returns (err: Option<Error>)
      modifies disk
      ensures err == SelectedVisits(site, cityAbbreviation, ds, countyNames).error
      ensures SavedSince(old(disk.files), SavePath(), site.detail, SelectedVisits(site, cityAbbreviation, ds, countyNames).houses, disk.files)
    {
      var path := SavePath();
      ghost var files0 := disk.files;
      assert ds[..0] == [];
      var i := 0;
      while i < |ds|
        invariant 0 <= i <= |ds|
        invariant SelectedVisits(site, cityAbbreviation, ds[..i], countyNames).error.None?
        invariant SavedSince(files0, path, site.detail, SelectedVisits(site, cityAbbreviation, ds[..i], countyNames).houses, disk.files)
      {
        assert ds[..i + 1][..i] == ds[..i];
        ghost var mid := disk.files;
        var listed := CrawlNamedCounties(site, disk, ds[i], countyNames);
        if !listed {
          SelectedStops(site, cityAbbreviation, ds, countyNames, i + 1);
          return Some(TypeError);
        }
        SavedStep(files0, path, site.detail, SelectedVisits(site, cityAbbreviation, ds[..i], countyNames).houses, mid,
                  CountiesVisits(site, ds[i], Named(Counties(site, cityAbbreviation, ds[i]).value, countyNames)), disk.files);
        i := i + 1;
      }
      assert ds[..i] == ds;
      return None;
    }

    /** `start_crawler_counties(districts_list, counties_list)`: only the named districts and
        counties, in site order; a failed listing stops it with TypeError. */
    method StartCrawlerCounties(site: Site, disk: Disk, districtNames: seq<string>, countyNames: seq<string>)
      returns (err: Option<Error>)
      modifies disk
      ensures var outcome := CrawlCountiesOutcome(site, cityAbbreviation, districtNames, countyNames);
        err == outcome.error && disk.files == Appended(old(disk.files), SavePath(), Infos(site.detail, outcome.houses))
    {
      var districts := Districts(site, cityAbbreviation);
      if districts.None? {
        return Some(TypeError);
      }
      err := CrawlSelected(site, disk, Named(districts.value, districtNames), countyNames);
    }
  }
}
