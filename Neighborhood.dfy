/** neighborhood.py: the lianjia.com residential-compound ("xiaoqu") crawler. District links
    lead to county links, a county to its numbered listing pages, a listing page to compound
    links, and a compound to a detail page whose fields fill a `Neighborhood`; its `as_dict()`
    is appended as a JSON line to "<city>_<typ>.txt". What the site serves is an `NSite`
    value; fetching, HTML parsing and XPath evaluation are not part of this model. */
module Neighborhood {
  import opened Common
  import HomeLink

  // ----- the XPath patterns of a detail page (class Xpath) -----

  const BuildingAgePath: string := "/html/body/div[6]/div[2]/div[2]/div[1]/span[2]"
  const BuildingTypesPath: string := "/html/body/div[6]/div[2]/div[2]/div[2]/span[2]"
  const PropertyCostPath: string := "/html/body/div[6]/div[2]/div[2]/div[3]/span[2]"
  const PropertyCompanyPath: string := "/html/body/div[6]/div[2]/div[2]/div[4]/span[2]"
  const PropertyDevelopersPath: string := "/html/body/div[6]/div[2]/div[2]/div[5]/span[2]"
  const NumBuildingPath: string := "/html/body/div[6]/div[2]/div[2]/div[6]/span[2]"
  const NumHousePath: string := "/html/body/div[6]/div[2]/div[2]/div[7]/span[2]"
  const UnitPricePath: string := "/html/body/div[6]/div[2]/div[1]/div/span[1]"
  const AddressPath: string := "/html/body/div[4]/div/div[1]/div"

  // ----- the Neighborhood record -----

  /** The sixteen fields of the `Neighborhood` dataclass, in the order `asdict` lists them
      (those of `DetailInfo`, then `Location`, then its own). */
  datatype NData = NData(
    buildingAge: Value, buildingTypes: Value, propertyCost: Value, propertyCompany: Value,
    propertyDevelopers: Value, numBuilding: Value, numHouse: Value, lng: Value, lat: Value,
    cityName: Value, district: Value, county: Value, name: Value, url: Value, address: Value,
    unitPrice: Value)

  /** `Neighborhood()`: every field defaults to None. */
  const Blank: NData := NData(Null, Null, Null, Null, Null, Null, Null, Null, Null, Null, Null, Null, Null, Null, Null, Null)

  /** The dataclass field names, in `asdict` order. */
  const FieldNames: seq<string> := ["building_age", "building_types", "property_cost", "property_company",
    "property_developers", "num_building", "num_house", "lng", "lat", "city_name", "district", "county",
    "name", "url", "address", "unit_price"]

  function FieldValues(d: NData): seq<Value>
  {
    [d.buildingAge, d.buildingTypes, d.propertyCost, d.propertyCompany, d.propertyDevelopers,
     d.numBuilding, d.numHouse, d.lng, d.lat, d.cityName, d.district, d.county, d.name, d.url,
     d.address, d.unitPrice]
  }

  /** The entries of `asdict(neighborhood)`. */
  function Fields(d: NData): (es: seq<(string, Value)>)
    ensures Keys(es) == FieldNames
  {
    seq(16, i requires 0 <= i < 16 => (FieldNames[i], FieldValues(d)[i]))
  }

  /** `Neighborhood(**entries)`: None (TypeError) when an entry names no field; a field
      without an entry keeps its default None. */
  function FromFields(entries: seq<(string, Value)>): (r: Option<NData>)
    ensures r.Some? <==> forall k | k in Keys(entries) :: k in FieldNames
  {
    if forall k | k in Keys(entries) :: k in FieldNames then
      Some(NData(
        GetOr(entries, FieldNames[0], Null), GetOr(entries, FieldNames[1], Null),
        GetOr(entries, FieldNames[2], Null), GetOr(entries, FieldNames[3], Null),
        GetOr(entries, FieldNames[4], Null), GetOr(entries, FieldNames[5], Null),
        GetOr(entries, FieldNames[6], Null), GetOr(entries, FieldNames[7], Null),
        GetOr(entries, FieldNames[8], Null), GetOr(entries, FieldNames[9], Null),
        GetOr(entries, FieldNames[10], Null), GetOr(entries, FieldNames[11], Null),
        GetOr(entries, FieldNames[12], Null), GetOr(entries, FieldNames[13], Null),
        GetOr(entries, FieldNames[14], Null), GetOr(entries, FieldNames[15], Null)))
    else None
  }

  lemma FieldNamesDistinct()
    ensures forall i, j | 0 <= i < j < |FieldNames| :: FieldNames[i] != FieldNames[j]
  {
  }

  lemma FieldAt(d: NData, i: nat)
    requires i < 16
    ensures GetOr(Fields(d), FieldNames[i], Null) == FieldValues(d)[i]
  {
    FieldNamesDistinct();
    var es := Fields(d);
    assert forall j | 0 <= j < 16 :: es[j].0 == FieldNames[j];
    GetAt(es, i);
  }

  /** `Neighborhood(**asdict(n))` rebuilds n: what the crawl writes to its url-list file
      the file reader turns back into the same record. */
  lemma FromFieldsOfFields(d: NData)
    ensures FromFields(Fields(d)) == Some(d)
  {
    FieldAt(d, 0); FieldAt(d, 1); FieldAt(d, 2); FieldAt(d, 3);
    FieldAt(d, 4); FieldAt(d, 5); FieldAt(d, 6); FieldAt(d, 7);
    FieldAt(d, 8); FieldAt(d, 9); FieldAt(d, 10); FieldAt(d, 11);
    FieldAt(d, 12); FieldAt(d, 13); FieldAt(d, 14); FieldAt(d, 15);
  }

  /** The labels of `as_dict()`, in order; the url is not among them. */
  const Labels: seq<string> := ["城市", "行政区", "板块", "小区名称", "地址", "挂牌均价(元/m2)", "建筑年代",
    "建筑类型", "物业费用", "物业公司", "开发商", "楼栋总数(栋)", "房屋总数(户)", "经度", "纬度"]

  /** The values `as_dict()` lists under the labels, in the same order. */
  function LabelValues(d: NData): seq<Value>
  {
    [d.cityName, d.district, d.county, d.name, d.address, d.unitPrice, d.buildingAge, d.buildingTypes,
     d.propertyCost, d.propertyCompany, d.propertyDevelopers, d.numBuilding, d.numHouse, d.lng, d.lat]
  }

  /** `as_dict()`: the record saved for a compound. */
  function AsDict(d: NData): Value
  {
    Dict(seq(15, i requires 0 <= i < 15 => (Labels[i], LabelValues(d)[i])))
  }

  lemma LabelsDistinct()
    ensures forall i, j | 0 <= i < j < |Labels| :: Labels[i] != Labels[j]
  {
  }

  lemma LabelAt(d: NData, i: nat)
    requires i < 15
    ensures Carries(AsDict(d), Labels[i], LabelValues(d)[i])
  {
    LabelsDistinct();
    GetAt(AsDict(d).entries, i);
  }

  /** The saved record has exactly the fifteen labels and does not depend on the url. */
  lemma AsDictLabels(d: NData, url: Value)
    ensures AsDict(d).Dict? && Keys(AsDict(d).entries) == Labels
    ensures AsDict(d.(url := url)) == AsDict(d)
  {
    assert LabelValues(d.(url := url)) == LabelValues(d);
  }

  /** The saved record carries the compound's city, district, county and name. */
  lemma AsDictCarries(d: NData)
    ensures Carries(AsDict(d), "城市", d.cityName) && Carries(AsDict(d), "行政区", d.district)
    ensures Carries(AsDict(d), "板块", d.county) && Carries(AsDict(d), "小区名称", d.name)
  {
    LabelAt(d, 0);
    LabelAt(d, 1);
    LabelAt(d, 2);
    LabelAt(d, 3);
  }

  /** A `Neighborhood` object; its fields are assigned one by one as the crawl learns them. */
  class Neighborhood {
    var buildingAge: Value
    var buildingTypes: Value
    var propertyCost: Value
    var propertyCompany: Value
    var propertyDevelopers: Value
    var numBuilding: Value
    var numHouse: Value
    var lng: Value
    var lat: Value
    var cityName: Value
    var district: Value
    var county: Value
    var name: Value
    var url: Value
    var address: Value
    var unitPrice: Value

    constructor (d: NData)
      ensures Data() == d
    {
      buildingAge, buildingTypes, propertyCost, propertyCompany := d.buildingAge, d.buildingTypes, d.propertyCost, d.propertyCompany;
      propertyDevelopers, numBuilding, numHouse := d.propertyDevelopers, d.numBuilding, d.numHouse;
      lng, lat, cityName, district, county := d.lng, d.lat, d.cityName, d.district, d.county;
      name, url, address, unitPrice := d.name, d.url, d.address, d.unitPrice;
    }

    /** The first assignments of `get_neighborhood_detail_info` once the page is fetched:
        building age and type, property cost and company, read by `selector_xpath`. */
    method ReadBuildingAndProperty(page: Page)
      modifies this
      ensures buildingAge == SelectorXpath(page, BuildingAgePath)
      ensures buildingTypes == SelectorXpath(page, BuildingTypesPath)
      ensures propertyCost == SelectorXpath(page, PropertyCostPath)
      ensures propertyCompany == SelectorXpath(page, PropertyCompanyPath)
      ensures propertyDevelopers == old(propertyDevelopers) && numBuilding == old(numBuilding)
      ensures numHouse == old(numHouse) && unitPrice == old(unitPrice) && lng == old(lng) && lat == old(lat)
      ensures cityName == old(cityName) && district == old(district) && county == old(county)
      ensures name == old(name) && url == old(url) && address == old(address)
    {
      buildingAge := SelectorXpath(page, BuildingAgePath);
      buildingTypes := SelectorXpath(page, BuildingTypesPath);
      propertyCost := SelectorXpath(page, PropertyCostPath);
      propertyCompany := SelectorXpath(page, PropertyCompanyPath);
    }

    /** The next ones: developer, building and household counts, and the unit price. */
    method ReadDevelopersAndCounts(page: Page)
      modifies this
      ensures propertyDevelopers == SelectorXpath(page, PropertyDevelopersPath)
      ensures numBuilding == SelectorXpath(page, NumBuildingPath)
      ensures numHouse == SelectorXpath(page, NumHousePath)
      ensures unitPrice == SelectorXpath(page, UnitPricePath)
      ensures buildingAge == old(buildingAge) && buildingTypes == old(buildingTypes)
      ensures propertyCost == old(propertyCost) && propertyCompany == old(propertyCompany) && lng == old(lng) && lat == old(lat)
      ensures cityName == old(cityName) && district == old(district) && county == old(county)
      ensures name == old(name) && url == old(url) && address == old(address)
    {
      propertyDevelopers := SelectorXpath(page, PropertyDevelopersPath);
      numBuilding := SelectorXpath(page, NumBuildingPath);
      numHouse := SelectorXpath(page, NumHousePath);
      unitPrice := SelectorXpath(page, UnitPricePath);
    }

    /** The last assignments: the coordinates (both None when they cannot be read) and the
        address. */
    method ReadPosition(page: Page)
      modifies this
      ensures Data() == old(Data()).(lng := LngLat(page).0, lat := LngLat(page).1, address := SelectorXpath(page, AddressPath))
    {
      var lngLat := LngLat(page);
      lng := lngLat.0;
      lat := lngLat.1;
      address := SelectorXpath(page, AddressPath);
    }

    /** The object's fields as a value. */
    function Data(): NData
      reads this
    {
      NData(buildingAge, buildingTypes, propertyCost, propertyCompany, propertyDevelopers, numBuilding,
            numHouse, lng, lat, cityName, district, county, name, url, address, unitPrice)
    }
  }

  // ----- a compound's detail page -----

  /** A fetched detail page: the text of each element an XPath pattern matches (None for an
      element without text), and the "lng,lat" text of its `resblockPosition` property (None
      where the script, its js2xml parse or that XPath fails). */
  datatype Page = Page(xpath: string -> seq<Option<string>>, position: Option<string>)

  /** `selector_xpath(selector, pattern)`: the text of the first match; None when nothing
      matches (IndexError) or the first match has no text. */
  function SelectorXpath(page: Page, pattern: string): (r: Value)
    ensures r != Null <==> |page.xpath(pattern)| > 0 && page.xpath(pattern)[0].Some?
    ensures r != Null ==> r == Str(page.xpath(pattern)[0].value)
  {
    if |page.xpath(pattern)| == 0 then Null else OptStr(page.xpath(pattern)[0])
  }

  /** The coordinates a detail page yields: both None unless the position text splits into
      exactly two fields. */
  function LngLat(page: Page): (Value, Value)
  {
    match page.position
    case None => (Null, Null)
    case Some(text) =>
      match HomeLink.GetLngLat(text)
      case None => (Null, Null)
      case Some((lng, lat)) => (Str(lng), Str(lat))
  }

  /** The record after `get_neighborhood_detail_info` has read the page: the eight detail
      fields, the coordinates and the address. */
  function WithDetail(d: NData, page: Page): NData
  {
    var lngLat := LngLat(page);
    d.(buildingAge := SelectorXpath(page, BuildingAgePath),
       buildingTypes := SelectorXpath(page, BuildingTypesPath),
       propertyCost := SelectorXpath(page, PropertyCostPath),
       propertyCompany := SelectorXpath(page, PropertyCompanyPath),
       propertyDevelopers := SelectorXpath(page, PropertyDevelopersPath),
       numBuilding := SelectorXpath(page, NumBuildingPath),
       numHouse := SelectorXpath(page, NumHousePath),
       unitPrice := SelectorXpath(page, UnitPricePath),
       lng := lngLat.0, lat := lngLat.1,
       address := SelectorXpath(page, AddressPath))
  }

  /** The detail step keeps who the compound is and where it was found, depends on nothing
      else of the record, and is idempotent; the coordinates are both set or both None, and
      when set they are the two sides of the position text's comma. */
  lemma WithDetailFields(d: NData, other: NData, page: Page)
    requires other.cityName == d.cityName && other.district == d.district && other.county == d.county
    requires other.name == d.name && other.url == d.url
    ensures var r := WithDetail(d, page);
      r.cityName == d.cityName && r.district == d.district && r.county == d.county
      && r.name == d.name && r.url == d.url
    ensures WithDetail(other, page) == WithDetail(d, page)
    ensures WithDetail(WithDetail(d, page), page) == WithDetail(d, page)
    ensures var r := WithDetail(d, page); (r.lng == Null <==> r.lat == Null)
    ensures var r := WithDetail(d, page);
      r.lng != Null ==> (r.lng.Str? && r.lat.Str? && page.position.Some?
        && page.position.value == r.lng.s + "," + r.lat.s && ',' !in r.lng.s && ',' !in r.lat.s)
  {
    var r := WithDetail(d, page);
    if r.lng != Null {
      HomeLink.GetLngLatRoundTrip(page.position.value, r.lng.s, r.lat.s);
    }
  }

  /** What a successful `get_neighborhood_detail_info` makes of a record; None where the
      request raises (no str url, or no page at it). */
  function Detailed(pages: string -> Option<Page>, d: NData): (r: Option<NData>)
    ensures r.Some? <==> d.url.Str? && pages(d.url.s).Some?
    ensures r.Some? ==> r.value == WithDetail(d, pages(d.url.s).value)
  {
    if d.url.Str? && pages(d.url.s).Some? then Some(WithDetail(d, pages(d.url.s).value)) else None
  }

  /** The records saved for the compounds, in order: those whose detail request succeeds. */
  function Records(pages: string -> Option<Page>, ds: seq<NData>): seq<Value>
  {
    if ds == [] then []
    else
      Records(pages, ds[..|ds| - 1])
      + match Detailed(pages, ds[|ds| - 1]) case None => [] case Some(x) => [AsDict(x)]
  }

  lemma RecordsOne(pages: string -> Option<Page>, d: NData)
    ensures Records(pages, [d]) == if Detailed(pages, d).Some? then [AsDict(Detailed(pages, d).value)] else []
  {
    assert [d][..0] == [];
  }

  lemma {:induction false} RecordsConcat(pages: string -> Option<Page>, a: seq<NData>, b: seq<NData>)
    ensures Records(pages, a + b) == Records(pages, a) + Records(pages, b)
    decreases |b|
  {
    if b == [] {
      assert a + b == a;
    } else {
      var b' := b[..|b| - 1];
      assert (a + b)[..|a + b| - 1] == a + b';
      RecordsConcat(pages, a, b');
    }
  }

  /** Each saved record belongs to one of the compounds: it carries that compound's city,
      district, county and name. */
  lemma {:induction false} RecordsFrom(pages: string -> Option<Page>, ds: seq<NData>)
    ensures forall r | r in Records(pages, ds) :: exists d | d in ds ::
      Carries(r, "城市", d.cityName) && Carries(r, "行政区", d.district)
      && Carries(r, "板块", d.county) && Carries(r, "小区名称", d.name)
    decreases |ds|
  {
    if ds != [] {
      var init, d := ds[..|ds| - 1], ds[|ds| - 1];
      RecordsFrom(pages, init);
      assert forall x | x in init :: x in ds;
      if Detailed(pages, d).Some? {
        var x := Detailed(pages, d).value;
        WithDetailFields(d, d, pages(d.url.s).value);
        AsDictCarries(x);
        assert Records(pages, ds) == Records(pages, init) + [AsDict(x)];
      }
    }
  }

  // ----- what the site serves -----

  /** What the site serves; pages are keyed by their full url. The first five fields are
      what `requests_get` gives: None where it raises (every one of its five tries failed or
      answered a status other than 200) or the XPath on its answer raises. The second crawler
      fetches the city page and the listing pages with a bare `requests.get` instead: one
      try, no status check, so an error page is parsed like any other. `districtLinksBare`
      and `listingBare` are those answers, None only where the request itself or the XPath
      raises. */
  datatype NSite = NSite(
    districtLinks: Option<seq<HomeLink.Anchor>>,
    countyLinks: string -> Option<seq<HomeLink.Anchor>>,
    totalPage: string -> Option<int>,
    listing: string -> Option<seq<HomeLink.Anchor>>,
    pages: string -> Option<Page>,
    districtLinksBare: Option<seq<HomeLink.Anchor>>,
    listingBare: string -> Option<seq<HomeLink.Anchor>>)

  /** `get_districts()`: FetchFailed when the request raises, KeyError when a link has no
      href; a region's url is the link's href as is. */
  function DistrictsOf(site: NSite): Result<seq<HomeLink.Region>>
  {
    match site.districtLinks
    case None => Err(FetchFailed)
    case Some(links) =>
      match HomeLink.RegionsOf("", links)
      case None => Err(KeyError)
      case Some(regions) => Ok(regions)
  }

  /** `get_counties(region)`: the links of the page at `domain + region.url`. */
  function CountiesOf(site: NSite, domain: string, region: HomeLink.Region): Result<seq<HomeLink.Region>>
  {
    match site.countyLinks(domain + region.url)
    case None => Err(FetchFailed)
    case Some(links) =>
      match HomeLink.RegionsOf("", links)
      case None => Err(KeyError)
      case Some(regions) => Ok(regions)
  }

  /** `[(get_counties(d), d) for d in districts]`: the first district that fails raises. */
  function CountiesList(site: NSite, domain: string, districts: seq<HomeLink.Region>): (r: Result<seq<(seq<HomeLink.Region>, HomeLink.Region)>>)
    ensures r.Ok? <==> forall i | 0 <= i < |districts| :: CountiesOf(site, domain, districts[i]).Ok?
    ensures r.Ok? ==> (|r.value| == |districts| && forall i | 0 <= i < |districts| ::
      r.value[i] == (CountiesOf(site, domain, districts[i]).value, districts[i]))
    decreases |districts|
  {
    if districts == [] then Ok([])
    else
      var init, d := districts[..|districts| - 1], districts[|districts| - 1];
      var before := CountiesList(site, domain, init);
      assert forall i | 0 <= i < |init| :: init[i] == districts[i];
      match before
      case Err(e) => Err(e)
      case Ok(pairs) =>
        match CountiesOf(site, domain, d)
        case Err(e) => Err(e)
        case Ok(counties) => Ok(pairs + [(counties, d)])
  }

  /** `Neighborhood(name=item.text, url=item.attrib["href"])`. */
  function FromAnchor(a: HomeLink.Anchor): NData
  {
    Blank.(name := OptStr(a.text), url := if a.href.Some? then Str(a.href.value) else Null)
  }

  /** `get_neighborhood_from_current_page` on the links of a fetched page: None (KeyError)
      when a link has no href. */
  function Listed(links: seq<HomeLink.Anchor>): (r: Option<seq<NData>>)
    ensures r.Some? <==> forall i | 0 <= i < |links| :: links[i].href.Some?
    ensures r.Some? ==> (|r.value| == |links| && forall i | 0 <= i < |links| ::
      r.value[i] == Blank.(name := OptStr(links[i].text), url := Str(links[i].href.value)))
  {
    if forall i | 0 <= i < |links| :: links[i].href.Some? then
      Some(seq(|links|, i requires 0 <= i < |links| => FromAnchor(links[i])))
    else None
  }

  /** `neighborhood.county = county.name; .district = district.name; .city_name = city`. */
  function Tagged(d: NData, district: HomeLink.Region, county: HomeLink.Region, city: string): NData
  {
    d.(county := OptStr(county.name), district := OptStr(district.name), cityName := Str(city))
  }

  function TagEach(ds: seq<NData>, district: HomeLink.Region, county: HomeLink.Region, city: string): (r: seq<NData>)
    ensures |r| == |ds| && forall i | 0 <= i < |ds| :: r[i] == Tagged(ds[i], district, county, city)
  {
    seq(|ds|, i requires 0 <= i < |ds| => Tagged(ds[i], district, county, city))
  }

  // ----- the order in which the crawl visits compounds -----

  /** Listing page i of a county: `f"{domain}{county.url}pg{i}"`. */
  function ListingUrl(domain: string, county: HomeLink.Region, i: nat): string
  {
    domain + HomeLink.PageUrl(county, i)
  }

  lemma ListingUrlInjective(domain: string, county: HomeLink.Region, i: nat, j: nat)
    requires i != j
    ensures ListingUrl(domain, county, i) != ListingUrl(domain, county, j)
  {
    if ListingUrl(domain, county, i) == ListingUrl(domain, county, j) {
      assert ListingUrl(domain, county, i)[|domain|..] == HomeLink.PageUrl(county, i);
      assert ListingUrl(domain, county, j)[|domain|..] == HomeLink.PageUrl(county, j);
      HomeLink.PageUrlInjective(county, i, j);
    }
  }

  /** The tagged compounds of listing page i; none when the page fails. */
  function PageVisits(site: NSite, domain: string, city: string, district: HomeLink.Region, county: HomeLink.Region, i: nat): seq<NData>
  {
    match site.listing(ListingUrl(domain, county, i))
    case None => []
    case Some(links) =>
      match Listed(links)
      case None => []
      case Some(ds) => TagEach(ds, district, county, city)
  }

  /** The tagged compounds of listing pages lo, ..., hi - 1. */
  function PagesVisits(site: NSite, domain: string, city: string, district: HomeLink.Region, county: HomeLink.Region, lo: nat, hi: int): seq<NData>
    decreases hi - lo
  {
    if hi <= lo then []
    else PagesVisits(site, domain, city, district, county, lo, hi - 1) + PageVisits(site, domain, city, district, county, hi - 1)
  }

  /** A county: pages 1 to total_page inclusive (`range(1, total_page + 1)`); none when the
      page count fails or is 0. */
  function CountyVisits(site: NSite, domain: string, city: string, district: HomeLink.Region, county: HomeLink.Region): seq<NData>
  {
    match site.totalPage(domain + county.url)
    case None => []
    case Some(n) => PagesVisits(site, domain, city, district, county, 1, n + 1)
  }

  function CountiesVisits(site: NSite, domain: string, city: string, district: HomeLink.Region, counties: seq<HomeLink.Region>): seq<NData>
  {
    if counties == [] then []
    else
      CountiesVisits(site, domain, city, district, counties[..|counties| - 1])
      + CountyVisits(site, domain, city, district, counties[|counties| - 1])
  }

  /** The pairs of `counties_list`, in order. */
  function PairsVisits(site: NSite, domain: string, city: string, pairs: seq<(seq<HomeLink.Region>, HomeLink.Region)>): seq<NData>
  {
    if pairs == [] then []
    else
      var last := pairs[|pairs| - 1];
      PairsVisits(site, domain, city, pairs[..|pairs| - 1]) + CountiesVisits(site, domain, city, last.1, last.0)
  }

  /** Every compound start_crawler visits, in order, or the error that stops it before it
      visits any. */
  function Crawl(site: NSite, domain: string, city: string): Result<seq<NData>>
  {
    match DistrictsOf(site)
    case Err(e) => Err(e)
    case Ok(districts) =>
      match CountiesList(site, domain, districts)
      case Err(e) => Err(e)
      case Ok(pairs) => Ok(PairsVisits(site, domain, city, pairs))
  }

  // ----- properties of the crawl -----

  /** A range of pages is the range up to m followed by the range from m. */
  lemma {:induction false} PagesVisitsConcat(site: NSite, domain: string, city: string, district: HomeLink.Region, county: HomeLink.Region,
                                             lo: nat, m: nat, hi: int)
    requires lo <= m <= hi
    ensures PagesVisits(site, domain, city, district, county, lo, hi)
      == PagesVisits(site, domain, city, district, county, lo, m) + PagesVisits(site, domain, city, district, county, m, hi)
    decreases hi - m
  {
    if m == hi {
      assert PagesVisits(site, domain, city, district, county, m, hi) == [];
    } else {
      var front, back := PagesVisits(site, domain, city, district, county, lo, m), PagesVisits(site, domain, city, district, county, m, hi - 1);
      var last := PageVisits(site, domain, city, district, county, hi - 1);
      PagesVisitsConcat(site, domain, city, district, county, lo, m, hi - 1);
      assert front + back + last == front + (back + last);
    }
  }

  /** The pages of a range come in order: those before page k, page k, those after it. */
  lemma PagesVisitsSplit(site: NSite, domain: string, city: string, district: HomeLink.Region, county: HomeLink.Region,
                         lo: nat, k: nat, hi: int)
    requires lo <= k < hi
    ensures PagesVisits(site, domain, city, district, county, lo, hi)
      == PagesVisits(site, domain, city, district, county, lo, k) + PageVisits(site, domain, city, district, county, k)
         + PagesVisits(site, domain, city, district, county, k + 1, hi)
  {
    PagesVisitsConcat(site, domain, city, district, county, lo, k, hi);
    PagesVisitsConcat(site, domain, city, district, county, k, k + 1, hi);
    assert PagesVisits(site, domain, city, district, county, k, k + 1) == PageVisits(site, domain, city, district, county, k) by {
      assert PagesVisits(site, domain, city, district, county, k, k) == [];
    }
  }

  /** Every page from 1 to total_page is visited, the last one included. */
  lemma EveryPageVisited(site: NSite, domain: string, city: string, district: HomeLink.Region, county: HomeLink.Region, n: int, k: nat)
    requires site.totalPage(domain + county.url) == Some(n) && 1 <= k <= n
    ensures CountyVisits(site, domain, city, district, county)
      == PagesVisits(site, domain, city, district, county, 1, k) + PageVisits(site, domain, city, district, county, k)
         + PagesVisits(site, domain, city, district, county, k + 1, n + 1)
  {
    PagesVisitsSplit(site, domain, city, district, county, 1, k, n + 1);
  }

  /** The site with the listing at one url failing. */
  function WithoutListing(site: NSite, url: string): NSite
  {
    site.(listing := u => if u == url then None else site.listing(u))
  }

  /** `failed` serves the listings `site` serves for the county, except that page k fails. */
  ghost predicate FailsOnlyAt(site: NSite, failed: NSite, domain: string, county: HomeLink.Region, k: nat)
  {
    failed.listing(ListingUrl(domain, county, k)).None?
    && forall i: nat | i != k :: failed.listing(ListingUrl(domain, county, i)) == site.listing(ListingUrl(domain, county, i))
  }

  /** Taking one listing page away makes exactly that page fail. */
  lemma WithoutListingFailsOnlyAt(site: NSite, domain: string, county: HomeLink.Region, k: nat)
    ensures FailsOnlyAt(site, WithoutListing(site, ListingUrl(domain, county, k)), domain, county, k)
  {
    forall i: nat | i != k
      ensures WithoutListing(site, ListingUrl(domain, county, k)).listing(ListingUrl(domain, county, i))
        == site.listing(ListingUrl(domain, county, i))
    {
      ListingUrlInjective(domain, county, i, k);
    }
  }

  lemma {:induction false} PagesVisitsElsewhere(site: NSite, failed: NSite, domain: string, city: string, district: HomeLink.Region,
                                                county: HomeLink.Region, lo: nat, hi: int, k: nat)
    requires FailsOnlyAt(site, failed, domain, county, k) && !(lo <= k < hi)
    ensures PagesVisits(failed, domain, city, district, county, lo, hi) == PagesVisits(site, domain, city, district, county, lo, hi)
    decreases hi - lo
  {
    if lo < hi {
      PagesVisitsElsewhere(site, failed, domain, city, district, county, lo, hi - 1, k);
    }
  }

  /** A listing page that fails costs the compounds of that page and nothing else. */
  lemma FailedPageLocal(site: NSite, failed: NSite, domain: string, city: string, district: HomeLink.Region, county: HomeLink.Region,
                        n: int, k: nat)
    requires site.totalPage(domain + county.url) == Some(n) && failed.totalPage(domain + county.url) == Some(n) && 1 <= k <= n
    requires FailsOnlyAt(site, failed, domain, county, k)
    ensures CountyVisits(failed, domain, city, district, county)
      == PagesVisits(site, domain, city, district, county, 1, k) + PagesVisits(site, domain, city, district, county, k + 1, n + 1)
  {
    PagesVisitsSplit(failed, domain, city, district, county, 1, k, n + 1);
    assert PageVisits(failed, domain, city, district, county, k) == [];
    PagesVisitsElsewhere(site, failed, domain, city, district, county, 1, k, k);
    PagesVisitsElsewhere(site, failed, domain, city, district, county, k + 1, n + 1, k);
    DropEmpty(PagesVisits(site, domain, city, district, county, 1, k), PageVisits(failed, domain, city, district, county, k),
              PagesVisits(site, domain, city, district, county, k + 1, n + 1));
  }

  /** Every compound visited for a county is tagged with the city, the district and it. */
  lemma {:induction false} PagesVisitsTagged(site: NSite, domain: string, city: string, district: HomeLink.Region, county: HomeLink.Region,
                                             lo: nat, hi: int)
    ensures forall d | d in PagesVisits(site, domain, city, district, county, lo, hi) ::
      d.cityName == Str(city) && d.district == OptStr(district.name) && d.county == OptStr(county.name)
    decreases hi - lo
  {
    if lo < hi {
      PagesVisitsTagged(site, domain, city, district, county, lo, hi - 1);
    }
  }

  lemma {:induction false} CountiesVisitsTagged(site: NSite, domain: string, city: string, district: HomeLink.Region, counties: seq<HomeLink.Region>)
    ensures forall d | d in CountiesVisits(site, domain, city, district, counties) ::
      d.cityName == Str(city) && d.district == OptStr(district.name)
      && exists i | 0 <= i < |counties| :: d.county == OptStr(counties[i].name)
    decreases |counties|
  {
    if counties != [] {
      var init, county := counties[..|counties| - 1], counties[|counties| - 1];
      CountiesVisitsTagged(site, domain, city, district, init);
      var total := site.totalPage(domain + county.url);
      PagesVisitsTagged(site, domain, city, district, county, 1, if total.Some? then total.value + 1 else 0);
      forall d | d in CountiesVisits(site, domain, city, district, counties)
        ensures d.cityName == Str(city) && d.district == OptStr(district.name)
          && exists i | 0 <= i < |counties| :: d.county == OptStr(counties[i].name)
      {
        if d in CountiesVisits(site, domain, city, district, init) {
          var i :| 0 <= i < |init| && d.county == OptStr(init[i].name);
          assert counties[i] == init[i];
        } else {
          assert d.county == OptStr(counties[|counties| - 1].name);
        }
      }
    }
  }

  /** `name` is the name of one of `regions`. */
  predicate NamedIn(regions: seq<HomeLink.Region>, name: Value)
  {
    exists j | 0 <= j < |regions| :: name == OptStr(regions[j].name)
  }

  /** Every compound visited for the counties list carries the city, the name of one of the
      districts and the name of one of that district's counties. */
  lemma {:induction false} PairsVisitsTagged(site: NSite, domain: string, city: string, pairs: seq<(seq<HomeLink.Region>, HomeLink.Region)>)
    ensures forall d | d in PairsVisits(site, domain, city, pairs) ::
      d.cityName == Str(city)
      && exists i | 0 <= i < |pairs| :: d.district == OptStr(pairs[i].1.name) && NamedIn(pairs[i].0, d.county)
    decreases |pairs|
  {
    if pairs != [] {
      var init, last := pairs[..|pairs| - 1], pairs[|pairs| - 1];
      PairsVisitsTagged(site, domain, city, init);
      CountiesVisitsTagged(site, domain, city, last.1, last.0);
      forall d | d in PairsVisits(site, domain, city, pairs)
        ensures d.cityName == Str(city)
          && exists i | 0 <= i < |pairs| :: d.district == OptStr(pairs[i].1.name) && NamedIn(pairs[i].0, d.county)
      {
        if d in PairsVisits(site, domain, city, init) {
          var i :| 0 <= i < |init| && d.district == OptStr(init[i].1.name) && NamedIn(init[i].0, d.county);
          assert pairs[i] == init[i];
        } else {
          assert d.district == OptStr(last.1.name) && NamedIn(last.0, d.county);
        }
      }
    }
  }

  /** Every record start_crawler saves carries the city's Chinese name, the name of one of
      the city's districts and the name of one of that district's counties. */
  lemma CrawlRecordsTagged(site: NSite, domain: string, city: string)
    requires Crawl(site, domain, city).Ok?
    ensures DistrictsOf(site).Ok?
    ensures forall r | r in Records(site.pages, Crawl(site, domain, city).value) ::
      Carries(r, "城市", Str(city))
      && exists i | 0 <= i < |DistrictsOf(site).value| ::
           var district := DistrictsOf(site).value[i];
           Carries(r, "行政区", OptStr(district.name))
           && CountiesOf(site, domain, district).Ok?
           && exists c | NamedIn(CountiesOf(site, domain, district).value, c) :: Carries(r, "板块", c)
  {
    var ds := DistrictsOf(site).value;
    var pairs := CountiesList(site, domain, ds).value;
    var vs := PairsVisits(site, domain, city, pairs);
    PairsVisitsTagged(site, domain, city, pairs);
    RecordsFrom(site.pages, vs);
    forall r | r in Records(site.pages, vs)
      ensures Carries(r, "城市", Str(city)) && exists i | 0 <= i < |ds| ::
        Carries(r, "行政区", OptStr(ds[i].name))
        && CountiesOf(site, domain, ds[i]).Ok?
        && exists c | NamedIn(CountiesOf(site, domain, ds[i]).value, c) :: Carries(r, "板块", c)
    {
      var d :| d in vs && Carries(r, "城市", d.cityName) && Carries(r, "行政区", d.district) && Carries(r, "板块", d.county);
      var i :| 0 <= i < |pairs| && d.district == OptStr(pairs[i].1.name) && NamedIn(pairs[i].0, d.county);
      assert pairs[i] == (CountiesOf(site, domain, ds[i]).value, ds[i]);
      assert Carries(r, "行政区", OptStr(ds[i].name));
    }
  }

  // ----- the spider -----

  class NeighborhoodSpider {
    const cityAbbreviation: string
    const cityZhName: string
    const typ: string
    const domain: string
    const subDomain: string

    constructor (cityAbbreviation: string, cityZhName: string, typ: string)
      ensures this.cityAbbreviation == cityAbbreviation && this.cityZhName == cityZhName && this.typ == typ
      ensures domain == HomeLink.Domain(cityAbbreviation) && subDomain == HomeLink.Domain(cityAbbreviation) + "/" + typ + "/"
    {
      this.cityAbbreviation := cityAbbreviation;
      this.cityZhName := cityZhName;
      this.typ := typ;
      domain := HomeLink.Domain(cityAbbreviation);
      subDomain := HomeLink.Domain(cityAbbreviation) + "/" + typ + "/";
    }

    /** `f"{self.city_abbreviation}_{self.typ}.txt"`. */
    function SavePath(): string
    {
      cityAbbreviation + "_" + typ + ".txt"
    }

    /** `get_neighborhood_detail_info(n)`: fills in the detail fields from the page at n's url;
        false, with n untouched, where that request raises. */
    method GetNeighborhoodDetailInfo(n: Neighborhood, pages: string -> Option<Page>) returns (ok: bool)
      modifies n
      ensures ok == Detailed(pages, old(n.Data())).Some?
      ensures ok ==> n.Data() == Detailed(pages, old(n.Data())).value
      ensures !ok ==> unchanged(n)
    {
      if !n.url.Str? || pages(n.url.s).None? {
        return false;
      }
      var page := pages(n.url.s).value;
      n.ReadBuildingAndProperty(page);
      n.ReadDevelopersAndCounts(page);
      n.ReadPosition(page);
      return true;
    }

    /** The body of the innermost loop: tag the compound, read its detail page and save its
        record; an exception skips the compound. */
    method SaveNeighborhood(site: NSite, disk: Disk, district: HomeLink.Region, county: HomeLink.Region, d: NData)
      modifies disk
      ensures disk.files == Appended(old(disk.files), SavePath(), Records(site.pages, [Tagged(d, district, county, cityZhName)]))
    {
      var n := new Neighborhood(d);
      n.county := OptStr(county.name);
      n.district := OptStr(district.name);
      n.cityName := Str(cityZhName);
      assert n.Data() == Tagged(d, district, county, cityZhName);
      RecordsOne(site.pages, n.Data());
      var ok := GetNeighborhoodDetailInfo(n, site.pages);
      if ok {
        SavedOne(disk.files, SavePath(), AsDict(n.Data()));
        disk.SaveJson(AsDict(n.Data()), SavePath());
      }
    }

    /** The loop over the compounds of one listing page. */
    method SavePage(site: NSite, disk: Disk, district: HomeLink.Region, county: HomeLink.Region, ds: seq<NData>)
      modifies disk
      ensures disk.files == Appended(old(disk.files), SavePath(), Records(site.pages, TagEach(ds, district, county, cityZhName)))
    {
      var path := SavePath();
      ghost var files0 := disk.files;
      assert TagEach(ds[..0], district, county, cityZhName) == [];
      var i := 0;
      while i < |ds|
        invariant 0 <= i <= |ds|
        invariant disk.files == Appended(files0, path, Records(site.pages, TagEach(ds[..i], district, county, cityZhName)))
      {
        ghost var before := TagEach(ds[..i], district, county, cityZhName);
        assert TagEach(ds[..i + 1], district, county, cityZhName) == before + [Tagged(ds[i], district, county, cityZhName)];
        RecordsConcat(site.pages, before, [Tagged(ds[i], district, county, cityZhName)]);
        SaveNeighborhood(site, disk, district, county, ds[i]);
        AppendedTwice(files0, path, Records(site.pages, before), Records(site.pages, [Tagged(ds[i], district, county, cityZhName)]));
        i := i + 1;
      }
      assert ds[..i] == ds;
    }

    /** The body of the page loop: fetch listing page i; a page that fails is skipped. */
    method CrawlPage(site: NSite, disk: Disk, district: HomeLink.Region, county: HomeLink.Region, page: nat)
      modifies disk
      ensures disk.files == Appended(old(disk.files), SavePath(),
        Records(site.pages, PageVisits(site, domain, cityZhName, district, county, page)))
    {
      var links := site.listing(domain + county.url + "pg" + NatToString(page));
      assert domain + county.url + "pg" + NatToString(page) == ListingUrl(domain, county, page);
      var listed: Option<seq<NData>> := None;
      if links.Some? {
        listed := Listed(links.value);
      }
      if listed.Some? {
        SavePage(site, disk, district, county, listed.value);
      }
    }

    /** `for page in range(1, total_page + 1)`. */
    method CrawlPages(site: NSite, disk: Disk, district: HomeLink.Region, county: HomeLink.Region, totalPage: int)
      modifies disk
      ensures disk.files == Appended(old(disk.files), SavePath(),
        Records(site.pages, PagesVisits(site, domain, cityZhName, district, county, 1, totalPage + 1)))
    {
      var path := SavePath();
      ghost var files0 := disk.files;
      var page := 1;
      while page <= totalPage
        invariant page == 1 || 1 < page <= totalPage + 1
        invariant disk.files == Appended(files0, path, Records(site.pages, PagesVisits(site, domain, cityZhName, district, county, 1, page)))
      {
        ghost var done := Records(site.pages, PagesVisits(site, domain, cityZhName, district, county, 1, page));
        ghost var next := Records(site.pages, PageVisits(site, domain, cityZhName, district, county, page));
        RecordsConcat(site.pages, PagesVisits(site, domain, cityZhName, district, county, 1, page),
          PageVisits(site, domain, cityZhName, district, county, page));
        CrawlPage(site, disk, district, county, page);
        AppendedTwice(files0, path, done, next);
        page := page + 1;
      }
    }

    /** The body of the county loop: a county whose page count fails or is 0 is skipped. */
    method CrawlCounty(site: NSite, disk: Disk, district: HomeLink.Region, county: HomeLink.Region)
      modifies disk
      ensures disk.files == Appended(old(disk.files), SavePath(),
        Records(site.pages, CountyVisits(site, domain, cityZhName, district, county)))
    {
      var totalPage := site.totalPage(domain + county.url);
      if totalPage.None? || totalPage.value == 0 {
        return;
      }
      CrawlPages(site, disk, district, county, totalPage.value);
    }

    /** The loop over one district's counties. */
    method CrawlCounties(site: NSite, disk: Disk, district: HomeLink.Region, counties: seq<HomeLink.Region>)
      modifies disk
      ensures disk.files == Appended(old(disk.files), SavePath(),
        Records(site.pages, CountiesVisits(site, domain, cityZhName, district, counties)))
    {
      var path := SavePath();
      ghost var files0 := disk.files;
      assert counties[..0] == [];
      var i := 0;
      while i < |counties|
        invariant 0 <= i <= |counties|
        invariant disk.files == Appended(files0, path, Records(site.pages, CountiesVisits(site, domain, cityZhName, district, counties[..i])))
      {
        assert counties[..i + 1][..i] == counties[..i];
        ghost var done := CountiesVisits(site, domain, cityZhName, district, counties[..i]);
        ghost var next := CountyVisits(site, domain, cityZhName, district, counties[i]);
        RecordsConcat(site.pages, done, next);
        CrawlCounty(site, disk, district, counties[i]);
        AppendedTwice(files0, path, Records(site.pages, done), Records(site.pages, next));
        i := i + 1;
      }
      assert counties[..i] == counties;
    }

    /** `for counties, district in counties_list`. */
    method CrawlPairs(site: NSite, disk: Disk, pairs: seq<(seq<HomeLink.Region>, HomeLink.Region)>)
      modifies disk
      ensures disk.files == Appended(old(disk.files), SavePath(), Records(site.pages, PairsVisits(site, domain, cityZhName, pairs)))
    {
      var path := SavePath();
      ghost var files0 := disk.files;
      assert pairs[..0] == [];
      var i := 0;
      while i < |pairs|
        invariant 0 <= i <= |pairs|
        invariant disk.files == Appended(files0, path, Records(site.pages, PairsVisits(site, domain, cityZhName, pairs[..i])))
      {
        assert pairs[..i + 1][..i] == pairs[..i];
        ghost var done := PairsVisits(site, domain, cityZhName, pairs[..i]);
        var (counties, district) := pairs[i];
        RecordsConcat(site.pages, done, CountiesVisits(site, domain, cityZhName, district, counties));
        CrawlCounties(site, disk, district, counties);
        AppendedTwice(files0, path, Records(site.pages, done), Records(site.pages, CountiesVisits(site, domain, cityZhName, district, counties)));
        i := i + 1;
      }
      assert pairs[..i] == pairs;
    }

    /** `start_crawler()`: the districts and all their counties first, then every listing
        page of every county; a failed district or county listing raises before anything is
        saved. */
    method StartCrawler(site: NSite, disk: Disk) returns (err: Option<Error>)
      modifies disk
      ensures Crawl(site, domain, cityZhName).Err? ==>
        err == Some(Crawl(site, domain, cityZhName).error) && disk.files == old(disk.files)
      ensures Crawl(site, domain, cityZhName).Ok? ==>
        err.None? && disk.files == Appended(old(disk.files), SavePath(), Records(site.pages, Crawl(site, domain, cityZhName).value))
    {
      var districts := DistrictsOf(site);
      if districts.Err? {
        return Some(districts.error);
      }
      var pairs := CountiesList(site, domain, districts.value);
      if pairs.Err? {
        return Some(pairs.error);
      }
      CrawlPairs(site, disk, pairs.value);
      return None;
    }
  }
}
