/** home_link_v1.py: the two-phase lianjia.com crawler. Phase one walks districts,
    counties and listing pages like `HomeLink` and keeps each house url once (`url_set`,
    `url_list`), appending each kept house to "<city>_url_list.json"; phase two fetches the
    detail record of every kept house, or of every house line of a file, into "<city>.txt". */
module HomeLinkV1 {
  import opened Common
  import opened HomeLink

  /** A call `custom_format(path=…, typ=…, save_file_type=…)`; what it does to the files
      it reads and writes is `ConvertJson.Workspace.CustomFormat`. */
  datatype FormatCall = FormatCall(path: string, typ: string, saveFileType: string)

  // ----- url de-duplication -----

  function Urls(houses: seq<House>): set<string>
  {
    set h | h in houses :: h.url
  }

  lemma UrlsConcat(a: seq<House>, b: seq<House>)
    ensures Urls(a + b) == Urls(a) + Urls(b)
  {
    assert forall h :: h in a + b <==> h in a || h in b;
  }

  predicate DistinctUrls(houses: seq<House>)
  {
    forall i, j | 0 <= i < j < |houses| :: houses[i].url != houses[j].url
  }

  /** The houses `get_url_list` keeps from the houses it visits when the urls `seen` are
      already in `url_set`: each house whose url is neither seen nor met earlier. */
  function Fresh(seen: set<string>, houses: seq<House>): seq<House>
  {
    if houses == [] then []
    else
      var init, h := houses[..|houses| - 1], houses[|houses| - 1];
      Fresh(seen, init) + (if h.url in seen || h.url in Urls(init) then [] else [h])
  }

  /** Kept houses are visited houses with urls not seen before. */
  lemma {:induction false} FreshMembers(seen: set<string>, houses: seq<House>)
    ensures forall h | h in Fresh(seen, houses) :: h in houses && h.url !in seen
    decreases |houses|
  {
    if houses != [] {
      FreshMembers(seen, houses[..|houses| - 1]);
    }
  }

  /** The kept urls are exactly the new urls among the visited houses. */
  lemma {:induction false} FreshUrls(seen: set<string>, houses: seq<House>)
    ensures Urls(Fresh(seen, houses)) == Urls(houses) - seen
    decreases |houses|
  {
    if houses != [] {
      var init, h := houses[..|houses| - 1], houses[|houses| - 1];
      FreshUrls(seen, init);
      assert houses == init + [h];
      UrlsConcat(init, [h]);
      assert Urls([h]) == {h.url};
      if !(h.url in seen || h.url in Urls(init)) {
        assert Fresh(seen, houses) == Fresh(seen, init) + [h];
        UrlsConcat(Fresh(seen, init), [h]);
      } else {
        assert Fresh(seen, houses) == Fresh(seen, init) + [];
        assert Urls(houses) - seen == Urls(init) - seen;
      }
    }
  }

  /** No url is kept twice. */
  lemma {:induction false} FreshDistinct(seen: set<string>, houses: seq<House>)
    ensures DistinctUrls(Fresh(seen, houses))
    decreases |houses|
  {
    if houses != [] {
      var init, h := houses[..|houses| - 1], houses[|houses| - 1];
      FreshDistinct(seen, init);
      var f := Fresh(seen, init);
      if !(h.url in seen || h.url in Urls(init)) {
        FreshMembers(seen, init);
        var r := f + [h];
        forall i, j | 0 <= i < j < |r| ensures r[i].url != r[j].url {
          if j == |f| {
            assert r[i] in init;
          }
        }
      }
    }
  }

  /** The first house visited with a new url is the one kept. */
  lemma {:induction false} FreshFirst(seen: set<string>, houses: seq<House>, i: nat)
    requires i < |houses| && houses[i].url !in seen && houses[i].url !in Urls(houses[..i])
    ensures houses[i] in Fresh(seen, houses)
    decreases |houses|
  {
    var init := houses[..|houses| - 1];
    if i < |init| {
      assert init[..i] == houses[..i] && init[i] == houses[i];
      FreshFirst(seen, init, i);
    } else {
      assert houses[..i] == init;
    }
  }

  lemma {:induction false} FreshConcat(seen: set<string>, a: seq<House>, b: seq<House>)
    ensures Fresh(seen, a + b) == Fresh(seen, a) + Fresh(seen + Urls(a), b)
    decreases |b|
  {
    if b == [] {
      assert a + b == a;
    } else {
      var b', h := b[..|b| - 1], b[|b| - 1];
      assert (a + b)[..|a + b| - 1] == a + b';
      FreshConcat(seen, a, b');
      UrlsConcat(a, b');
    }
  }

  /** Appending the kept houses keeps the `url_list`/`url_set` pair consistent. */
  lemma AppendFresh(list: seq<House>, seen: set<string>, houses: seq<House>)
    requires DistinctUrls(list) && Urls(list) == seen
    ensures DistinctUrls(list + Fresh(seen, houses))
    ensures Urls(list + Fresh(seen, houses)) == seen + Urls(houses)
  {
    var f := Fresh(seen, houses);
    FreshMembers(seen, houses);
    FreshUrls(seen, houses);
    FreshDistinct(seen, houses);
    UrlsConcat(list, f);
    var l := list + f;
    forall i, j | 0 <= i < j < |l| ensures l[i].url != l[j].url {
      if i < |list| && |list| <= j {
        assert l[i] in list && l[j] in f;
      } else if |list| <= i {
        assert l[i] == f[i - |list|] && l[j] == f[j - |list|];
      }
    }
  }

  // ----- the url list file -----

  /** `dataclasses.asdict(house)`. */
  function AsDict(h: House): Value
  {
    Dict([("url", Str(h.url)), ("title", Str(h.title)), ("block_name", Str(h.blockName)),
          ("district", OptStr(h.district)), ("county", OptStr(h.county))])
  }

  function AsDicts(houses: seq<House>): (r: seq<Value>)
    ensures |r| == |houses| && forall i | 0 <= i < |houses| :: r[i] == AsDict(houses[i])
  {
    seq(|houses|, i requires 0 <= i < |houses| => AsDict(houses[i]))
  }

  /** The fields of a House built in `_start_crawler_house`; a House read back from JSON may
      hold any value in them. */
  datatype HouseFields = HouseFields(url: Value, title: Value, blockName: Value, district: Value, county: Value)

  function FieldsOf(h: House): HouseFields
  {
    HouseFields(Str(h.url), Str(h.title), Str(h.blockName), OptStr(h.district), OptStr(h.county))
  }

  /** `House(url=house.get("url", None), ..., county=house.get("county", ""))`. */
  function FromDict(entries: seq<(string, Value)>): HouseFields
  {
    HouseFields(GetOr(entries, "url", Null), GetOr(entries, "title", Null), GetOr(entries, "block_name", Str("")),
                GetOr(entries, "district", Str("")), GetOr(entries, "county", Str("")))
  }

  /** A house written to the url list file by `save_house_json` is read back unchanged. */
  lemma FromDictAsDict(h: House)
    ensures FromDict(AsDict(h).entries) == FieldsOf(h)
  {
    var es := AsDict(h).entries;
    assert Get(es, "title") == Get(es[1..], "title");
    assert Get(es, "block_name") == Get(es[1..], "block_name") == Get(es[2..], "block_name");
    assert Get(es, "district") == Get(es[1..], "district") == Get(es[2..], "district") == Get(es[3..], "district");
    assert Get(es, "county") == Get(es[1..], "county") == Get(es[2..], "county") == Get(es[3..], "county")
        == Get(es[4..], "county");
  }

  /** What `_start_crawler_house` is given: a House, or a value read as JSON. */
  datatype Job = HouseJob(house: House) | JsonJob(value: Value)

  function HouseJobs(houses: seq<House>): (r: seq<Job>)
    ensures |r| == |houses| && forall i | 0 <= i < |houses| :: r[i] == HouseJob(houses[i])
  {
    seq(|houses|, i requires 0 <= i < |houses| => HouseJob(houses[i]))
  }

  /** The House `_start_crawler_house` works on; None for anything but a House or a dict. */
  function JobFields(job: Job): Option<HouseFields>
  {
    match job
    case HouseJob(h) => Some(FieldsOf(h))
    case JsonJob(v) => if v.Dict? then Some(FromDict(v.entries)) else None
  }

  /** `get_house_all_info` on those fields, None (saved as null) when it fails; a url that is
      not a string fails at the request. */
  function InfoOrNull(detail: string -> Option<Detail>, f: HouseFields): Value
  {
    if !f.url.Str? then Null
    else match DetailRecord(detail, f.url.s, f.district, f.county)
      case None => Null
      case Some(r) => r
  }

  /** The values `_start_crawler_house` saves for the jobs, in order: one per House or
      dict, unconditionally, even when the detail fails. */
  function JobRecords(detail: string -> Option<Detail>, jobs: seq<Job>): seq<Value>
  {
    if jobs == [] then []
    else
      var f := JobFields(jobs[|jobs| - 1]);
      JobRecords(detail, jobs[..|jobs| - 1]) + (if f.Some? then [InfoOrNull(detail, f.value)] else [])
  }

  /** A House job saves its `get_house_all_info` record, or null where that fails. */
  lemma HouseJobRecord(detail: string -> Option<Detail>, h: House)
    ensures JobRecords(detail, [HouseJob(h)])
         == [if HouseAllInfo(detail, h).Some? then HouseAllInfo(detail, h).value else Null]
  {
    assert [HouseJob(h)][..0] == [];
  }

  /** Crawling a line of the url list file saves what crawling the House itself saves. */
  lemma JsonJobSameAsHouse(detail: string -> Option<Detail>, h: House)
    ensures JobRecords(detail, [JsonJob(AsDict(h))]) == JobRecords(detail, [HouseJob(h)])
  {
    FromDictAsDict(h);
    assert [JsonJob(AsDict(h))][..0] == [] && [HouseJob(h)][..0] == [];
  }

  /** A value that is neither a House nor a dict saves nothing. */
  lemma NonDictSavesNothing(detail: string -> Option<Detail>, v: Value)
    requires !v.Dict?
    ensures JobRecords(detail, [JsonJob(v)]) == []
  {
    assert [JsonJob(v)][..0] == [];
  }

  lemma {:induction false} JobRecordsConcat(detail: string -> Option<Detail>, a: seq<Job>, b: seq<Job>)
    ensures JobRecords(detail, a + b) == JobRecords(detail, a) + JobRecords(detail, b)
    decreases |b|
  {
    if b == [] {
      assert a + b == a;
    } else {
      var b' := b[..|b| - 1];
      assert (a + b)[..|a + b| - 1] == a + b';
      JobRecordsConcat(detail, a, b');
    }
  }

  // ----- the state get_url_list leaves -----

  /** `url_list`, `url_set` and the files. */
  datatype UrlState = UrlState(list: seq<House>, seen: set<string>, files: map<string, seq<Line>>)

  /** One house of the innermost loop: skipped when its url is known, else kept and saved. */
  function Keep(st: UrlState, path: string, h: House): UrlState
  {
    if h.url in st.seen then st
    else UrlState(st.list + [h], st.seen + {h.url}, st.files[path := LinesIn(st.files, path) + [SavedLine(AsDict(h))]])
  }

  /** The state after the loop has met `houses` in order. */
  function Run(st: UrlState, path: string, houses: seq<House>): UrlState
  {
    if houses == [] then st else Keep(Run(st, path, houses[..|houses| - 1]), path, houses[|houses| - 1])
  }

  /** What the url crawler holds once it has walked `houses` from `st0`. */
  ghost predicate RanSince(st0: UrlState, path: string, houses: seq<House>,
                           list: seq<House>, seen: set<string>, files: map<string, seq<Line>>)
  {
    UrlState(list, seen, files) == Run(st0, path, houses)
  }

  lemma {:induction false} RunConcat(st: UrlState, path: string, a: seq<House>, b: seq<House>)
    ensures Run(st, path, a + b) == Run(Run(st, path, a), path, b)
    decreases |b|
  {
    if b == [] {
      assert a + b == a;
    } else {
      var b' := b[..|b| - 1];
      assert (a + b)[..|a + b| - 1] == a + b';
      RunConcat(st, path, a, b');
    }
  }

  lemma AsDictsConcat(a: seq<House>, b: seq<House>)
    ensures AsDicts(a + b) == AsDicts(a) + AsDicts(b)
  {
  }

  lemma FilesTrans(f0: map<string, seq<Line>>, path: string, fa: seq<House>, fb: seq<House>)
    ensures Appended(Appended(f0, path, AsDicts(fa)), path, AsDicts(fb)) == Appended(f0, path, AsDicts(fa + fb))
  {
    AsDictsConcat(fa, fb);
    AppendedTwice(f0, path, AsDicts(fa), AsDicts(fb));
  }

  /** The state `Run` should reach: the fresh houses appended to `url_list` and to the url
      list file, every met url added to `url_set`. */
  function Expected(st: UrlState, path: string, houses: seq<House>): UrlState
  {
    UrlState(st.list + Fresh(st.seen, houses), st.seen + Urls(houses), Appended(st.files, path, AsDicts(Fresh(st.seen, houses))))
  }

  lemma FreshStep(seen: set<string>, init: seq<House>, h: House)
    ensures Fresh(seen, init + [h]) == Fresh(seen, init) + (if h.url in seen || h.url in Urls(init) then [] else [h])
  {
    assert (init + [h])[..|init|] == init;
  }

  lemma UrlsStep(init: seq<House>, h: House)
    ensures Urls(init + [h]) == Urls(init) + {h.url}
  {
    UrlsConcat(init, [h]);
    assert Urls([h]) == {h.url};
  }

  /** Saving one more house to the file the fresh houses went to. */
  lemma KeepFiles(f0: map<string, seq<Line>>, path: string, fi: seq<House>, h: House)
    ensures var mid := Appended(f0, path, AsDicts(fi));
      mid[path := LinesIn(mid, path) + [SavedLine(AsDict(h))]] == Appended(f0, path, AsDicts(fi + [h]))
  {
    SavedOne(Appended(f0, path, AsDicts(fi)), path, AsDict(h));
    assert AsDicts([h]) == [AsDict(h)];
    FilesTrans(f0, path, fi, [h]);
  }

  lemma KeepSkips(st: UrlState, path: string, init: seq<House>, h: House)
    requires h.url in st.seen + Urls(init)
    ensures Expected(st, path, init) == Expected(st, path, init + [h])
  {
    FreshStep(st.seen, init, h);
    UrlsStep(init, h);
    assert Fresh(st.seen, init) + [] == Fresh(st.seen, init);
  }

  lemma KeepAdds(st: UrlState, path: string, init: seq<House>, h: House)
    requires h.url !in st.seen + Urls(init)
    ensures Keep(Expected(st, path, init), path, h) == Expected(st, path, init + [h])
  {
    var fi := Fresh(st.seen, init);
    FreshStep(st.seen, init, h);
    UrlsStep(init, h);
    KeepFiles(st.files, path, fi, h);
    ConcatAssoc(st.list, fi, [h]);
  }

  lemma KeepExpected(st: UrlState, path: string, init: seq<House>, h: House)
    ensures Keep(Expected(st, path, init), path, h) == Expected(st, path, init + [h])
  {
    if h.url in st.seen + Urls(init) {
      KeepSkips(st, path, init, h);
    } else {
      KeepAdds(st, path, init, h);
    }
  }

  /** The loop appends the fresh houses to `url_list` and to the url list file, and adds
      every met url to `url_set`. */
  lemma {:induction false} RunFresh(st: UrlState, path: string, houses: seq<House>)
    ensures Run(st, path, houses) == Expected(st, path, houses)
    decreases |houses|
  {
    if houses == [] {
      assert st.list + [] == st.list;
      assert AsDicts([]) == [];
    } else {
      var init, h := houses[..|houses| - 1], houses[|houses| - 1];
      RunFresh(st, path, init);
      KeepExpected(st, path, init, h);
      assert init + [h] == houses;
    }
  }

  /** `district.name in district_name_list`. */
  predicate Selected(d: Region, names: seq<string>)
  {
    d.name.Some? && d.name.value in names
  }

  /** The districts loop, one district further: a district not named adds nothing. */
  lemma DistrictsVisitsStep(site: Site, city: string, districts: seq<Region>, names: seq<string>, i: nat)
    requires i < |districts|
    ensures DistrictsVisits(site, city, Named(districts[..i + 1], names))
         == DistrictsVisits(site, city, Named(districts[..i], names))
            + (if Selected(districts[i], names) then DistrictVisits(site, city, districts[i]) else [])
  {
    var before := Named(districts[..i], names);
    assert districts[..i + 1][..i] == districts[..i];
    if Selected(districts[i], names) {
      assert Named(districts[..i + 1], names) == before + [districts[i]];
      assert (before + [districts[i]])[..|before|] == before;
    } else {
      assert Named(districts[..i + 1], names) == before;
      assert DistrictsVisits(site, city, before) + [] == DistrictsVisits(site, city, before);
    }
  }

  /** What `get_url_list(district_name_list)` visits: nothing when the districts fail or
      there are none; TypeError at the first district when the list is None. */
  function UrlListOutcome(site: Site, city: string, names: Option<seq<string>>): Outcome
  {
    match Districts(site, city)
    case None => Outcome([], None)
    case Some(districts) =>
      if districts == [] then Outcome([], None)
      else if names.None? then Outcome([], Some(TypeError))
      else Outcome(DistrictsVisits(site, city, Named(districts, names.value)), None)
  }

  /** `start_crawler` calls `get_url_list()` with no list, so it fails whenever the city has
      a district. */
  lemma UrlListWithoutNames(site: Site, city: string)
    ensures UrlListOutcome(site, city, None).error.Some? <==> Districts(site, city).Some? && Districts(site, city).value != []
    ensures UrlListOutcome(site, city, None).houses == []
  {
  }

  /** With every district named, `get_url_list` visits what `start_crawler` of `HomeLink` does. */
  lemma UrlListAllNamed(site: Site, city: string, names: seq<string>)
    requires Districts(site, city).Some?
    requires forall d | d in Districts(site, city).value :: d.name.Some? && d.name.value in names
    ensures UrlListOutcome(site, city, Some(names)) == Outcome(CrawlVisits(site, city), None)
  {
    NamedAll(Districts(site, city).value, names);
  }

  /** `end == 0` stands for `1 << 64`, which no line count reaches. */
  function Upper(end: int): int
  {
    if end == 0 then 0x1_0000_0000_0000_0000 else end
  }

  /** Lines `start` ..= `end` of a file. */
  predicate InWindow(idx: int, start: int, end: int)
  {
    start <= idx <= Upper(end)
  }

  /** What `start_crawler_from_file` saves from the file's lines, and the error that stops
      it: a line inside the window that is not JSON raises ValueError. */
  datatype Saved = Saved(records: seq<Value>, error: Option<Error>)

  function FileRecords(detail: string -> Option<Detail>, lines: seq<string>, start: int, end: int,
                       parse: string -> Option<Value>): Saved
  {
    if lines == [] then Saved([], None)
    else
      var before := FileRecords(detail, lines[..|lines| - 1], start, end, parse);
      var idx := |lines| - 1;
      if before.error.Some? || !InWindow(idx, start, end) then before
      else match parse(lines[idx])
        case None => Saved(before.records, Some(ValueError))
        case Some(v) => Saved(before.records + JobRecords(detail, [JsonJob(v)]), None)
  }

  /** The files once the records of `saved` have been appended to `path` from `f0`. */
  ghost predicate SavedFrom(f0: map<string, seq<Line>>, path: string, saved: Saved, files: map<string, seq<Line>>)
  {
    files == Appended(f0, path, saved.records)
  }

  /** Lines outside the window are never parsed: replacing them changes nothing. */
  lemma {:induction false} FileRecordsWindowOnly(detail: string -> Option<Detail>, lines: seq<string>, other: seq<string>,
                                                 start: int, end: int, parse: string -> Option<Value>)
    requires |other| == |lines|
    requires forall i | 0 <= i < |lines| && InWindow(i, start, end) :: other[i] == lines[i]
    ensures FileRecords(detail, other, start, end, parse) == FileRecords(detail, lines, start, end, parse)
    decreases |lines|
  {
    if lines != [] {
      var n := |lines| - 1;
      FileRecordsWindowOnly(detail, lines[..n], other[..n], start, end, parse);
    }
  }

  /** An `end` past the last line selects as much as `end == 0`. */
  lemma {:induction false} FileRecordsUnbounded(detail: string -> Option<Detail>, lines: seq<string>, start: int, end: int,
                                                parse: string -> Option<Value>)
    requires |lines| <= end && |lines| <= Upper(0)
    ensures FileRecords(detail, lines, start, end, parse) == FileRecords(detail, lines, start, 0, parse)
    decreases |lines|
  {
    if lines != [] {
      FileRecordsUnbounded(detail, lines[..|lines| - 1], start, end, parse);
    }
  }

  lemma {:induction false} FileRecordsStops(detail: string -> Option<Detail>, lines: seq<string>, start: int, end: int,
                                            parse: string -> Option<Value>, k: nat)
    requires k <= |lines| && FileRecords(detail, lines[..k], start, end, parse).error.Some?
    ensures FileRecords(detail, lines, start, end, parse) == FileRecords(detail, lines[..k], start, end, parse)
    decreases |lines| - k
  {
    if k == |lines| {
      assert lines[..k] == lines;
    } else {
      assert lines[..k + 1][..k] == lines[..k];
      FileRecordsStops(detail, lines, start, end, parse, k + 1);
    }
  }

  /** How `crawler_home_link` dispatches on `source`. */
  datatype Mode = FullCrawl | FromFile | FromRedis | NoCrawl

  function Route(source: string): (m: Mode)
    ensures m == NoCrawl <==> source !in {"", "file", "redis"}
  {
    if source == "" then FullCrawl
    else if source == "file" then FromFile
    else if source == "redis" then FromRedis
    else NoCrawl
  }

  /** `start_crawler_by_district_name` accepts one name or a list of names. */
  datatype NameArg = OneName(name: string) | NameList(names: seq<string>)

  function NamesOf(arg: NameArg): seq<string>
  {
    match arg
    case OneName(n) => [n]
    case NameList(ns) => ns
  }

  class HomeLinkSpiderV1 {
    const cityAbbreviation: string
    const useRedis: bool
    var urlList: seq<House>
    var urlSet: set<string>

    /** Every kept url once in `url_list`, and `url_set` holding exactly those urls. */
    ghost predicate Valid()
      reads this
    {
      DistinctUrls(urlList) && Urls(urlList) == urlSet
    }

    constructor (cityAbbreviation: string, useRedis: bool)
      ensures this.cityAbbreviation == cityAbbreviation && this.useRedis == useRedis
      ensures urlList == [] && urlSet == {} && Valid()
    {
      this.cityAbbreviation := cityAbbreviation;
      this.useRedis := useRedis;
      urlList := [];
      urlSet := {};
    }

    /** `get_url_list_path()`. */
    function UrlListPath(): string
    {
      cityAbbreviation + "_url_list.json"
    }

    function SavePath(): string
    {
      cityAbbreviation + ".txt"
    }

    /** The `custom_format` call that ends phase two: the detail file, read as
        "ershoufang" records and converted to CSV. */
    function ClosingCall(): (call: FormatCall)
      reads this
      ensures call.path == SavePath() && call.saveFileType == "csv"
    {
      FormatCall(SavePath(), "ershoufang", "csv")
    }

    /** The loop over one page's houses: a house with a known url is skipped, any other is
        tagged, kept and saved to the url list file. */
    method KeepHouses(disk: Disk, district: Region, county: Region, houses: seq<House>)
      modifies this, disk
      ensures UrlState(urlList, urlSet, disk.files)
           == Run(UrlState(old(urlList), old(urlSet), old(disk.files)), UrlListPath(), TagAll(houses, district, county))
    {
      var path := UrlListPath();
      ghost var st0 := UrlState(urlList, urlSet, disk.files);
      assert TagAll(houses[..0], district, county) == [];
      var i := 0;
      while i < |houses|
        invariant 0 <= i <= |houses|
        invariant UrlState(urlList, urlSet, disk.files) == Run(st0, path, TagAll(houses[..i], district, county))
      {
        assert TagAll(houses[..i + 1], district, county) == TagAll(houses[..i], district, county) + [Tag(houses[i], district, county)];
        var house := houses[i];
        if house.url !in urlSet {
          house := Tag(house, district, county);
          urlSet := urlSet + {house.url};
          urlList := urlList + [house];
          disk.SaveJson(AsDict(house), path);
        }
        i := i + 1;
      }
      assert houses[..i] == houses;
    }

    /** `for i in range(1, total_page)`, skipping a page that fails or lists no house. */
    method UrlPages(site: Site, disk: Disk, district: Region, county: Region, totalPage: int)
      modifies this, disk
      ensures UrlState(urlList, urlSet, disk.files)
           == Run(UrlState(old(urlList), old(urlSet), old(disk.files)), UrlListPath(), PagesVisits(site, district, county, 1, totalPage))
    {
      var path := UrlListPath();
      ghost var st0 := UrlState(urlList, urlSet, disk.files);
      var i := 1;
      while i < totalPage
        invariant i == 1 || 1 < i <= totalPage
        invariant UrlState(urlList, urlSet, disk.files) == Run(st0, path, PagesVisits(site, district, county, 1, i))
      {
        ghost var done, page := PagesVisits(site, district, county, 1, i), PageVisits(site, district, county, i);
        RunConcat(st0, path, done, page);
        var links := site.houseLinks(PageUrl(county, i));
        var houses := if links.Some? then HousesOf(links.value) else None;
        if houses.None? || houses.value == [] {
          assert page == [];
        } else {
          KeepHouses(disk, district, county, houses.value);
        }
        i := i + 1;
      }
      if totalPage < 1 {
        assert PagesVisits(site, district, county, 1, totalPage) == [];
      }
    }

    /** One turn of the loop over a district's counties, stated as the loop's invariant
        carried one county on. */
    method UrlCountyAt(site: Site, disk: Disk, district: Region, counties: seq<Region>, i: nat, ghost st0: UrlState)
      returns (next: nat)
      requires i < |counties| && RanSince(st0, UrlListPath(), CountiesVisits(site, district, counties[..i]), urlList, urlSet, disk.files)
      modifies this, disk
      ensures next == i + 1
      ensures RanSince(st0, UrlListPath(), CountiesVisits(site, district, counties[..next]), urlList, urlSet, disk.files)
    {
      assert counties[..i + 1][..i] == counties[..i];
      RunConcat(st0, UrlListPath(), CountiesVisits(site, district, counties[..i]), CountyVisits(site, district, counties[i]));
      var totalPage := site.totalPage(counties[i].url);
      if totalPage.Some? {
        UrlPages(site, disk, district, counties[i], totalPage.value);
      }
      next := i + 1;
    }

    /** The loop over one district's counties, skipping a county whose page count fails. */
    method UrlCounties(site: Site, disk: Disk, district: Region, counties: seq<Region>)
      modifies this, disk
      ensures UrlState(urlList, urlSet, disk.files)
           == Run(UrlState(old(urlList), old(urlSet), old(disk.files)), UrlListPath(), CountiesVisits(site, district, counties))
    {
      ghost var st0 := UrlState(urlList, urlSet, disk.files);
      assert counties[..0] == [];
      var i := 0;
      while i < |counties|
        invariant 0 <= i <= |counties|
        invariant RanSince(st0, UrlListPath(), CountiesVisits(site, district, counties[..i]), urlList, urlSet, disk.files)
      {
        i := UrlCountyAt(site, disk, district, counties, i, st0);
      }
      assert counties[..i] == counties;
    }

    /** The loop over the districts, skipping those not named and those whose counties fail. */
    method UrlDistricts(site: Site, disk: Disk, districts: seq<Region>, names: seq<string>)
      modifies this, disk
      ensures UrlState(urlList, urlSet, disk.files)
           == Run(UrlState(old(urlList), old(urlSet), old(disk.files)), UrlListPath(),
                  DistrictsVisits(site, cityAbbreviation, Named(districts, names)))
    {
      var path := UrlListPath();
      ghost var st0 := UrlState(urlList, urlSet, disk.files);
      assert districts[..0] == [];
      var i := 0;
      while i < |districts|
        invariant 0 <= i <= |districts|
        invariant UrlState(urlList, urlSet, disk.files) == Run(st0, path, DistrictsVisits(site, cityAbbreviation, Named(districts[..i], names)))
      {
        var district := districts[i];
        DistrictsVisitsStep(site, cityAbbreviation, districts, names, i);
        RunConcat(st0, path, DistrictsVisits(site, cityAbbreviation, Named(districts[..i], names)),
                  if Selected(district, names) then DistrictVisits(site, cityAbbreviation, district) else []);
        if district.name.Some? && district.name.value in names {
          var counties := Counties(site, cityAbbreviation, district);
          if counties.Some? && counties.value != [] {
            UrlCounties(site, disk, district, counties.value);
          }
        }
        i := i + 1;
      }
      assert districts[..i] == districts;
    }

    /** `get_url_list(district_name_list)`: keeps each newly met house url once, in the order
        met, and keeps `url_list` and `url_set` consistent. */
    method GetUrlList(site: Site, disk: Disk, names: Option<seq<string>>) returns (err: Option<Error>)
      requires Valid()
      modifies this, disk
      ensures Valid()
      ensures var outcome := UrlListOutcome(site, cityAbbreviation, names);
        err == outcome.error
        && urlList == old(urlList) + Fresh(old(urlSet), outcome.houses) && urlSet == old(urlSet) + Urls(outcome.houses)
        && disk.files == Appended(old(disk.files), UrlListPath(), AsDicts(Fresh(old(urlSet), outcome.houses)))
    {
      ghost var st0 := UrlState(urlList, urlSet, disk.files);
      ghost var houses := UrlListOutcome(site, cityAbbreviation, names).houses;
      RunFresh(st0, UrlListPath(), houses);
      assert AsDicts(Fresh(urlSet, [])) == [];
      AppendFresh(urlList, urlSet, houses);
      var districts := Districts(site, cityAbbreviation);
      if districts.None? || districts.value == [] {
        return None;
      }
      if names.None? {
        return Some(TypeError);
      }
      UrlDistricts(site, disk, districts.value, names.value);
      return None;
    }

    /** `start_crawler_house(house)`: the house's record, or null, appended to "<city>.txt". */
    method StartCrawlerHouse(detail: string -> Option<Detail>, disk: Disk, job: Job)
      modifies disk
      ensures disk.files == Appended(old(disk.files), SavePath(), JobRecords(detail, [job]))
    {
      assert [job][..0] == [];
      var fields := JobFields(job);
      if fields.None? {
        return;
      }
      var info := InfoOrNull(detail, fields.value);
      assert !info.Str?;
      SavedOne(disk.files, SavePath(), info);
      disk.SaveJson(info, SavePath());
    }

    /** `start_crawler_house_list(house_list)`: every house crawled, each failure caught,
        and then always the closing `custom_format` call. */
    method StartCrawlerHouseList(detail: string -> Option<Detail>, disk: Disk, houses: seq<House>)
      returns (call: FormatCall)
      modifies disk
      ensures disk.files == Appended(old(disk.files), SavePath(), JobRecords(detail, HouseJobs(houses)))
      ensures call == ClosingCall()
    {
      ghost var f0 := disk.files;
      assert HouseJobs(houses[..0]) == [];
      var i := 0;
      while i < |houses|
        invariant 0 <= i <= |houses|
        invariant disk.files == Appended(f0, SavePath(), JobRecords(detail, HouseJobs(houses[..i])))
      {
        assert HouseJobs(houses[..i + 1]) == HouseJobs(houses[..i]) + [HouseJob(houses[i])];
        JobRecordsConcat(detail, HouseJobs(houses[..i]), [HouseJob(houses[i])]);
        AppendedTwice(f0, SavePath(), JobRecords(detail, HouseJobs(houses[..i])), JobRecords(detail, [HouseJob(houses[i])]));
        StartCrawlerHouse(detail, disk, HouseJob(houses[i]));
        i := i + 1;
      }
      assert houses[..i] == houses;
      call := ClosingCall();
    }

    /** `start_crawler()`: `get_url_list()` with no name list, then the detail of every kept house. */
    method StartCrawler(site: Site, disk: Disk) returns (err: Option<Error>, call: Option<FormatCall>)
      requires Valid()
      modifies this, disk
      ensures Valid() && urlList == old(urlList) && urlSet == old(urlSet)
      ensures err == UrlListOutcome(site, cityAbbreviation, None).error
      ensures err.None? ==> disk.files == Appended(old(disk.files), SavePath(), JobRecords(site.detail, HouseJobs(urlList)))
      ensures err.Some? ==> disk.files == old(disk.files)
      ensures call == if err.None? then Some(ClosingCall()) else None
    {
      err := GetUrlList(site, disk, None);
      assert AsDicts([]) == [];
      if err.Some? {
        return err, None;
      }
      var c := StartCrawlerHouseList(site.detail, disk, urlList);
      call := Some(c);
    }

    /** `start_crawler_by_district_name(district_name_list)`. */
    method StartCrawlerByDistrictName(site: Site, disk: Disk, arg: NameArg) returns (call: FormatCall)
      requires Valid()
      modifies this, disk
      ensures Valid()
      ensures var outcome := UrlListOutcome(site, cityAbbreviation, Some(NamesOf(arg)));
        outcome.error.None?
        && urlList == old(urlList) + Fresh(old(urlSet), outcome.houses) && urlSet == old(urlSet) + Urls(outcome.houses)
        && disk.files == Appended(Appended(old(disk.files), UrlListPath(), AsDicts(Fresh(old(urlSet), outcome.houses))),
                                  SavePath(), JobRecords(site.detail, HouseJobs(urlList)))
      ensures call == ClosingCall()
    {
      var names := match arg case OneName(n) => [n] case NameList(ns) => ns;
      var err := GetUrlList(site, disk, Some(names));
      call := StartCrawlerHouseList(site.detail, disk, urlList);
    }

    /** One line of the loop of `start_crawler_from_file`: a line inside the window is read
        as JSON and crawled, stated as the loop's invariant carried one line on. */
    method FileLineAt(detail: string -> Option<Detail>, disk: Disk, lines: seq<string>, idx: nat, upper: int,
                      start: int, end: int, parse: string -> Option<Value>, ghost f0: map<string, seq<Line>>)
      returns (err: Option<Error>)
      requires idx < |lines| && upper == Upper(end)
      requires var saved := FileRecords(detail, lines[..idx], start, end, parse);
        saved.error.None? && SavedFrom(f0, SavePath(), saved, disk.files)
      modifies disk
      ensures var saved := FileRecords(detail, lines[..idx + 1], start, end, parse);
        err == saved.error && SavedFrom(f0, SavePath(), saved, disk.files)
    {
      assert lines[..idx + 1][..idx] == lines[..idx];
      ghost var done := FileRecords(detail, lines[..idx], start, end, parse).records;
      if start <= idx <= upper {
        assert InWindow(idx, start, end);
        var house := parse(lines[idx]);
        if house.None? {
          return Some(ValueError);
        }
        AppendedTwice(f0, SavePath(), done, JobRecords(detail, [JsonJob(house.value)]));
        StartCrawlerHouse(detail, disk, JsonJob(house.value));
      } else {
        assert !InWindow(idx, start, end);
      }
      return None;
    }

    /** `start_crawler_from_file(filename, start, end)`: the file's lines inside the window,
        each read as JSON and crawled, then the closing `custom_format` call unless a line
        failed to parse. */
    method StartCrawlerFromFile(detail: string -> Option<Detail>, disk: Disk, file: Option<seq<string>>, start: int, end: int,
                                parse: string -> Option<Value>) returns (err: Option<Error>, call: Option<FormatCall>)
      modifies disk
      ensures file.None? ==> err == Some(OSError) && disk.files == old(disk.files)
      ensures file.Some? ==>
        var saved := FileRecords(detail, file.value, start, end, parse);
        err == saved.error && disk.files == Appended(old(disk.files), SavePath(), saved.records)
      ensures call == if err.None? then Some(ClosingCall()) else None
    {
      call := None;
      if file.None? {
        return Some(OSError), None;
      }
      var lines := file.value;
      var upper := Upper(end);
      ghost var f0 := disk.files;
      assert lines[..0] == [];
      var idx := 0;
      while idx < |lines|
        invariant 0 <= idx <= |lines|
        invariant var saved := FileRecords(detail, lines[..idx], start, end, parse);
          saved.error.None? && SavedFrom(f0, SavePath(), saved, disk.files)
      {
        err := FileLineAt(detail, disk, lines, idx, upper, start, end, parse, f0);
        if err.Some? {
          FileRecordsStops(detail, lines, start, end, parse, idx + 1);
          return;
        }
        idx := idx + 1;
      }
      assert lines[..idx] == lines;
      return None, Some(ClosingCall());
    }
  }

  /** `crawler_home_link(city_abbreviation, source, file, start, end)`; the Redis source is
      not part of this model. */
  method CrawlerHomeLink(city: string, source: string, site: Site, disk: Disk, file: Option<seq<string>>, start: int, end: int,
                         parse: string -> Option<Value>) returns (err: Option<Error>, call: Option<FormatCall>)
    modifies disk
    ensures Route(source) == FullCrawl ==> err == UrlListOutcome(site, city, None).error && disk.files == old(disk.files)
    ensures Route(source) == FromFile ==>
      (file.None? ==> err == Some(OSError) && disk.files == old(disk.files))
      && (file.Some? ==> var saved := FileRecords(site.detail, file.value, start, end, parse);
            err == saved.error && disk.files == Appended(old(disk.files), city + ".txt", saved.records))
    ensures Route(source) == NoCrawl ==> err.None? && disk.files == old(disk.files)
    ensures call == if (Route(source) == FullCrawl || Route(source) == FromFile) && err.None?
                    then Some(FormatCall(city + ".txt", "ershoufang", "csv"))
                    else None
  {
    match Route(source)
    case FullCrawl =>
      var spider := new HomeLinkSpiderV1(city, false);
      err, call := spider.StartCrawler(site, disk);
      assert JobRecords(site.detail, HouseJobs([])) == [];
    case FromFile =>
      var spider := new HomeLinkSpiderV1(city, false);
      err, call := spider.StartCrawlerFromFile(site.detail, disk, file, start, end, parse);
    case FromRedis =>
      err, call := None, None;
    case NoCrawl =>
      err, call := None, None;
  }
}
