# crawler, modelled in Dafny

A model of the sequential logic inside the scraping scripts of the `crawler`
repository, with proofs about it:

- **land_market.py** — the land-auction scraper. It covers the href filter
  `extract_all_url`, and the font-obfuscation decoder `DecodeText`:
  `cn_to_unicode` / `unicode_to_cn`, the `key:value` font table, and the
  sequential substitution `html_trans`. It also covers the table extraction
  of `TableParser`.
- **air_spyder.py** — the air-quality scraper's month arithmetic:
  `date_range`, `_get_date`, and the bound-normalising branch of `get_dates`.
- **convert_json_to_excel.py** — the line-store converter: `load_data`,
  `get_column_name`, `save_dict_to_csv`, `merge_multiple_csv`,
  `merge_multiple_file` and the `custom_format` dispatch.
- **home_link.py / home_link_v1.py** — the second-hand housing crawler of
  lianjia.com. This covers its nested district → county → page loops and
  their skip rules, the `url_set`/`url_list` pair of the second version, its
  file window `[start, end]` and the `crawler_home_link` dispatch.
- **neighborhood.py / neighborhood_v1.py** — the residential-compound
  crawler. This covers `Neighborhood.as_dict`, `selector_xpath`, the field
  updates of `get_neighborhood_detail_info` and the crawl loops. It also
  covers the second version's two passes: listing, then details over an
  index window.

## How the model is built

- **Modules.** Each script is one module (`LandMarket`, `AirSpyder`,
  `ConvertJson`, `HomeLink`, `HomeLinkV1`, `Neighborhood`, `NeighborhoodV1`).
  They share `Common`, which holds Python values, string helpers,
  de-duplication by key and the append-only file store `Disk`.
- **Mutated objects.** The spiders, `DecodeText`, `Neighborhood`, the
  converter's file system (`Workspace`) and the file store are classes with
  `modifies` clauses. Their loops are `while` loops proved against
  specification functions.
- **Web access.** Every fetch, XPath query and library parse is a parameter.
  A `Site` or `NSite` value of functions gives the outcome of each request,
  and `None` or a failure stands for an exception. `json.loads` and
  `json.dumps` are parameters too (`parse`, `dumps`).
- **Files.** A file written with `save_json` is a sequence of lines. Each line
  is a string written verbatim or a value written as `json.dumps(v)`, and is
  ended by `"\n"`.
- **Exceptions.** An exception that ends an operation is an `Error` value
  (`TypeError`, `KeyError`, `OSError`, …) returned next to the state reached
  before it.

## Model

| member | source | states |
|---|---|---|
| LandMarket.UrlsOf | land_market.py:17-24 | never more urls than hrefs, and every url begins with the domain followed by the prefix |
| LandMarket.UrlsOfMembers | land_market.py:19-23 | a url is listed exactly when some href starts with the prefix and the url is the domain joined to that href |
| LandMarket.UrlsOfConcat | land_market.py:19-23 | filtering is done href by href: the urls of a concatenation are the concatenation of the urls |
| LandMarket.ExtractAllUrl | land_market.py:17-24 | the loop returns exactly the filtered, domain-joined hrefs in document order |
| LandMarket.ZFillMinimalHex | land_market.py:68-69 | for a code point up to 0xff, `hex(val)` without `0x`, zero-filled to 4, is the 4-digit lowercase hex of the value |
| LandMarket.EscapeChar | land_market.py:65-73 | the escape of one character is pure ASCII |
| LandMarket.EscapeCharForm | land_market.py:67-73 | a BMP character escapes to `\u` plus 4 hex digits, a larger one to `\U` plus 8 |
| LandMarket.EscapeCharBranches | land_market.py:67-73 | both branches of the source (manual `\u00xx` for ≤ 0xff, `unicode_escape` above) give the bytes of the one escape form |
| LandMarket.EscapePieces | land_market.py:63-75 | one piece per input character |
| LandMarket.EscapeText | land_market.py:78-82 | the joined escaped text is pure ASCII |
| LandMarket.PiecesTextOfEscape | land_market.py:78-82 | decoding the pieces as UTF-8 and concatenating them gives the escaped text |
| LandMarket.CnToUnicode | land_market.py:60-84 | `need_str` returns the joined escape text, otherwise the list of per-character byte pieces |
| LandMarket.Utf8EncodeAscii | land_market.py:89-92 | UTF-8 encoding of ASCII text is its byte values |
| LandMarket.AsciiBytesValid | land_market.py:89 | ASCII bytes are valid UTF-8, so `str(bytes, 'utf-8')` succeeds |
| LandMarket.HexBytesOfHex | land_market.py:90-92 | reading the hex digits a value was written in gives the value back |
| LandMarket.HexEscape | land_market.py:90-92 | a successful `\x`/`\u`/`\U` escape consumes its full width of digits |
| LandMarket.OctalEscape | land_market.py:90-92 | an octal escape consumes one to three digits after the backslash |
| LandMarket.NamedEscape | land_market.py:90-92 | a successful `\N{…}` escape consumes at least its braces |
| LandMarket.EscapeAt | land_market.py:90-92 | every successful escape consumes at least two bytes and no more than remain |
| LandMarket.HexLetter | land_market.py:90-92 | `u` and `U` select the hex escapes, not a simple, octal or `\x` escape |
| LandMarket.DecodeHexEscape | land_market.py:90-92 | a well-formed `\u`/`\U` escape decodes to its character, then decoding continues after it |
| LandMarket.DecodeEscapeChar | land_market.py:60-92 | decoding the escape of one character yields that character and continues with the rest |
| LandMarket.DecodeEscapeText | land_market.py:60-92 | the `unicode_escape` decoding of the escaped text is the original text |
| LandMarket.UnicodeToCnOfCnToUnicode | land_market.py:60-92 | `unicode_to_cn(cn_to_unicode(s)) == s` for every text s |
| LandMarket.UnicodeToCnOfPiece | land_market.py:84-90 | the bytes branch of `unicode_to_cn` inverts each piece of `need_str=False` |
| LandMarket.UnicodeToCnPlain | land_market.py:91-92 | ASCII text without backslashes is returned unchanged |
| LandMarket.HexUpperInjective | land_market.py:97-98 | uppercase hex of a fixed width is injective |
| LandMarket.FontKey | land_market.py:97-98 | a character's lookup key is the uppercase hex of its code point, 4 digits in the BMP and 8 above |
| LandMarket.EscapedKey | land_market.py:97-98 | `cn_to_unicode(c)[2:].upper()` is that key |
| LandMarket.FontKeyInjective | land_market.py:97-98 | distinct characters have distinct lookup keys |
| LandMarket.FontEntryOfPair | land_market.py:55-57 | a line `a:b` gives the entry (`a` stripped without its first two characters, `b` stripped) |
| LandMarket.FontEntryNoColon | land_market.py:56-57 | a line without `:` has no second field (the IndexError of `infos[1]`) |
| LandMarket.LoadedLastWins | land_market.py:55-57 | a key takes the value of the last line that names it |
| LandMarket.LoadedKeeps | land_market.py:55-57 | a key no line names keeps its earlier binding, or stays absent |
| LandMarket.TransUnmapped | land_market.py:96-100 | characters whose keys map to nothing leave the text unchanged |
| LandMarket.TransEmptyTable | land_market.py:94-101 | with an empty font map `html_trans` is the identity |
| LandMarket.TransKeepsAbsent | land_market.py:96-100 | a character neither in the text nor in any replacement never appears in the result |
| LandMarket.TransRemovesMapped | land_market.py:96-100 | a mapped character of the text that no replacement contains is gone from the result |
| LandMarket.TransForward | land_market.py:96-100 | with x→y and y→z, the text `xy` becomes `zz`: text inserted by an earlier replacement is rewritten by a later one |
| LandMarket.TransBackward | land_market.py:96-100 | with the same table, the text `yx` becomes `zy` |
| LandMarket.TransOrderMatters | land_market.py:96-100 | both results together: replacement follows the order of the original characters |
| LandMarket.DecodeText.constructor | land_market.py:49-50 | a new decoder starts with an empty font map |
| LandMarket.DecodeText.LoadFontTable | land_market.py:53-57 | all lines well formed: the map is the old one updated line by line; otherwise the first line without `:` stops it, with the earlier lines loaded |
| LandMarket.DecodeText.HtmlTrans | land_market.py:94-101 | the loop computes the sequential substitution of the text's own characters |
| LandMarket.DecodeText.Convert | land_market.py:103-104 | `convert` is `html_trans` |
| LandMarket.AllFlagsIn | land_market.py:117-121 | true exactly when every flag occurs in the rendered table |
| LandMarket.IsValidTable | land_market.py:115-121 | a table is valid exactly when both flag strings occur in its rendering |
| LandMarket.ExtractTable2Dict | land_market.py:144-171 | `{}` exactly when one of the 17 cells is missing; otherwise the 17 keys in order, each bound to its cell |
| LandMarket.FillNa | land_market.py:177 | same cells, every cell text, text cells untouched |
| LandMarket.ConvertedEntries | land_market.py:138-142 | same keys in the same order |
| LandMarket.ConvertedExtend | land_market.py:140-141 | converting one more entry appends its key with its converted value |
| LandMarket.ValidTables | land_market.py:123-128 | a table of the input is kept exactly when it is valid, nothing else is kept, and never more tables than the input |
| LandMarket.ValidTablesConcat | land_market.py:123-128 | the filter goes table by table: the kept tables of two runs are the first run's followed by the second's, so page order is kept |
| LandMarket.ValidTablesOne | land_market.py:125-127 | one table is kept exactly when both flags occur in its rendering |
| LandMarket.ItemOfShape | land_market.py:176-182 | a table yields no item exactly when a cell is missing; otherwise the 17 keys, each value the conversion of its filled cell |
| LandMarket.ItemsShape | land_market.py:173-183 | never more items than tables, each item with exactly the 17 keys |
| LandMarket.TableParser.constructor | land_market.py:108-110 | the parser keeps its url and decoder |
| LandMarket.TableParser.GetValidTable | land_market.py:123-128 | the loop keeps the valid tables in order |
| LandMarket.TableParser.ConvertText | land_market.py:138-142 | the loop converts every value with the decoder's font map |
| LandMarket.TableParser.Extract | land_market.py:173-183 | the items of the valid tables that yield a dict, each converted, in order |
| AirSpyder.ParseYm | air_spyder.py:17-18 | a parsed `%Y%m` is a month index of year 1 or later |
| AirSpyder.ParseFormatYm | air_spyder.py:17-19 | parsing a formatted month gives the month back |
| AirSpyder.FormatYmInjective | air_spyder.py:19 | distinct months format differently |
| AirSpyder.DaysIn | air_spyder.py:18-19 | every month has 28 to 31 days |
| AirSpyder.DaysBetweenSign | air_spyder.py:18 | the day count is at least 28 per month forwards, and not positive backwards |
| AirSpyder.DaysBetweenSplit | air_spyder.py:18 | day counts add up across an intermediate month |
| AirSpyder.MonthAtDayForward | air_spyder.py:19 | day i of the forward walk falls in a month from start up to, not including, end |
| AirSpyder.MonthAtDayFirst | air_spyder.py:19 | the walk reaches the first day of every month on its way |
| AirSpyder.DateRangeMonths | air_spyder.py:16-20 | with step 1, `date_range` is the set of months m with start ≤ m < end |
| AirSpyder.DateRangeEmpty | air_spyder.py:18-20 | `date_range` is empty when end ≤ start |
| AirSpyder.DateRangeStepSubset | air_spyder.py:19-20 | any positive step gives a subset of the step-1 range |
| AirSpyder.FormatYmOrder | air_spyder.py:76 | for 4-digit years, string order of formatted months is month order |
| AirSpyder.SortedUnique | air_spyder.py:75-76 | two strictly sorted lists with the same elements are equal, so `sorted` has one answer |
| AirSpyder.SortedList | air_spyder.py:75-76 | the loop lists the set strictly sorted, each element once |
| AirSpyder.MonthList | air_spyder.py:74-76 | the months from lo up to hi, as a list |
| AirSpyder.MonthListSorted | air_spyder.py:76 | that list is strictly sorted |
| AirSpyder.GetDatesMonthList | air_spyder.py:72-76 | the sorted step-1 range is exactly the list of months from start to stop |
| AirSpyder.GetDateOfHeading | air_spyder.py:59-65 | a heading `<y>年<m>月` with digit parts parses to the number written by y followed by m |
| AirSpyder.Spider.constructor | air_spyder.py:35-39 | the spider keeps city name and bounds |
| AirSpyder.Spider.OrderedDates | air_spyder.py:72-76 | reversed bounds are swapped in the object, and the result is the sorted month range between them |
| AirSpyder.SortedRange | air_spyder.py:74-76 | the sorted list of `date_range(start, stop)`, or the error the parse raises |
| AirSpyder.Spider.GetDates | air_spyder.py:67-85 | without a start time the object is unchanged and the site is asked; with one, a missing stop becomes this month and the bounds are ordered as above |
| Common.Keys | convert_json_to_excel.py:57 | the keys of a dict in insertion order |
| Common.GetSpec | home_link_v1.py:107-111 | a lookup fails exactly when the key is absent and otherwise returns a bound value |
| Common.GetAt | home_link_v1.py:107-111 | a key bound once is found with its value |
| Common.Split | home_link.py:127 | `split` returns at least one field |
| Common.SplitJoin | land_market.py:56 | rejoining the fields gives the text, and no field holds the separator |
| Common.SplitFirst | home_link.py:127 | the first field is the prefix up to the first separator, or the whole text |
| Common.SplitAtFirst | land_market.py:56 | a text `a:b` with `a` free of `:` splits into `a` and the fields of `b` |
| Common.LStrip | land_market.py:57 | the suffix left after the leading spaces |
| Common.RStrip | land_market.py:57 | the prefix left before the trailing spaces |
| Common.Strip | land_market.py:57 | `strip()` removes spaces from both ends and only there |
| Common.StripNoSpace | land_market.py:57 | text without edge spaces is unchanged by `strip()` |
| Common.Drop | land_market.py:57 | `[2:]` has the length Python gives it |
| Common.RemoveChar | air_spyder.py:61 | `replace(c, "")` leaves every other character and none of c |
| Common.RemoveCharBetween | air_spyder.py:61 | removing the single separator between two parts concatenates them |
| Common.ReplaceChar | land_market.py:100 | `replace` keeps characters of the text or of the replacement only, and is the identity when the character is absent |
| Common.ParseInt | air_spyder.py:61 | `int()` fails on empty or blank text |
| Common.ParseIntOfDigits | air_spyder.py:61 | `int()` of a digit string is its decimal value |
| Common.ParseIntOfNat | air_spyder.py:61 | `int()` inverts the decimal rendering of a natural number |
| Common.NatToStringRoundTrip | air_spyder.py:61 | the decimal rendering reads back as its number |
| Common.DedupAfterFromInput | convert_json_to_excel.py:23 | de-duplication keeps input elements only, none with a key seen before |
| Common.DedupAfterKeySet | neighborhood_v1.py:80-82 | the kept keys are the input's keys less those seen before |
| Common.DedupAfterDistinct | neighborhood_v1.py:80-82 | no key is kept twice |
| Common.DedupAfterConcat | neighborhood_v1.py:80-82 | de-duplicating a concatenation runs the second part with the first part's keys seen |
| Common.DedupAfterFixpoint | convert_json_to_excel.py:72 | a list with distinct, unseen keys is kept whole |
| Common.DedupIdempotent | convert_json_to_excel.py:72 | de-duplicating twice is de-duplicating once |
| Common.LineText | home_link.py:217-220 | every written line ends with a newline |
| Common.Disk.constructor | home_link.py:219 | the store starts with no files |
| Common.Disk.SaveJson | home_link.py:214-220 | `save_json` appends one line to its path (the string verbatim, anything else dumped) and touches no other file |
| Common.Disk.BulkSaveJson | home_link.py:222-227 | `bulk_save_json` appends one dumped line per record, in order |
| Common.EncodedLines | home_link.py:225-227 | one line per record, in order |
| Common.FileTextAppend | home_link.py:219-220 | appending a line appends its text to the file's text |
| Common.AppendedFrame | home_link.py:222-227 | appending records changes their path only, and only when there is a record |
| Common.AppendedTwice | home_link.py:222-227 | two appends to one path are one append of both record lists |
| Common.SavedOne | home_link.py:214-220 | one `save_json` of a non-string is a bulk save of that one record |
| ConvertJson.ObjectsOfMembers | convert_json_to_excel.py:13-20 | the kept dicts are exactly those of lines that parse to JSON objects |
| ConvertJson.ObjectsOfConcat | convert_json_to_excel.py:14-20 | lines are filtered one by one |
| ConvertJson.AllKeysMembers | convert_json_to_excel.py:22 | the frame's keys are the keys of some record |
| ConvertJson.ColumnsOfKeys | convert_json_to_excel.py:22 | the frame's columns are distinct and are exactly the keys of the records |
| ConvertJson.DropDuplicatesMembers | convert_json_to_excel.py:23 | `drop_duplicates()` keeps every distinct row and no row twice |
| ConvertJson.FrameRowsMembers | convert_json_to_excel.py:22 | each row of the frame is a record laid out on the columns |
| ConvertJson.LoadedFrameRows | convert_json_to_excel.py:11-26 | the loaded frame has the records' columns and distinct rows, each one a loaded record |
| ConvertJson.ColumnNameFirstObject | convert_json_to_excel.py:51-57 | the key order of the first JSON-object line; None when there is none; ValueError only when some line does not parse |
| ConvertJson.AppendAllHeaderOnce | convert_json_to_excel.py:43-48 | the header row is written only when the file did not exist, then one row per record |
| ConvertJson.AppendAllGrows | convert_json_to_excel.py:45-48 | an existing file stays and only grows |
| ConvertJson.SaveStep | convert_json_to_excel.py:86-92 | saving one more dict continues the merge of the dicts before it |
| ConvertJson.IndexOf | convert_json_to_excel.py:72 | the first position of the column |
| ConvertJson.Project | convert_json_to_excel.py:68 | `df[columns]` succeeds exactly when every column exists, keeping each row; KeyError otherwise |
| ConvertJson.CollectColumns | convert_json_to_excel.py:64-69 | every file is projected onto the first file's columns |
| ConvertJson.CollectFirst | convert_json_to_excel.py:66-67 | the column list comes from the first file |
| ConvertJson.ConcatColumns | convert_json_to_excel.py:71 | the concatenation has the shared columns |
| ConvertJson.DropRoomDuplicatesKeys | convert_json_to_excel.py:72 | one row per `房间代号`, every code kept, same columns |
| ConvertJson.MergeRoomCodesDistinct | convert_json_to_excel.py:60-73 | the merged table has `房间代号` and each code once |
| ConvertJson.MergeColumns | convert_json_to_excel.py:64-71 | the merged table has the first file's columns |
| ConvertJson.MergeStopsAt | convert_json_to_excel.py:64-68 | the first file that fails to read or project ends the merge with its error |
| ConvertJson.SaveNameFresh | convert_json_to_excel.py:29-40 | the `.xls` and `.csv` outputs never overwrite the input or each other |
| ConvertJson.Available | convert_json_to_excel.py:86-87 | the files that open before the first missing one |
| ConvertJson.Workspace.constructor | convert_json_to_excel.py:13 | the store holds the given text files and no tables |
| ConvertJson.Workspace.LoadData | convert_json_to_excel.py:11-26 | OSError for a missing file, otherwise the loaded frame |
| ConvertJson.Workspace.ConvertJsonToExcel | convert_json_to_excel.py:29-33 | writes the frame to `<name>_<typ>.xls`; ValueError without an Excel writer; OSError for a missing file |
| ConvertJson.Workspace.ConvertJsonToCsv | convert_json_to_excel.py:36-40 | writes the frame to `<name>_<typ>.csv`; OSError for a missing file |
| ConvertJson.Workspace.SaveDictToCsv | convert_json_to_excel.py:43-48 | KeyError when a column is missing; otherwise one row, with the header only for a new file |
| ConvertJson.Workspace.SaveLinesToCsv | convert_json_to_excel.py:88-92 | the loop over one file appends a row for each JSON-object line |
| ConvertJson.Workspace.MergeMultipleFile | convert_json_to_excel.py:76-94 | IndexError on an empty list; nothing when the first file gives no columns; otherwise every object line of the files, up to the first missing one (OSError) |
| ConvertJson.Workspace.MergeMultipleCsv | convert_json_to_excel.py:60-73 | writes the merged table, or raises the error of the first file that fails |
| ConvertJson.Workspace.CustomFormat | convert_json_to_excel.py:97-111 | `txt` does nothing; `csv` converts to CSV and swallows its failure; anything else tries Excel, then CSV, whose failure escapes |
| HomeLink.HouseHashOnUrl | home_link.py:42-43 | houses hash alike exactly when their urls agree, whatever their tags |
| HomeLink.GetRegion | home_link.py:67-69 | a region exactly when the link has an href: its text, and the domain joined to the href |
| HomeLink.RegionsOf | home_link.py:78-83 | one region per link in order, or None when some link lacks an href |
| HomeLink.Named | home_link.py:273 | the filter never lengthens the list |
| HomeLink.NamedSpec | home_link.py:273 | it keeps exactly the regions whose name is listed |
| HomeLink.NamedAll | home_link.py:273 | naming every region keeps all of them, in order |
| HomeLink.BlockNameIsPrefix | home_link.py:127 | the block name is the title up to its first space, or the whole title |
| HomeLink.HousesOfShape | home_link.py:118-131 | one untagged house per link, in order, exactly when every link has href and text |
| HomeLink.HousesOfStops | home_link.py:123-131 | a failing link fails the whole page |
| HomeLink.GetLngLatRoundTrip | home_link.py:148 | the coordinates split into (lng, lat) exactly when the text is `lng,lat` with one comma |
| HomeLink.DetailRecord | home_link.py:151-212 | a record exactly when the detail page and its coordinates read, carrying the house's district, county and room code |
| HomeLink.TagAll | home_link.py:252-254 | each house of the page tagged with district and county names |
| HomeLink.InfosConcat | home_link.py:255-259 | records are saved house by house |
| HomeLink.InfosFrom | home_link.py:252-259 | every saved record is the detail of a visited house and carries its district and county |
| HomeLink.PagesVisitsTagged | home_link.py:246-254 | every house of a county's pages carries the district and county |
| HomeLink.CountiesVisitsTagged | home_link.py:241-254 | every house of a district carries its name and one of its counties' names |
| HomeLink.DistrictsVisitsTagged | home_link.py:235-254 | every house carries the name of one of the districts and the name of one of that district's counties |
| HomeLink.CrawlRecordsTagged | home_link.py:229-262 | every record `start_crawler` saves carries a district of the city as `区` and one of that district's counties as `县` |
| HomeLink.PageUrlInjective | home_link.py:247 | different page numbers request different urls |
| HomeLink.LastPageNeverVisited | home_link.py:246 | page `total_page` is never requested: changing it changes nothing |
| HomeLink.SelectedVisitsAll | home_link.py:277-303 | with every county named and listable, the selected crawl visits what the full crawl visits |
| HomeLink.CrawlCountiesAll | home_link.py:264-303 | with every district and county named, `start_crawler_counties` visits what `start_crawler` visits |
| HomeLink.SelectedStops | home_link.py:278-280 | once a county listing fails (TypeError in the filter), the outcome is what came before and that error |
| HomeLink.SavedStep | home_link.py:258-259 | saving the records of two runs in turn saves those of both |
| HomeLink.HomeLinkSpider.constructor | home_link.py:47-56 | the city abbreviation, the domain and the `chengjiao` sub-domain |
| HomeLink.HomeLinkSpider.GetHouseFromCurrentPage | home_link.py:118-131 | the loop returns the page's houses, or None when a link fails |
| HomeLink.HomeLinkSpider.SaveHouses | home_link.py:252-261 | each house tagged, its record saved when it has one, in order |
| HomeLink.HomeLinkSpider.CrawlPages | home_link.py:246-261 | pages 1 to total_page − 1; a failed or empty page is skipped |
| HomeLink.HomeLinkSpider.CrawlCounties | home_link.py:241-261 | a county whose page count fails is skipped |
| HomeLink.HomeLinkSpider.CrawlDistrict | home_link.py:235-261 | a district whose counties cannot be listed is skipped |
| HomeLink.HomeLinkSpider.StartCrawler | home_link.py:229-262 | appends to `<city>.txt` the records of every house of every district, county and page but the last |
| HomeLink.HomeLinkSpider.CrawlNamedCounties | home_link.py:278-303 | only the named counties; false, with nothing saved, when the counties cannot be listed |
| HomeLink.HomeLinkSpider.CrawlSelected | home_link.py:277-303 | the selected districts in order, stopped with its error by the first that cannot be listed |
| HomeLink.HomeLinkSpider.StartCrawlerCounties | home_link.py:264-305 | only named districts and counties, in site order; the records saved and the error, if any |
| HomeLinkV1.FreshMembers | home_link_v1.py:53-60 | the kept houses are met houses whose url was not already known |
| HomeLinkV1.FreshUrls | home_link_v1.py:53-60 | the kept urls are exactly the new urls met |
| HomeLinkV1.FreshDistinct | home_link_v1.py:54-60 | no url is kept twice |
| HomeLinkV1.FreshFirst | home_link_v1.py:54-60 | the first house met with a new url is the one kept |
| HomeLinkV1.FreshConcat | home_link_v1.py:53-60 | the second part is filtered with the first part's urls known |
| HomeLinkV1.AppendFresh | home_link_v1.py:54-60 | appending the kept houses keeps `url_list` urls distinct and their set equal to `url_set` |
| HomeLinkV1.AsDicts | home_link_v1.py:76-80 | one `asdict` per house, in order |
| HomeLinkV1.FromDictAsDict | home_link_v1.py:76-112 | a house saved by `save_house_json` is rebuilt unchanged by the dict branch |
| HomeLinkV1.HouseJobs | home_link_v1.py:145-147 | one job per house, in order |
| HomeLinkV1.HouseJobRecord | home_link_v1.py:114-118 | a House job saves its detail record, or null when the detail fails |
| HomeLinkV1.JsonJobSameAsHouse | home_link_v1.py:106-118 | crawling a line of the url-list file saves what crawling the house saves |
| HomeLinkV1.NonDictSavesNothing | home_link_v1.py:114-115 | a value that is neither House nor dict saves nothing |
| HomeLinkV1.JobRecordsConcat | home_link_v1.py:145-147 | jobs are crawled one by one |
| HomeLinkV1.RunConcat | home_link_v1.py:53-61 | walking two runs of houses is walking them in turn |
| HomeLinkV1.RunFresh | home_link_v1.py:53-61 | the loop appends the fresh houses to `url_list` and the url-list file and adds every met url to `url_set` |
| HomeLinkV1.KeepExpected | home_link_v1.py:53-61 | one more house keeps that description |
| HomeLinkV1.DistrictsVisitsStep | home_link_v1.py:34-36 | a district not named adds nothing |
| HomeLinkV1.UrlListWithoutNames | home_link_v1.py:27-36 | with no name list, the membership test raises TypeError exactly when the city has districts, and nothing is visited |
| HomeLinkV1.UrlListAllNamed | home_link_v1.py:27-67 | with every district named, `get_url_list` visits what `start_crawler` of the first spider visits |
| HomeLinkV1.FileRecordsWindowOnly | home_link_v1.py:170-173 | lines outside `[start, end]` are never read |
| HomeLinkV1.FileRecordsUnbounded | home_link_v1.py:167-168 | `end == 0` selects as much as any end past the last line |
| HomeLinkV1.FileRecordsStops | home_link_v1.py:170-173 | a line that does not parse ends the run with what came before |
| HomeLinkV1.Route | home_link_v1.py:178-188 | no crawl exactly when the source is none of `""`, `file`, `redis` |
| HomeLinkV1.HomeLinkSpiderV1.constructor | home_link_v1.py:19-25 | empty `url_list` and `url_set`, consistent |
| HomeLinkV1.HomeLinkSpiderV1.KeepHouses | home_link_v1.py:53-63 | the loop over a page's houses reaches the state the walk specifies |
| HomeLinkV1.HomeLinkSpiderV1.UrlPages | home_link_v1.py:47-64 | pages 1 to total_page − 1, a failed or empty page skipped |
| HomeLinkV1.HomeLinkSpiderV1.UrlCountyAt | home_link_v1.py:42-64 | one county carries the loop's state one county on |
| HomeLinkV1.HomeLinkSpiderV1.UrlCounties | home_link_v1.py:38-64 | the counties of one district, a county whose page count fails skipped |
| HomeLinkV1.HomeLinkSpiderV1.UrlDistricts | home_link_v1.py:34-67 | only the named districts, one whose counties fail skipped |
| HomeLinkV1.HomeLinkSpiderV1.GetUrlList | home_link_v1.py:27-67 | new urls appended once, in the order met, to `url_list` and the url-list file, and `url_set` kept consistent; the error of a missing name list |
| HomeLinkV1.HomeLinkSpiderV1.StartCrawlerHouse | home_link_v1.py:105-127 | appends the job's record, or null, to `<city>.txt` |
| HomeLinkV1.HomeLinkSpiderV1.StartCrawlerHouseList | home_link_v1.py:145-149 | one record per house, in order, every failure caught, then always `custom_format("<city>.txt", "ershoufang", "csv")` |
| HomeLinkV1.HomeLinkSpiderV1.StartCrawler | home_link_v1.py:129-134 | the TypeError of `get_url_list()`, with nothing saved and no conversion, whenever the city has districts; otherwise the details of the kept houses, then the closing CSV conversion |
| HomeLinkV1.HomeLinkSpiderV1.StartCrawlerByDistrictName | home_link_v1.py:136-143 | a single name is wrapped into a list; the fresh houses are kept and saved, then crawled, and the run always ends in the closing CSV conversion |
| HomeLinkV1.HomeLinkSpiderV1.FileLineAt | home_link_v1.py:170-173 | one line carries the loop's state one line on |
| HomeLinkV1.HomeLinkSpiderV1.StartCrawlerFromFile | home_link_v1.py:162-175 | OSError for a missing file; otherwise the records of the lines in the window, until a line fails to parse; the closing CSV conversion exactly when neither happens |
| HomeLinkV1.CrawlerHomeLink | home_link_v1.py:178-188 | `""` runs the full crawl, `file` the file crawl, any other source but `redis` nothing; the `""` and `file` routes end in `custom_format("<city>.txt", "ershoufang", "csv")` exactly when they raise nothing |
| Neighborhood.Fields | neighborhood.py:72-80 | `asdict` lists the sixteen fields |
| Neighborhood.FromFields | neighborhood_v1.py:79 | `Neighborhood(**d)` succeeds exactly when every key names a field |
| Neighborhood.FieldAt | neighborhood.py:72-80 | each field is found under its name |
| Neighborhood.FromFieldsOfFields | neighborhood_v1.py:58-82 | `Neighborhood(**asdict(n))` rebuilds n |
| Neighborhood.LabelAt | neighborhood.py:82-99 | each label of `as_dict` carries its field |
| Neighborhood.AsDictLabels | neighborhood.py:82-99 | exactly the 15 labels in order, whatever the url |
| Neighborhood.AsDictCarries | neighborhood.py:84-87 | the record carries city, district, county and name |
| Neighborhood.Neighborhood.constructor | neighborhood.py:72-80 | a new object holds the given fields |
| Neighborhood.Neighborhood.ReadBuildingAndProperty | neighborhood.py:186-193 | the first four detail fields read from the page, nothing else changed |
| Neighborhood.Neighborhood.ReadDevelopersAndCounts | neighborhood.py:194-200 | the next four, nothing else changed |
| Neighborhood.Neighborhood.ReadPosition | neighborhood.py:201-209 | coordinates and address set, nothing else changed |
| Neighborhood.SelectorXpath | neighborhood.py:177-182 | the first match's text, or None when nothing matches or the match has no text |
| Neighborhood.WithDetailFields | neighborhood.py:184-210 | identity fields unchanged; idempotent; lng and lat both None or the two sides of the position's comma |
| Neighborhood.Detailed | neighborhood.py:184-210 | succeeds exactly when the url is a string whose page exists |
| Neighborhood.RecordsOne | neighborhood.py:258-270 | a compound whose detail fails saves nothing |
| Neighborhood.RecordsConcat | neighborhood.py:258-270 | compounds are saved one by one |
| Neighborhood.RecordsFrom | neighborhood.py:258-270 | every saved record carries the city, district, county and name of a compound |
| Neighborhood.CountiesList | neighborhood.py:241-242 | one (counties, district) pair per district, or the failure of the first that fails |
| Neighborhood.Listed | neighborhood.py:169-174 | one blank compound per link with its name and url, or None when a link lacks an href |
| Neighborhood.TagEach | neighborhood.py:258-262 | each compound tagged with county, district and city |
| Neighborhood.ListingUrlInjective | neighborhood.py:251 | different pages request different urls |
| Neighborhood.PagesVisitsConcat | neighborhood.py:250-251 | a range of pages is the range up to any page m followed by the range from m |
| Neighborhood.PagesVisitsSplit | neighborhood.py:250-257 | pages come in order |
| Neighborhood.EveryPageVisited | neighborhood.py:247-251 | pages 1 to total_page are all visited, the last included |
| Neighborhood.WithoutListingFailsOnlyAt | neighborhood.py:252-257 | removing one listing fails exactly that page |
| Neighborhood.PagesVisitsElsewhere | neighborhood.py:252-257 | a failing page outside the range changes nothing |
| Neighborhood.FailedPageLocal | neighborhood.py:252-257 | a failed listing page loses that page's compounds and nothing else |
| Neighborhood.PagesVisitsTagged | neighborhood.py:258-262 | every compound of a county carries city, district and county |
| Neighborhood.CountiesVisitsTagged | neighborhood.py:246-262 | every compound of a district carries it and one of its counties |
| Neighborhood.PairsVisitsTagged | neighborhood.py:245-262 | every compound carries the city, one of the districts and one of that district's counties |
| Neighborhood.CrawlRecordsTagged | neighborhood.py:238-270 | every saved record carries the city's Chinese name, a district of the city as `行政区` and one of that district's counties as `板块` |
| Neighborhood.NeighborhoodSpider.constructor | neighborhood.py:136-146 | abbreviation, Chinese name, type, domain and sub-domain |
| Neighborhood.NeighborhoodSpider.GetNeighborhoodDetailInfo | neighborhood.py:184-210 | the object updated in place exactly as `Detailed` says, or untouched when the request raises |
| Neighborhood.NeighborhoodSpider.SaveNeighborhood | neighborhood.py:259-270 | tag, detail and save one compound; an exception skips it |
| Neighborhood.NeighborhoodSpider.SavePage | neighborhood.py:258-270 | the compounds of one page, in order |
| Neighborhood.NeighborhoodSpider.CrawlPage | neighborhood.py:251-270 | a page whose fetch fails is skipped |
| Neighborhood.NeighborhoodSpider.CrawlPages | neighborhood.py:250-270 | pages 1 to total_page inclusive |
| Neighborhood.NeighborhoodSpider.CrawlCounty | neighborhood.py:247-270 | a county whose page count fails or is 0 is skipped |
| Neighborhood.NeighborhoodSpider.CrawlCounties | neighborhood.py:246-270 | the counties of one district, in order |
| Neighborhood.NeighborhoodSpider.CrawlPairs | neighborhood.py:245-270 | every pair of the counties list, in order |
| Neighborhood.NeighborhoodSpider.StartCrawler | neighborhood.py:238-270 | the failure of the districts or counties lists, with nothing saved; otherwise the records of every compound visited |
| NeighborhoodV1.Leading | neighborhood_v1.py:38-39 | the links before the first one without an href |
| NeighborhoodV1.LeadingAt | neighborhood_v1.py:38-39 | they stop exactly at that link |
| NeighborhoodV1.TaggedAnchors | neighborhood_v1.py:53-57 | one compound per link |
| NeighborhoodV1.TaggedAnchorsAt | neighborhood_v1.py:53-57 | the compound of link i, tagged |
| NeighborhoodV1.WithHref | neighborhood_v1.py:20-26 | never more regions than links |
| NeighborhoodV1.WithHrefFrom | neighborhood_v1.py:20-26 | a region is yielded exactly when some link with an href gives it |
| NeighborhoodV1.WithHrefEvery | neighborhood_v1.py:20-26 | with every href present, every link's region, in order |
| NeighborhoodV1.WithHrefAll | neighborhood_v1.py:20-26 | then the districts are those of the first spider's `get_districts` |
| NeighborhoodV1.PagesWalkStops | neighborhood_v1.py:50-53 | once a page raises, later pages are not requested |
| NeighborhoodV1.CountiesWalkStops | neighborhood_v1.py:46-53 | once a county raises, later counties are not visited |
| NeighborhoodV1.DistrictsWalkStops | neighborhood_v1.py:43-53 | once a district raises, later districts are not visited |
| NeighborhoodV1.PageWalkMissingHref | neighborhood_v1.py:36-53 | a page whose k-th link lacks an href adds the k compounds before it, then raises KeyError |
| NeighborhoodV1.PageWalkErrorPage | neighborhood_v1.py:35-39 | a listing page answering an error status is skipped by the first spider (`requests_get` raises) but parsed by v1's bare `requests.get`, whose links v1 yields without raising |
| NeighborhoodV1.DistrictsErrorPage | neighborhood_v1.py:20-24 | a city page answering an error status fails the first spider's `get_districts` but not v1's, which walks the links of the error page |
| NeighborhoodV1.PageWalkAgrees | neighborhood_v1.py:53-60 | a page that does not raise, and whose bare answer is `requests_get`'s, yields what the first spider visits on it |
| NeighborhoodV1.PagesWalkAgrees | neighborhood_v1.py:50-60 | likewise for a range of pages, when every bare answer is `requests_get`'s |
| NeighborhoodV1.CountiesWalkAgrees | neighborhood_v1.py:46-60 | likewise for a district's counties |
| NeighborhoodV1.DistrictsWalkAgrees | neighborhood_v1.py:28-60 | likewise for the counties list |
| NeighborhoodV1.ListWalkAgrees | neighborhood_v1.py:41-64 | when every bare answer is `requests_get`'s (status 200 at the first try) and neither crawler raises, the first pass meets exactly what `start_crawler` of the first spider visits, in order |
| NeighborhoodV1.UrlList | neighborhood_v1.py:80-82 | the urls of the compounds taken, in order |
| NeighborhoodV1.UrlListKeys | neighborhood_v1.py:80-82 | a url is on `_url_list` exactly when it is a key taken |
| NeighborhoodV1.ListFromFileStops | neighborhood_v1.py:70-79 | the first line whose keys name no field ends the read with TypeError |
| NeighborhoodV1.ListFromFileDedup | neighborhood_v1.py:68-82 | a read that does not raise is `drop_duplicates` on the url of the records the lines hold |
| NeighborhoodV1.ListLines | neighborhood_v1.py:60 | one `save_json(asdict(n))` line per compound |
| NeighborhoodV1.ReadListLine | neighborhood_v1.py:60-79 | such a line reads back as its compound |
| NeighborhoodV1.DecodedRecords | neighborhood_v1.py:71-82 | lines that each hold a record read back as those records, without exception |
| NeighborhoodV1.ListFileRoundTrip | neighborhood_v1.py:60-82 | reading back the url-list file gives its compounds, each url once, in first-seen order |
| NeighborhoodV1.Processed | neighborhood_v1.py:106-109 | the list keeps its length |
| NeighborhoodV1.ProcessedAt | neighborhood_v1.py:106-109 | index i is detailed exactly when start ≤ i ≤ end (end 0 unbounded), otherwise untouched |
| NeighborhoodV1.ProcessedKeepsIdentity | neighborhood_v1.py:85-94 | the second pass changes no compound's city, district, county, name or url |
| NeighborhoodV1.WindowDone | neighborhood_v1.py:106-109 | the pass over the whole list is the whole window |
| NeighborhoodV1.WindowRecordsSlice | neighborhood_v1.py:96-109 | the window saves the records of the slice from start (to the end when end is 0) |
| NeighborhoodV1.WindowRecordsNone | neighborhood_v1.py:106-108 | a start past the list saves nothing |
| NeighborhoodV1.JsonStep | neighborhood_v1.py:58-60 | what two steps of the first pass append joins up |
| NeighborhoodV1.WindowStep | neighborhood_v1.py:106-109 | one index of the second loop continues the window |
| NeighborhoodV1.NeighborhoodSpiderV1.constructor | neighborhood_v1.py:15-18 | empty list, `save_path_name = <city>_<typ>` |
| NeighborhoodV1.NeighborhoodSpiderV1.NewTagged | neighborhood_v1.py:39-57 | a fresh compound from the link, tagged with county, district and city |
| NeighborhoodV1.NeighborhoodSpiderV1.Push | neighborhood_v1.py:58 | appended to the list, which stays consistent |
| NeighborhoodV1.NeighborhoodSpiderV1.AddNeighborhood | neighborhood_v1.py:54-64 | the tagged compound appended to the list and its `asdict` to `<city>_<typ>.json` |
| NeighborhoodV1.NeighborhoodSpiderV1.AddAnchorAt | neighborhood_v1.py:53-64 | one link carries the loop's state one link on |
| NeighborhoodV1.NeighborhoodSpiderV1.ListAnchors | neighborhood_v1.py:53-64 | the leading links with href are added; KeyError exactly when some link lacks one |
| NeighborhoodV1.NeighborhoodSpiderV1.ListPage | neighborhood_v1.py:51-64 | one listing page of the first pass |
| NeighborhoodV1.NeighborhoodSpiderV1.ListPageAt | neighborhood_v1.py:50-64 | one page carries the loop's state one page on |
| NeighborhoodV1.NeighborhoodSpiderV1.ListPages | neighborhood_v1.py:50-64 | pages 1 to total_page inclusive, until one raises |
| NeighborhoodV1.NeighborhoodSpiderV1.ListCounty | neighborhood_v1.py:47-64 | a county whose page count fails or is 0 is skipped |
| NeighborhoodV1.NeighborhoodSpiderV1.ListCounties | neighborhood_v1.py:46-64 | the counties of one district, until one raises |
| NeighborhoodV1.NeighborhoodSpiderV1.ListDistrict | neighborhood_v1.py:28-64 | a district whose counties cannot be listed is skipped |
| NeighborhoodV1.NeighborhoodSpiderV1.ListDistricts | neighborhood_v1.py:43-64 | the districts in order, until one raises |
| NeighborhoodV1.NeighborhoodSpiderV1.GetNeighborhood | neighborhood_v1.py:85-94 | the compound detailed in place and its record saved, or left as it was when the request raises |
| NeighborhoodV1.NeighborhoodSpiderV1.ProcessAt | neighborhood_v1.py:106-109 | index idx is detailed and saved exactly when it lies in the window |
| NeighborhoodV1.NeighborhoodSpiderV1.WindowEnd | neighborhood_v1.py:106-109 | after the last index the list and file hold the whole window's result |
| NeighborhoodV1.NeighborhoodSpiderV1.Advance | neighborhood_v1.py:106-109 | one index carries the loop's state one index on |
| NeighborhoodV1.NeighborhoodSpiderV1.KeptByUrl | neighborhood_v1.py:99-105 | the "去重" loop keeps every object, in order: `_url_list` is never extended |
| NeighborhoodV1.NeighborhoodSpiderV1.GetAllNeighborhood | neighborhood_v1.py:96-110 | the window detailed and saved to `<city>_<typ>.txt`, then TypeError from `custom_format` called with two of its three arguments |
| NeighborhoodV1.NeighborhoodSpiderV1.StartCrawlerNeighborhoodList | neighborhood_v1.py:41-66 | the first pass; if it raises, its error; otherwise the whole list detailed and the TypeError above |
| NeighborhoodV1.NeighborhoodSpiderV1.LoadLineAt | neighborhood_v1.py:71-82 | one line carries the read's state one line on, or raises |
| NeighborhoodV1.NeighborhoodSpiderV1.GetNeighborhoodListFromFile | neighborhood_v1.py:68-83 | OSError for a missing file; otherwise the first compound of each url appended, in order, or the TypeError of a line |
| NeighborhoodV1.NeighborhoodSpiderV1.StartCrawlerFromFile | neighborhood_v1.py:112-114 | the read, then the window over the whole list; the run always ends in an exception |
| NeighborhoodV1.CrawlerNeighborhood | neighborhood_v1.py:117-122 | a file name reads the file, an empty one runs the first pass; either way the run ends in an exception |

## Left out

- HTTP requests, the `retry` policy, the Chrome browser, XPath, lxml, js2xml, BeautifulSoup and `pd.read_html`: every request and parse is a parameter whose outcome is given. The compound site keeps two answers for the city page and the listing pages: what `requests_get` gives (five tries, a status other than 200 raises; neighborhood.py:33-45), and what the bare `requests.get` of neighborhood_v1.py:21 and :37 gives (one try, any status parsed). They are independent: a page served with status 503, or a transient failure that a retry would cure, makes them differ.
- AirSpyder.FormatYm: writes years below 1000 unpadded, as glibc's `strftime("%Y")` does; other C libraries pad them to four digits. Which one holds depends on the platform, so the months `DateRange` returns for a start such as "099901" (year 999) are stated for the glibc form only; `ParseFormatYm` and `FormatYmOrder` are stated for years 1000 to 9999, where every platform writes four digits.
- Redis (`save_house_redis`, `start_crawler_from_redis`) and `send_email.py`: network I/O. The model has no Redis branch: with `use_redis` set, `get_url_list` would also push every kept house to Redis (home_link_v1.py:62-63), and a failed `ping()` there would end that district through its `except`. `crawler_home_link` only ever builds the spider with `use_redis` False (home_link_v1.py:180 and the default at :188), so its runs are unaffected.
- Common.ParseInt, AirSpyder.ParseYm: accept ASCII digits only. Python's `int()` and the `\d` of `strptime`'s `%Y` also accept other Unicode decimal digits (full-width "２０２０01", say), which the model rejects as ValueError.
- `time.sleep`, logging, `print` and the `click` entry points: no observable effect on the data.
- `json.loads` / `json.dumps`: parameters, related only where a round trip is stated (`parse(dumps(v) + "\n") == Some(v)`).
- pandas I/O: frames are columns plus rows. `to_csv`, `to_excel`, `concat` and `drop_duplicates` are sequence operations; dtypes, the index column and Excel formatting are not modelled.
- Floating point: coordinates, prices and counts stay the strings they are read as.
- `datetime.date.today()`: the current month is a parameter of `AirSpyder.Spider.GetDates`.
- The site branch of `get_dates` (air_spyder.py:78-85) and `get_one`, `get_all_city_names` and the browser loop of air_spyder.py: network. `GetDates` returns a marker for the site branch.
- `land_market.py` `save_csv`, `by_bs4` and the browser driver (lines 186-251): not part of the modelled core; `by_pandas` is the parameter `tables`.
- `get_selector`'s TypeError for a non-string url (home_link.py:65): every url the crawlers build is a string, except in `_start_crawler_house`, where a non-string url is modelled as a failed detail.
- `get_total_page` returns `(totalPage, curPage)`; only `totalPage` is used and modelled.
- The `idx` argument of `get_neighborhood`: it is only logged.
- Python's `unicode_escape` codec is modelled on bytes: octal, `\x`, `\u`, `\U`, `\N{…}` (the name table is a parameter), and unknown escapes that keep their backslash. A lone surrogate cannot be a Dafny `char` and is an error.
- `date_range` is modelled for the `%Y%m` format only, the only one the source passes.
- HomeLink.DetailRecord: states only the `区`, `县` and `房间代号` entries of the record; the other 28 entries are read from the detail page as given.
- HomeLinkV1.HomeLinkSpiderV1.StartCrawlerHouseList: returns the closing `custom_format(..., "csv")` call it makes; what that call does to the files is stated by `ConvertJson.Workspace.CustomFormat` on its own store, which is not joined to the spider's `Disk`.
- HomeLinkV1.HomeLinkSpiderV1.StartCrawler: likewise returns the closing call, made when the city has no districts; its effect on the files is not joined.
- HomeLinkV1.HomeLinkSpiderV1.StartCrawlerByDistrictName: likewise returns the closing call, which it always makes; its effect on the files is not joined.
- HomeLinkV1.HomeLinkSpiderV1.StartCrawlerFromFile: likewise returns the closing call, made when every window line parses; its effect on the files is not joined.
- HomeLinkV1.CrawlerHomeLink: likewise returns the closing call of the `""` and `file` routes; its effect on the files is not joined.
- NeighborhoodV1.NeighborhoodSpiderV1.GetAllNeighborhood: the `custom_format` call is only its TypeError; the call never reaches the converter.
- NeighborhoodV1.WithHref: its own contract bounds the length only; membership is stated by `NeighborhoodV1.WithHrefFrom` and order by `NeighborhoodV1.WithHrefEvery`.
- LandMarket.EscapeChar: its own contract states ASCII only; the two escape forms are stated by `LandMarket.EscapeCharForm`.
