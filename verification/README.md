# CosmoCaixa event scraper — verified functional model

This project models the pipeline that collects CosmoCaixa event listings. The pipeline has three parts:

- **The scraper** (`cosmocaixa_scraper.py`) works through a fixed table of four categories: exposiciones, actividades, planetario and conferencias. For each one it fetches the listing page and finds the category's section by a hard-coded element id. It passes the section's HTML to a prompt → LLM → output-parser chain and overwrites the category's JSON file with the `Event` records it gets back. `EventEncoder.default` does the encoding.
- **The crawler** (`crawler.py`) is a companion utility. For each category it finds the same section and collects the links to individual event pages, which are the hrefs starting with `https://cosmocaixa.org/es/p/`. It then removes duplicates.
- **The merge** (`create_merged_json.py`) reads each category's file and stamps every record's `source` field with a tag. It concatenates everything into one list.

The model is written in Dafny as pure functions over immutable datatypes:

| module | file | models |
|---|---|---|
| `Wrappers` | wrappers.dfy | `Option` |
| `Seqs` | seqs.dfy | `Flatten`, `Elements`, `NoDuplicates`, `StartsWith` |
| `Json` | json.dfy | JSON values; a record is a `map<string, Json>` |
| `Html` | html.dfy | a parsed page, summarised as its elements indexed by `id` |
| `Events` | events.dfy | `Event`, its encoder, and a decoder as the encoder's partner |
| `Crawler` | crawler.py → crawler.dfy | `extract_events` and the script loop |
| `Scraper` | cosmocaixa_scraper.py → scraper.dfy | `parse`, `parse_wrapper`, `start_requests` |
| `Merge` | create_merged_json.py → merge.dfy | `merge_json_files`, the pattern table, literal `glob` |
| `Pipeline` | pipeline.dfy | agreement between the three tables; scrape-then-merge |

The program's external calls are not modelled. They become parameters:

- The scraper's HTTP fetch becomes `Capabilities.fetch`, which returns either `TransportError` or `Responded(status, page)`.
- The crawler's ScrapingBee client becomes a `fetch` function that returns `RequestFailed` or `Downloaded(page)`.
- The LLM chain becomes `Capabilities.extract`. It returns `None` when `chain.invoke` raises, whether in the prompt, the LLM call or the output parser.
- `datetime.isoformat` becomes `iso`.
- BeautifulSoup's result is a `Page`: a map from id to the first element with that id. Each element holds its markup and its `<a>` descendants in document order.
- The file system becomes a store: a map from path to the list of records in that file.

Python's `list(set(xs))` has no defined order. `Crawler.Unique` keeps first occurrences. Its contract only says that the result has no duplicates and holds the same elements, and that is true of every order Python could produce.

## Behaviour worth knowing

- **Scraper errors.** `parse` catches no exception. An exception from `requests.get` or from `chain.invoke` leaves `parse` and is stored in a future that `start_requests` never reads. Nobody reports it. The model records these cases as `Outcome.Raised(...)`, and no file is written.
- **Prices.** The encoder applies no default price: an absent price is written as `null` (`Events.EncodeEvent`). The only place a default of 0 is asked for is the field description given to the LLM, which is outside this model.
- **Glob patterns.** The configured patterns are literal paths, so each one matches at most one file (`Merge.Glob`). The general `Merge.MergeJsonFiles` takes each pattern's matched files in the order `glob` listed them. It does not sort them.
- **Unknown categories in the crawler.** An unknown category never assigns `specific_section`. The resulting `UnboundLocalError` is not a `RequestException`, so it escapes `extract_events` (`Crawler.Harvest.SectionUnbound`). The crawler's own table contains only known categories, so its run never raises (`Crawler.CrawlAllTotal`).
- **Crawler status codes.** The crawler parses the response body whatever its status code. Only the scraper checks for 200.
- **Working directories.** The scraper writes `web_scraping_llms/json_events/<category>.json`. The merge reads `json_events/<category>.json`. These are the same files when the merge runs from `web_scraping_llms/`, and the model takes that as `Pipeline.MergeCwd`.

## Model

| member | source | states |
|---|---|---|
| Events.EncodeEvent | cosmocaixa_scraper.py:34-41 | The encoded event has exactly the keys name, starting_date, ending_date, description, price and type. A date is `null` exactly when it is absent, and otherwise it is the date's ISO text. name, description and type are copied unchanged. The price is `null` exactly when it is absent, and otherwise it is copied with no defaulting. |
| Events.Default | cosmocaixa_scraper.py:32-44 | An `Event` becomes exactly the object `Events.EncodeEvent` builds for it, with the six event keys. A datetime becomes its `isoformat` text. Every other value is refused, which models the `TypeError` from `JSONEncoder.default`. |
| Events.EncodeEvents | cosmocaixa_scraper.py:102 | The dumped list holds one encoded object per event, in the same order. |
| Events.EncodeDecodeRoundTrip | cosmocaixa_scraper.py:31-41 | If the ISO parser reads back what `isoformat` writes, then decoding an encoded event gives the same event. Absent dates and prices come back absent. |
| Crawler.PrefixedHrefs | crawler.py:53-56 | Every collected link has the prefix. The set of collected links is exactly the set of hrefs in the section that have the prefix. |
| Crawler.Unique | crawler.py:59 | The de-duplicated list has no duplicates, contains the same elements as its input, and is no longer than its input. |
| Crawler.HarvestSection | crawler.py:47-59 | The result is duplicate-free and every link has the prefix. A missing section gives the empty list. A found section gives exactly its qualifying hrefs, so none is dropped. |
| Crawler.ExtractEvents | crawler.py:12-63 | The result is `None` exactly when the fetch raised `RequestException`. It is an unbound-section error exactly when the fetch succeeded and the category is unknown. Otherwise it is a duplicate-free list of prefixed links, equal as a set to the section's qualifying hrefs (empty when the section is absent). |
| Crawler.AnchorIdFor | crawler.py:38-45 | The `if/elif` chain has a section id for exactly the four categories exposiciones, actividades, planetario and conferencias. |
| Crawler.CrawlSources | crawler.py:77-79 | When no call raises, the `urls` map has exactly one key per category of the table. |
| Crawler.CrawlSourcesTotal | crawler.py:77-79 | For a table of known, distinct categories, the loop never raises. It records every category. A category's value is `None` exactly when its fetch failed, and otherwise it is the list of links `extract_events` harvested for that category. |
| Crawler.CrawlAllTotal | crawler.py:66-79 | The crawler's own run over its four categories never raises. Its map has exactly those four keys. Each value is `None` exactly when that fetch failed, and otherwise it is the category's harvested links. |
| Html.FindById | crawler.py:39 | `soup.find(id=...)` finds an element exactly when the page has that id, and then it is the page's element for the id. |
| Scraper.SourceTableDistinct | cosmocaixa_scraper.py:72-77 | The source table has four entries. Their categories, URLs and section ids are pairwise distinct. |
| Scraper.ArtifactPathInjective | cosmocaixa_scraper.py:101 | Two categories share an output file only if they are the same category. |
| Scraper.Locate | cosmocaixa_scraper.py:95-97 | `select_one('#id')` finds the section exactly when the page has an element with that id, and then it is that element. |
| Scraper.Parse | cosmocaixa_scraper.py:89-108 | A transport exception, a non-200 status (which is recorded) and a missing section each write nothing. With status 200 and the section found, the job is saved exactly when the chain succeeds. The saved events are the chain's output, and they replace the category's file whatever it held before. Every other outcome leaves all files as they were. |
| Scraper.ParseTouchesOnlyItsArtifact | cosmocaixa_scraper.py:101-102 | A job neither creates, changes nor removes any file other than its own category's file. |
| Scraper.FailureSkipsExtraction | cosmocaixa_scraper.py:93-108 | A non-200 status or a missing section gives a result that does not depend on the extraction chain. No file is written in that case. |
| Scraper.ParseWrapper | cosmocaixa_scraper.py:83-86 | The dict key is passed as the category, and the pair's first and second parts as URL and section id. The job touches only that category's file. |
| Scraper.OutcomeIgnoresStore | cosmocaixa_scraper.py:89-108 | A job's outcome does not depend on the files that are already there. |
| Scraper.JobsCommute | cosmocaixa_scraper.py:79-80 | Jobs for two different categories end with the same files in either order, so running them concurrently is safe. |
| Scraper.RunJobs | cosmocaixa_scraper.py:79-80 | Running the jobs of a table gives one outcome per entry, and no file disappears. |
| Scraper.StartRequests | cosmocaixa_scraper.py:71-80 | `start_requests` gives one outcome per entry of its four-entry table, and no file disappears. |
| Scraper.RunJobsCreates | cosmocaixa_scraper.py:101 | Every file the jobs create is the output file of one of their categories. |
| Scraper.StartRequestsArtifact | cosmocaixa_scraper.py:71-102 | After `start_requests`, each category's file holds the events its job saved, encoded. If the job saved nothing, the file is as it was before, or still absent. |
| Scraper.RunJobsOutcomes | cosmocaixa_scraper.py:79-80 | Running all jobs gives one outcome per entry. Each outcome equals what that job would give alone, so one job's failure neither stops nor changes another. |
| Scraper.RunJobsArtifact | cosmocaixa_scraper.py:98-102 | After all jobs, each category's file holds its job's saved events, encoded. If the job failed, the file is as it was before, or still absent. |
| Scraper.RunJobsOther | cosmocaixa_scraper.py:79-80 | A file that is no job's output file is unchanged after all jobs run. |
| Merge.Stamp | create_merged_json.py:12 | After stamping, `source` holds the tag, whether or not it was present before. The keys are the old keys plus `source`, and every other field is unchanged. |
| Merge.StampOverwrites | create_merged_json.py:12 | When a record is stamped twice, the earlier tag is overwritten and only the last one remains. |
| Merge.StampFile | create_merged_json.py:11-12 | A stamped file has the same length as before, and each record is stamped in place. |
| Merge.MergePatternIsFlatten | create_merged_json.py:8-13 | The loop over one pattern's files (`Merge.MergePattern`) equals the independent definition: each file stamped with the tag, laid end to end in `glob` order. |
| Merge.MergePatternTagged | create_merged_json.py:8-13 | Every record one pattern contributes (`Merge.MergePattern`) has `source` equal to that pattern's tag. |
| Merge.MergeTagged | create_merged_json.py:4-15 | Every record `merge_json_files` returns (`Merge.MergeJsonFiles`) has a `source` field, and its value is the tag of one of the patterns. |
| Merge.MergeIsFlatten | create_merged_json.py:4-15 | The loop's output equals the independent definition: the stamped files of each pattern, laid end to end in order. |
| Merge.MergeLength | create_merged_json.py:4-15 | The output length is the total number of records in all matched files, which is zero for an empty table. |
| Merge.MergePatternBlock | create_merged_json.py:7-13 | A pattern's records form one contiguous block that comes after the records of all earlier patterns. |
| Merge.MergePatternProvenance | create_merged_json.py:8-13 | Within a pattern, record `m` of file `j` comes after the records of the earlier files, and it is stamped with the pattern's tag. |
| Merge.MergeProvenance | create_merged_json.py:7-13 | Record `m` of file `j` of pattern `i` appears at the lexicographic offset (pattern, file, record), stamped with pattern `i`'s tag. Order is kept across patterns, files and records. |
| Merge.MergeBlockTagged | create_merged_json.py:11-12 | Every record in pattern `i`'s block has `source` equal to pattern `i`'s tag. |
| Merge.EmptyPatternContributesNothing | create_merged_json.py:8 | A pattern that matches no file adds nothing and causes no error. |
| Merge.Glob | create_merged_json.py:8 | A literal pattern matches one file when that file exists and none otherwise. |
| Merge.ResolvedBlock | create_merged_json.py:7-13 | For a table resolved against a directory (`Merge.Resolve`), entry `i` contributes one block to the merge. The block is the file at that path, stamped with the entry's tag, or nothing when the file does not exist. |
| Merge.MergeFilesTagged | create_merged_json.py:18-26 | Every record of the script's output (`Merge.MergeFiles`) is tagged with one of the four configured tags. |
| Merge.MergeWithOnlyActividades | create_merged_json.py:18-26 | When only the actividades file exists, the merged output is its records in order, each tagged `actividad`. |
| Merge.ConfiguredTags | create_merged_json.py:18-23 | The table tags actividades, conferencias, exposiciones and planetario as `actividad`, `conferencia`, `exhibicion` and `planetario`, in that order. The four tags are distinct. |
| Pipeline.CrawlerAgreesWithScraper | crawler.py:38-45 | The crawler lists the scraper's categories with the same URLs and in the same order. For each of them, its `if/elif` chain picks the scraper's section id. |
| Pipeline.AnchorKnownIffListed | crawler.py:38-45 | The crawler's chain has a section id for a category exactly when the scraper's table lists that category. |
| Pipeline.PatternPaths | create_merged_json.py:19-22 | Each merge pattern, read from the merge directory, names a specific scraper output file. |
| Pipeline.MergeReadsScraperArtifacts | create_merged_json.py:18-23 | The merge reads every file the scraper writes and no other file. |
| Pipeline.MergedRecordDecodes | create_merged_json.py:12 | A merged record still decodes to the event the scraper saved. |
| Pipeline.ScrapeThenMerge | create_merged_json.py:7-13 | After scraping, a pattern's block holds its category job's saved events, encoded, tagged and in order. If the job failed, the block holds the previous file's records, or nothing when there was no file. |

## Left out

- HTTP fetching through the scraping service, `requests` and ScrapingBee is network I/O. It is the `fetch` parameter.
- BeautifulSoup parsing and id lookup use a foreign library. A page is the map from id to element. CSS-selector escaping is not modelled, because the four ids are plain identifiers.
- The prompt template, the LLM, the Pydantic output parser and schema validation are external services and reflection. They are the `extract` parameter. So is the price defaulting that the field description asks the LLM to do.
- `ThreadPoolExecutor` concurrency is modelled as sequential runs in table order. `Scraper.JobsCommute` shows that two jobs for different categories can be swapped. For the whole run over distinct categories, `Scraper.RunJobsOutcomes` gives each job the outcome it has alone. `Scraper.RunJobsArtifact` and `Scraper.RunJobsOther` then fix every file's final contents from those outcomes alone, so every order ends with the same files.
- File I/O, `glob` wildcard matching, `json.load`/`json.dump` text formatting, YAML and `.env` loading, and `urls.json` are left out. A write that fails part-way, leaving a truncated file, is not modelled either.
- `datetime.isoformat` formatting is the `iso` parameter. A `Timestamp` keeps the UTC offset of an aware datetime, so `iso` can write it. It does not keep the `tzinfo` object beyond that offset, such as a zone name, because `isoformat` never writes one. Float prices are exact reals, so rounding, NaN and infinity are not modelled.
- `EventScrapper.Events` is declared with a `Field` whose only argument is a descriptive text, passed positionally. That text becomes the field's default value, not its description. A parser result without `Events` therefore makes `parse` dump that string, so the category's file holds a JSON string instead of a list. The merge then raises `TypeError` at `item['source'] = source`. The model's `extract` returns a list of events or fails, so this run is not modelled. `Pipeline.ScrapeThenMerge` therefore covers only runs where every saved artifact is a list of events.
- Malformed artifacts are not modelled: a file is always a list of objects. In the source, the outcome depends on the content:
  - Text that is not JSON, such as a truncated file, raises `json.JSONDecodeError` at `json.load`.
  - A list with an item that is not an object, a non-empty object or a non-empty string raises `TypeError` at `item['source'] = source`. A number, `true`, `false` or `null` raises `TypeError` one line earlier, at `for item in data`.
  - An empty object `{}` or an empty string `""` raises nothing and adds no records.
- Print output and logging are left out.
- Crawler.Unique: the model fixes first-occurrence order where Python's `list(set(...))` leaves the order unspecified. The contract states only order-independent facts.
