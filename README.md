# Electricity plan harvester, modelled in Dafny

The repository harvests Australian energy retail plans published under the
Consumer Data Right. It has four stages:

1. **Retailer register.** A PDF register of retailers is scanned, page by page
   and line pair by line pair, into `(brand, base URI)` records.
2. **Catalogs.** For every brand, the paginated plans endpoint is fetched.
   The catalog is saved as `brands/<brand segment>/plans.json`, where the
   segment is the brand name with spaces turned into `_` and lower-cased. A
   catalog that is still fresh by file age is skipped.
3. **Plan details.** The detail of each plan is kept in
   `brands/<brand segment>/<planId>.json`. It is stamped with
   `meta.lastDownloaded` and refreshed once that stamp is older than the
   refresh period (seven days; one day in the archived revision).
4. **Search.** The catalogs in a directory can be searched for the plans that
   cover a postcode, reporting their brands or their display names.

The model is fourteen modules, one per core file or shared concern:

- `Wrappers`, `Text`, `Json`, `Timestamp` and `Store` are the Python features
  the scripts rely on, written out as values:
  - the dynamic `.get`, `in`, subscript, truthiness and iteration of JSON values;
  - `str.lower`, `str.replace`, `str.strip`, `startswith` and `endswith`;
  - `strftime`/`strptime` in the `%Y-%m-%dT%H:%M:%S.000Z` layout;
  - the file system, as a map from path to node.
- The file system the scripts change is the class `Store.FileSystem`. Its
  methods `EnsureDir`, `Write` and `Remove` update the map in place.
- An exception is a `Failure.Raised` result and ends the run that raised it.
- Where the outcome would depend on something a value model cannot know, the
  result is `Failure.OutsideModel`. Examples are the iteration order of a
  non-empty dict and `str()` of a non-string plan id.
- The loops of the scripts are methods with loop invariants. Each is proved
  equal to a function, and the properties the scripts promise are lemmas
  about those functions.
- get_plans.py and electricity_plans.py share the paging loop
  (`GetPlans.FetchPages`, parameterised by the step each takes on a
  response). They also share the catalog store (`GetPlans.StoreCatalog`) and
  the loop over providers (`GetPlans.RunProviders`).
- The two detail scripts share the brand search (`BrandLookup`).

I/O is passed in as parameters:

- the HTTP responses (`serve`, `fetched`);
- the text lines of the PDF pages;
- what `os.listdir` returns (`listing`), which the directory-level
  clauses tie to the tree with `Store.ListsDir`: every entry of the
  directory once, in some order;
- the clock (`now`, integer seconds on the proleptic Gregorian calendar from
  0001-01-01, the same clock as file modification times).

## Model

| member | source | states |
|---|---|---|
| Text.LowerAt | utilities.py:18 | lower-casing maps every character to its lower case and keeps the length |
| Text.ReplaceCharAt | utilities.py:18 | `replace(' ', '_')` changes exactly the spaces, character by character |
| Timestamp.ParseFormatDateTime | get_plan_detail.py:105 | `strptime` of a date-time written in the layout reads back its instant |
| Timestamp.ParseFormat | get_plan_detail.py:141 | the stamp `strftime` writes at clock `now` is read back by `strptime` as exactly `now` |
| Store.MakeDirs | utilities.py:20 | `os.makedirs` adds the path and its missing ancestors as directories and keeps every existing node |
| Store.WithDir | utilities.py:19-20 | after the exists-then-makedirs test the path exists; nothing existing changes, and every new node is a directory |
| Store.Written | get_plan_detail.py:143-144 | opening for writing raises exactly on a directory; otherwise the file holds the value, modified now |
| Store.FileSystem.EnsureDir | utilities.py:19-20 | the file system becomes `WithDir` of the old one |
| Store.FileSystem.Write | get_plan_detail.py:143-144 | the file system and the success flag are those of `Written` |
| Store.FileSystem.Remove | get_plans.py:110-111 | `os.remove` succeeds exactly on a file and then removes only that path; on a directory nothing changes |
| RetailerScan.PairsFrom | get_providers.py:46-55 | the brand lines taken lie in the page, each with a following line, and two taken lines are at least two apart |
| RetailerScan.PairsFromTaken | get_providers.py:48-53 | a taken brand line is not a "Change log" line, and the stripped line after it starts with `http` and does not contain `placeholder`, ignoring case |
| RetailerScan.ScanStep | get_providers.py:47-55 | one step of the page loop: a "Change log" line stops the page; a live URI makes a record and skips two lines; otherwise one line is skipped |
| RetailerScan.ScanLines | get_providers.py:45-55 | the while loop over one page's lines emits exactly the records of the taken pairs, in order |
| RetailerScan.ExtractPdfData | get_providers.py:40-58 | the records of all pages, page after page (archive/retailer_uri_register.py runs the same scan) |
| RetailerScan.ScannedRecordsAreLive | get_providers.py:50-52 | every record's URI passes the URI test, and every record is the stripped pair of a taken brand line and the line after it |
| RetailerScan.ChangeLogEndsPage | get_providers.py:48-49 | no record comes from a "Change log" line examined as a brand line, nor from any later line of the page |
| RetailerScan.ScanTakesEveryFreePair | get_providers.py:51-55 | before a "Change log" line, a brand line followed by a live URI is always taken, unless the line before it was already taken as a brand line |
| Utilities.BrandDirectoryShape | utilities.py:17-18 | the directory is `brands/` followed by the name, with a space turned into `_` and an upper-case letter lowered |
| Utilities.SegmentIsClean | utilities.py:18 | a brand segment holds no space and no upper-case letter |
| Utilities.SegmentFixedPoint | utilities.py:18 | a name is its own segment if and only if it has no space and no upper-case letter |
| Utilities.SegmentIdempotent | utilities.py:18 | normalising a segment again leaves it unchanged |
| Utilities.SegmentCollides | utilities.py:18 | two different brand names can share one directory |
| Utilities.DirectoryHasNoSpace | get_plans.py:105 | the second `replace(' ', '_')` in `save_plans_to_file` never changes the directory |
| Utilities.EnsureBrandDirectory | utilities.py:16-21 | returns the brand directory, and the file system gains it, with its ancestors, if it was missing |
| Utilities.OlderThanIsStrict | utilities.py:27 | a file exactly `seconds` old is not older; one second later it is |
| Utilities.OlderThanMonotone | utilities.py:23-27 | once older, a path stays older as the clock advances |
| Utilities.WrittenIsNotOlder | utilities.py:24-27 | a file just written is not older than any non-negative age |
| Utilities.ProviderUrls | utilities.py:13-14 | the map's keys are exactly the brands of the records, and each brand maps to the URI of its last record |
| Utilities.BrandOrder | get_plans.py:133-138 | the brands in `items()` order are exactly the keys of the map, each once |
| Utilities.BrandOrderKeepsPlace | get_plans.py:133 | a brand keeps the place of its first record: the order of a prefix of the records is a prefix of the order of all of them |
| PlanDetail.ReadStamp | get_plan_detail.py:103-105 | only a dict with `meta` can yield a stamped instant |
| PlanDetail.CheckRefreshPlan | get_plan_detail.py:85-114 | a missing file is to be downloaded; an existing one only when its stamp is more than the refresh period old; every error leaves it not due |
| PlanDetail.UnstampedIsKept | get_plan_detail.py:104 | an existing detail without a readable stamp is never refreshed |
| PlanDetail.RefreshIsSevenDays | config.py:9 | under the seven-day `REFRESH_DAYS`, a stamped detail is due exactly when it is more than 604800 seconds old |
| PlanDetail.RefreshMonotone | get_plan_detail.py:110 | once a detail is due, it stays due as the clock advances |
| PlanDetail.CheckPlanExists | get_plan_detail.py:32-55 | the first flag is `isfile`; the second implies the first and holds exactly when the stamp is expired; it raises exactly on a file whose stamp cannot be read |
| PlanDetail.CheckPlanExistsAgrees | get_plan_detail.py:32-55 | the two checks agree on every readable file; a raising `check_plan_exists` means no download; only a missing file tells them apart |
| PlanDetail.ShouldRefreshPlans | get_plan_detail.py:116-128 | the map has exactly the given file names as keys, each mapped to `check_refresh_plan`'s verdict |
| PlanDetail.Stamped | get_plan_detail.py:141-142 | assigning `meta` raises exactly on a non-dict; otherwise every other field is kept and `meta` becomes `{lastDownloaded: stamp}` |
| PlanDetail.ReadStampOfStamped | get_plan_detail.py:141-142 | a stamped document reads back the instant it was stamped with |
| PlanDetail.SavePlanDetails | get_plan_detail.py:130-145 | the file system and outcome of `save_plan_details`: the directory is made, then the stamped detail is written |
| PlanDetail.SavedIsFresh | get_plan_detail.py:139-144 | a detail just saved is due at a later clock exactly when more than the refresh period has passed |
| PlanDetail.DownloadAndSavePlanDetails | get_plan_detail.py:181-190 | saves what the endpoint returned, as `save_plan_details` does |
| PlanDetail.PlanDetailCommand | get_plan_detail.py:147-178 | exit status 1 with nothing changed for a missing brand, plan id or URL; otherwise the brand directory is made, a due detail is saved with status 0 exactly when the save succeeds, and one not due is left alone with status 0; on status 0 the detail on disk is not due |
| BrandLookup.MatchInPlans | archive/electricity_plan_detail.py:100-103 | the brand of the first plan with the id; None only when every plan is a dict without it; raises only at a non-dict reached first |
| BrandLookup.LookupReachesFirstHit | archive/electricity_plan_detail.py:93-105 | the search returns the brand of the first entry that finds one |
| BrandLookup.LookupHitIsFirst | archive/electricity_plan_detail.py:104-105 | a brand the search returns comes from the first entry that finds one |
| BrandLookup.LookupMissPassesAll | archive/electricity_plan_detail.py:107-109 | the search finds no brand only when every entry was searched without error and none had one |
| BrandLookup.LookupErrIsFirst | archive/electricity_plan_detail.py:93-103 | the search raises exactly at the first entry that raises, with no brand found before it |
| BrandLookup.LookupAllMiss | archive/electricity_plan_detail.py:93-109 | when no entry raises or finds a brand, the search ends without one |
| BrandLookup.FindBrandOverDirectory | electricity_plan_detail.py:35-47 | over the listing of the root, the search ends without a brand exactly when the root is a directory and every entry of it is searched without error and without a brand; a brand found is one an entry gave |
| BrandLookup.FindBrandIn | electricity_plan_detail.py:33-47 | the nested loops, with their two `break`s, compute the search over the listing |
| ElectricityPlanDetail.RawSaved | electricity_plan_detail.py:19-23 | saving raises exactly when the detail path is a directory; otherwise the detail is written as fetched, unstamped |
| ElectricityPlanDetail.RawSaveTwice | electricity_plan_detail.py:62-63 | saving twice leaves what one save leaves |
| ElectricityPlanDetail.SavePlanDetails | electricity_plan_detail.py:19-23 | the file system and outcome are those of `RawSaved` |
| ElectricityPlanDetail.BrandWithUrl | electricity_plan_detail.py:49-58 | the command goes on exactly with a non-empty string brand whose URI is non-empty |
| ElectricityPlanDetail.ElectricityDetailCommand | electricity_plan_detail.py:25-63 | exit status 1 with nothing changed when no brand with a URL is found, in particular when no entry of `plans` has the plan id; a brand used is one an entry of `plans` gave; otherwise the result of saving the fetched detail |
| ArchivePlanDetail.ArchiveRefreshIsOneDay | archive/electricity_plan_detail.py:31 | under the one-day period, a stamped detail is due exactly when it is more than 86400 seconds old |
| ArchivePlanDetail.ArchiveDetailCommand | archive/electricity_plan_detail.py:82-126 | `brands/` is made first; exit status 1 when no brand with a URL is found, in particular when no entry of `brands/` has the plan id; a brand used is one an entry of `brands/` gave; otherwise the found brand's directory is made, a detail due under the one-day period is saved with status 0 exactly when the save succeeds, and one not due is left alone with status 0 |
| GetPlans.PlanRequest | get_plans.py:66-72 | every request asks for current plans of all types and fuels, with its page number and page size |
| GetPlans.PlansData | get_plans.py:77 | the two-level `.get` raises exactly when the body or its `data` is not a dict; otherwise it gives `data.plans`, or `[]` when either key is missing |
| GetPlans.Extension | get_plans.py:78-79 | a list extends the plans with its items; a falsy value extends them with nothing |
| GetPlans.PageStepOfCatalogPage | get_plans.py:74-82 | on a well-formed page the step appends its plans, and it is the last page exactly when its number reaches `totalPages` |
| GetPlans.PageWithoutPlansAppendsNothing | get_plans.py:77-80 | a page whose body has no `data.plans` appends no plans |
| GetPlans.PageStepHalts | get_plans.py:83-88 | a failed status, or a dict body without `meta.totalPages`, ends the loop and keeps what was collected |
| GetPlans.FetchCollects | get_plans.py:65-89 | after pages that go on, the result is their plans in page order followed by the rest, and their requests are counted |
| GetPlans.FetchEndsAt | get_plans.py:62-91 | a run ending at page n sends n requests; it returns the plans of the earlier pages, plus page n's when that page is last, or the error |
| GetPlans.SinglePageFetch | get_plans.py:81-82 | a first page saying there is at most one page gives one request and that page's plans |
| GetPlans.FetchPages | get_plans.py:62-91 | the paging loop returns the result of the run and sends requests for pages 1, 2, … in order, as many as the run needs |
| GetPlans.FetchPlans | get_plans.py:51-91 | the paging loop of get_plans.py, with pages of a thousand plans |
| GetPlans.PersistCatalog | get_plans.py:106-112 | a non-empty catalog is written and an empty one removes the file; it raises exactly on a directory; no other path changes |
| GetPlans.StoreCatalog | get_plans.py:106-112 | the file system and outcome of the write-or-remove are those of `PersistCatalog` |
| GetPlans.SavePlansToFile | get_plans.py:93-112 | the brand directory is made, then the catalog is stored at `plans.json` in it |
| GetPlans.SavedCatalogIsFresh | get_plans.py:139-140 | a catalog just saved makes the freshness test skip its provider at the same clock |
| GetPlans.StaleIds | get_plans.py:116-120 | no more ids are launched than given |
| GetPlans.StaleIdsSelects | get_plans.py:116-120 | an id is launched exactly when it is given and its detail file is older than the period |
| GetPlans.StaleIdsAppend | get_plans.py:116-120 | the ids of two lists run one after the other launch the first list's stale ids and then the second's: the order of the ids is kept |
| GetPlans.LaunchStale | get_plans.py:116-122 | the loop of `update_plan_details` launches exactly the stale ids |
| GetPlans.RawPathMissesSavedDetail | get_plans.py:117 | with the raw brand name, a detail saved a moment ago under a renamed brand is launched again; the normalised path launches nothing |
| GetPlans.RawPathDiffers | get_plans.py:117 | the raw path and the saved detail's path differ for every brand that is not its own segment |
| GetPlans.AcmeEnergyIsRenamed | get_plans.py:117 | the brand "Acme Energy" is not its own segment |
| GetPlans.UpdatePlanDetailsAsWritten | get_plans.py:115-122 | `update_plan_details` as written launches the ids stale under the raw `brands/<brand>` path |
| GetPlans.UpdatePlanDetails | get_plans.py:115-122 | the corrected `update_plan_details` launches the stale ids under the brand's normalised directory |
| GetPlans.SavedDetailIsSkipped | get_plans.py:117-118 | with the normalised directory, a plan whose detail was just saved is not launched again |
| GetPlans.PlanIds | get_plans.py:147 | one id per plan, each the plan's `planId` |
| GetPlans.RunProvidersAt | get_plans.py:138-150 | the run from provider k is k's outcome followed by the run from k+1, or k's error with the tree k left |
| GetPlans.RunProvidersSplit | get_plans.py:138-150 | a run is that of its first k providers followed by the rest from the tree they left, or, when one of them raises, ends there with the tree that provider left |
| GetPlans.CountersBound | get_plans.py:145-150 | the saved-provider counter is at most the number of providers and at most the plan counter |
| GetPlans.ProviderStepOutcomes | get_plans.py:139-150 | skipped, with nothing changed, exactly when the catalog is fresh; no plans changes nothing; a saved provider's catalog holds the fetched plans, and the ids launched are exactly those stale under the raw `brands/<brand>` path; a raise in the fetch changes nothing, and a raise after it leaves the tree `save_plans_to_file` left |
| GetPlans.ProviderStepKeepsOthers | get_plans.py:139-150 | one provider changes no path but its own catalog, and removes none |
| GetPlans.ProcessProvider | get_plans.py:139-150 | one iteration of `main`'s loop leaves the tree and gives the outcome or error of the provider step, on a raise too, launching through `update_plan_details` as written |
| GetPlans.VisitProviders | get_plans.py:138-150 | the loop visits the providers in order and leaves the run's tree, on a raise the tree the failing provider left; it ends at the first error and counts exactly the saved providers and their plans |
| GetPlans.RunKeepsOthers | get_plans.py:138-150 | a run, completed or raised, removes no path and changes no node but the catalogs of the providers it visits, so earlier catalogs stay after a raise |
| GetPlans.GetPlansMain | get_plans.py:124-150 | `main` visits the brands in dict order with their last URIs, as the run over providers does with the seven-day `REFRESH_DAYS`, and leaves the run's tree on a raise too |
| ElectricityPlans.LegacyStepNeverHalts | electricity_plans.py:36-42 | the older loop never stops early; a dict body without `meta` raises |
| ElectricityPlans.StepsAgree | electricity_plans.py:36-42 | on a good status, the two revisions' steps agree wherever the older one goes on |
| ElectricityPlans.FetchAgrees | electricity_plans.py:23-45 | when every status is good, an older run that returns plans returns what get_plans.py's run returns, after as many requests |
| ElectricityPlans.FetchPlans | electricity_plans.py:23-45 | the older paging loop, with pages of a hundred plans |
| ElectricityPlans.CatalogPathsAgree | electricity_plans.py:49-52 | the two revisions save a catalog at the same path if and only if the name is its own segment |
| ElectricityPlans.SavePlansToFile | electricity_plans.py:47-59 | `brands/<name as given>` is made, then the catalog is stored in it |
| ElectricityPlans.LegacyProviderStep | electricity_plans.py:71-75 | the older revision never skips or launches; a saved provider's catalog holds the fetched plans; a raise in the fetch changes nothing and one in the save leaves what the save left; no path but the provider's catalog changes |
| ElectricityPlans.ProcessProvider | electricity_plans.py:70-75 | one iteration of the older loop leaves the tree and gives the outcome or error of its provider step, on a raise too |
| ElectricityPlans.VisitProviders | electricity_plans.py:69-75 | the older loop visits the providers in order and leaves the run's tree, on a raise the tree the failing provider left; it counts exactly the saved providers and their plans |
| ElectricityPlans.LegacyRunKeepsOthers | electricity_plans.py:69-75 | a run of the older loop, completed or raised, removes no path and changes no node but the catalogs of the providers it visits |
| ElectricityPlans.LegacyMain | electricity_plans.py:61-75 | `brands` is made, then the providers are visited in dict order; on a raise `brands` and the tree the run left stay |
| PlanSearch.CoversPostcode | electricity_plan_search.py:14 | the postcode test returns only on a dict and otherwise raises |
| PlanSearch.CoversListedPostcodes | electricity_plan_search.py:14 | a plan with a postcode list covers exactly the postcodes listed; a plan without a geography, or whose geography has no postcodes, covers none |
| PlanSearch.FilterSelects | electricity_plan_search.py:13-14 | the filter returns exactly when every test returns, and then keeps exactly the covering plans |
| PlanSearch.FilterIdempotent | electricity_plan_search.py:13-14 | filtering twice by one postcode gives what filtering once gives |
| PlanSearch.FilterKeepsOrder | electricity_plan_search.py:14 | filtering two concatenated lists is the concatenation of their filters: the order is kept |
| PlanSearch.GetProvidersFromPlans | electricity_plan_search.py:16-17 | returns exactly when every plan is a dict with a hashable brand; the brands are exactly those of the plans |
| PlanSearch.GetPlanNamesFromPlans | electricity_plan_search.py:19-20 | one display name per plan, in order; raises on a non-dict |
| PlanSearch.EntryPlans | electricity_plan_search.py:8-10 | an entry not ending in `.json` gives nothing; one that gives plans is a JSON file |
| PlanSearch.SkipsOtherEntries | electricity_plan_search.py:8 | an entry not ending in `.json` does not change the load |
| PlanSearch.EntryErrorEndsLoad | electricity_plan_search.py:7-10 | the first entry that raises ends the load with its error |
| PlanSearch.LoadedPlansComeFromFiles | electricity_plan_search.py:5-11 | every loaded plan is an item of a `.json` file of the directory |
| PlanSearch.PlansOfEntriesMembers | electricity_plan_search.py:7-10 | the load of the entries raises exactly when one entry raises, and otherwise holds exactly their items |
| PlanSearch.LoadedPlansOverDirectory | electricity_plan_search.py:5-11 | over the listing of the directory, the load raises exactly when it is no directory or an entry raises, and otherwise holds exactly the items of its `.json` files |
| PlanSearch.LoadPlansFromDirectory | electricity_plan_search.py:5-11 | the loop over the entries computes the load; over the listing of the directory it holds exactly the items of its `.json` files |
| PlanSearch.Search | electricity_plan_search.py:22-38 | the answer reports providers exactly when `--providers` was given |
| PlanSearch.ProvidersOfFiltered | electricity_plan_search.py:16-17 | the brands of the filtered plans are the brands of the covering plans |
| PlanSearch.SearchReportsCoveringBrands | electricity_plan_search.py:30-35 | a brand is reported if and only if some loaded plan covering the postcode has it |
| PlanSearch.SearchReportsDirectoryBrands | electricity_plan_search.py:30-35 | over the listing of `plans`, a brand is reported exactly when a plan in a `.json` file of `plans` covering the postcode has it, whatever the order of the entries |
| PlanSearch.SearchReportsCoveringNames | electricity_plan_search.py:30-38 | the names reported are the display names of the loaded plans that cover the postcode, one per plan and in order |

## Left out

- HTTP is not modelled. The endpoint's answers are parameters: `serve(url)` gives the responses to the pages of the catalog loop, in order, and `fetched` is the detail document. The `x-v` header and the URL strings are not modelled.
- `GetPlans.FetchFrom` runs out of responses after `|serve(url)|` pages. A run that would need more requests gives `Failure.OutsideModel` instead of going on.
- Downloading the register and the web page scrape in `download_and_extract_pdf_data` are not modelled. The PDF's text extraction is replaced by its text lines per page. `GetPlans.GetPlansMain` and `ElectricityPlans.LegacyMain` take the register's records as a parameter.
- `RetailerScan.ExtractPdfData`: get_providers.py:41 opens `pdf_stream`, which is not defined, where the parameter was meant. The archived copy at archive/retailer_uri_register.py:79 has a misindented line, so that file does not parse. Also, `download_and_extract_pdf_data` returns nothing where get_plans.py:132 and utilities.py:13 use its result. The model scans the pages it is given.
- Loading the register has several call mismatches:
  - `load_provider_urls` is called with a file name at electricity_plans.py:65, electricity_plan_detail.py:54 and archive/electricity_plan_detail.py:112, but it takes no argument.
  - It calls `download_and_extract_pdf_data` without the URL that function requires.

  The model passes the intended brand-to-URI map, `Utilities.ProviderUrls` of the records.
- `BRAND_REFRESH_INTERVAL` is imported at get_plans.py:25 but not defined in config.py. It is the parameter `interval` of `GetPlans.GetPlansMain`.
- The `subprocess.run` of get_plans.py:122 is not modelled as running a process.
  - The model records the launched ids (`Outcome.Saved.launched`).
  - The detail files the child writes during the loop are not fed back into the tree.
  - The child's exit status and `check=True` are not modelled. As the repository stands, get_plan_detail.py does not parse (its module docstring at get_plan_detail.py:1 runs to line 33), and it is given one argument where it expects two. So `check=True` would raise at the first launch.
- `GetPlans.ProcessProvider` and `GetPlans.GetPlansMain` launch details through `update_plan_details` as written, with the raw `brands/<brand>` path of get_plans.py:117. The corrected `GetPlans.UpdatePlanDetails` (see Findings) is not called from `main`.
- `PlanDetail.PlanDetailCommand` models get_plan_detail.py:147-178 as the command the file evidently intends. In the file those lines sit in the body of `save_plan_details`, and the `main` called at line 194 does not exist.
- Several crashes of the scripts as written are not modelled:
  - `setup_logging` uses `args.debug`, which the parser does not define (electricity_plan_detail.py:29).
  - `os` is not imported (electricity_plan_detail.py:35).
  - A logging call names the undefined `plan_id` (archive/electricity_plan_detail.py:42).
  - `should_refresh_plan` is undefined (archive/electricity_plan_detail.py:120). The model uses `check_refresh_plan`'s verdict with the file's own one-day period.
  - `config.DETAIL_THREADS` is used without importing `config` (get_plan_detail.py:126).
- `PlanDetail.ShouldRefreshPlans`: the process pool is not modelled. The checks are independent reads, so the map is computed in sequence.
- `ElectricityPlanDetail.BrandWithUrl`: a brand that is not a string is treated as not found. Python would look it up in the dict, where it cannot be a key or raises as unhashable.
- Logging, argument parsing, `print` and `sys.stderr` are not modelled. Exit statuses are returned as `code`.
- Unicode case mapping is not modelled: `str.lower` lowers only the ASCII letters. `str.strip` uses Python's whitespace set.
- `strptime` accepts more than the fixed-width layout (single-digit fields, for instance). `Timestamp.Parse` reads only the fixed-width form `strftime` writes, and treats anything else as unreadable.
- The clock is whole seconds. Sub-second times and time zones other than UTC are not modelled. One run reads the clock once (`now`).
- Files are modelled as parsed JSON or unparsable text, with an integer modification time. `json.dumps` formatting and byte contents are not modelled.
- The file system is a flat map. A path's parent need not exist.
- Permissions and other I/O errors are not modelled. The exception is opening a directory for writing, which raises.
- The order `os.listdir` gives is the order of `listing`. The search results that depend on it (which of two entries with the plan id gives the brand, the order of the loaded plans) are stated over `listing`. The flat tree has no parent links: an entry of a directory is a name without `/` whose path under it is a key (`Store.InDir`).
- Iterating a non-empty dict (the key order) and `str()` of a plan id that is not a string give `Failure.OutsideModel`.
- `PlanSearch.GetProvidersFromPlans` returns a set. The order of `list(set(...))` is Python's hash order and is not modelled.
- `save_plan_details` assigns `meta` into the caller's dict. That aliasing is not modelled: `PlanDetail.Stamped` returns a new value.
- Numbers in JSON are integers. Floats are not modelled.
- Concurrency is not modelled.
- Three behaviours of the code that a reader may not expect. The model follows the code in each:
  - A failed page, or a page without `meta.totalPages`, ends `fetch_plans` at get_plans.py:83-88, and the plans of the earlier pages are returned (`GetPlans.PageStepHalts`).
  - `check_refresh_plan` compares the stamp only when one is present (get_plan_detail.py:104). An existing detail without a stamp is kept (`PlanDetail.UnstampedIsKept`).
  - The docstring of `save_plans_to_file` (get_plans.py:101-102) says an empty catalog deletes `plans.json`, and the function does so. But both `main`s call it only for a non-empty catalog, so the delete branch (`GetPlans.PersistCatalog`) is never reached from `main`.

## Findings

| source | as written | input that shows it | evidently intended | confidence | as-written member | corrected member |
|---|---|---|---|---|---|---|
| get_plans.py:117 | `update_plan_details` looks for a plan's detail at `brands/{brand}/{plan_id}.json` with the brand name as given | brand "Acme Energy", whose detail is saved by get_plan_detail.py under `brands/acme_energy/`: just after the save, the check looks at `brands/Acme Energy/<id>.json`, finds nothing and launches the plan again | the check looks in the brand's normalised directory, where the detail is saved | not executed | GetPlans.RawPathMissesSavedDetail | GetPlans.SavedDetailIsSkipped |
