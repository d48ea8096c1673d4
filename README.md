# SEC earnings extraction and tool-calling agent, modelled in Dafny

This project models the algorithmic core of a set of financial-research scripts:

- **Bank earnings downloader, version 2** (`sec_downloader_2.py`).
  - `extract_financial_metrics` turns an XBRL company-facts document into one row per reporting period:
    - it collects every period end that lies in a date window;
    - it picks a value for each of 52 target metrics from an ordered list of US-GAAP tags;
    - it keeps a period only when one of four core metrics has a value.
  - The `get_company_filings` filter selects the 10-K and 10-Q filings in the window.
  - The tier loop of `save_to_excel` ranks the 52 metrics into nine tiers and counts them.
- **Bank earnings downloader, version 1** (`sec_downloader_1.py`).
  - It has the same structure with 13 mapped metrics.
  - Its keep test, `any(period_data[m] is not None for m in target_metrics)`, walks the 16 target metric names in order and stops at the first one with a value. The first 13 names are the mapped metrics, so it answers true as soon as one of them has a value. Only when all 13 are null does it reach the 14th name, `BookValuePerShare`, which is never mapped, and that lookup raises `KeyError`. The exception ends extraction and returns the rows built so far.
- **The wide-table script** (`secedgardownloader.py`).
  - It flattens the facts of twenty bank tickers into records, keeping USD 10-K and 10-Q entries dated at or after a cutoff.
  - It pivots them into one row per (company, date) with one column per metric, taking the first non-null value, and sorts the rows.
- **The Ollama agent** (`basic_ollama_agent_with_post.py`).
  - It builds tool schemas from function signatures.
  - It dispatches the tool calls the model asks for. With duplicate tool names the first registered tool runs (`Agent.DuplicateNameFirstWins`).
  - It assembles the result of one `invoke`, turning every escaping exception into an error record.

Where the source runs loops and mutates state, the model has a method with loop invariants. Each method is proved against a specification function, and the properties the source promises are proved about those functions as lemmas.

- **Python values.**
  - Python dictionaries are ordered lists of pairs with distinct keys (`Common.DistinctKeys`), and lookup finds the pair holding the key (`Common.Get`, `Common.GetDistinct`).
  - Python string comparison is lexicographic by code point (`Ordering.StrLt`).
  - `sorted(set)` is an insertion sort proved to yield the set's elements in strictly ascending order (`Ordering.SortSet`).
- **Exceptions.** An exception that a `try` catches is a `Result` or `Option` error value.
- **Outside inputs.** The HTTP round trip, JSON decoding, `datetime.fromisoformat`, the fact fetch and the pydantic output class are function parameters.

Files:

- `common.dfy`: `Option`, `Result` and dictionary lookup.
- `ordering.dfy`: string order and sorting.
- `xbrl.dfy`: the company-facts data model, the period scan, value selection and rows. Both downloaders share it.
- `sec_downloader_2.dfy`, `sec_downloader_1.dfy`: the two extractors and the tier loop.
- `filings.dfy`: the filings filter, whose code is identical in both downloaders.
- `edgar_wide.dfy`: flatten, pivot and sort.
- `agent.dfy`: the agent.

## Model

| member | source | states |
|---|---|---|
| Ordering.SortStrings | sec_downloader_2.py:303 | `sorted(all_periods)`: the result is strictly ascending and holds exactly the elements of the set |
| Ordering.StrLt | sec_downloader_2.py:299 | Python's `str` order: lexicographic by code point, a proper prefix before its extensions; `Ordering.StrLtIsStrictTotalOrder` proves it a strict total order |
| Ordering.SortSet | sec_downloader_2.py:303 | sorting a set by a strict total order yields a strictly ascending list holding exactly the set's elements, one each |
| Common.Get | sec_downloader_2.py:331 | `d.get(key)` is nothing exactly when no pair has the key, and otherwise a value paired with the key (the first one, by `Common.GetAt`) |
| Common.GetDistinct | sec_downloader_2.py:331 | on a list with distinct keys, as every dict has, lookup gives the value paired with the key wherever it stands |
| Xbrl.ScanUnits | sec_downloader_2.py:297-300 | scanning one tag's units raises exactly when some entry has an `end` that is present but not a string; otherwise it yields the ends of the entries within `[start, end]` |
| Xbrl.ScanTags | sec_downloader_2.py:295-300 | the same for all units of all present tags of one metric; absent tags contribute nothing |
| Xbrl.CollectPeriods | sec_downloader_2.py:293-300 | the `all_periods` loop raises exactly when the facts hold an uncomparable `end`; otherwise it yields the window ends over all mapped tags |
| Xbrl.PeriodSet | sec_downloader_2.py:299-300 | every collected period lies between the start and end dates |
| Xbrl.Qualifies | sec_downloader_2.py:316-318 | an entry qualifies for a period when its `end` is the period, it has a `val` key and its form is 10-Q or 10-K |
| Xbrl.FirstQualifying | sec_downloader_2.py:315-321 | finds nothing exactly when no entry matches the period, has a value and comes from a 10-K or 10-Q |
| Xbrl.FirstQualifyingAt | sec_downloader_2.py:315-321 | the first qualifying entry of a unit determines the value: a later entry of the same unit is never consulted |
| Xbrl.FirstQualifyingSource | sec_downloader_2.py:315-321 | a found value comes from a qualifying entry with no qualifying entry before it |
| Xbrl.UnitsValue | sec_downloader_2.py:314-323 | a tag's value: the first unit whose first qualifying entry holds a non-null value supplies it, else null; its properties are `Xbrl.UnitsValueNull`, `Xbrl.UnitsValueAt` and `Xbrl.UnitsValueSource` |
| Xbrl.TagValue | sec_downloader_2.py:313-314 | a tag absent from `us-gaap` has no units and yields null; a present tag yields the value of its units |
| Xbrl.UnitsValueNull | sec_downloader_2.py:314-323 | a tag yields no value exactly when each of its units has no qualifying entry or a first qualifying entry whose value is null |
| Xbrl.UnitsValueAt | sec_downloader_2.py:314-323 | the first unit whose first qualifying entry has a value supplies the tag's value |
| Xbrl.UnitsValueSource | sec_downloader_2.py:314-323 | a tag's non-null value is the first qualifying value of some unit, and every earlier unit gives no value |
| Xbrl.Pick | sec_downloader_2.py:310-327 | a metric's value: the first tag in mapping order whose value is non-null, or null when none is; its properties are `Xbrl.PickNull`, `Xbrl.PickAt` and `Xbrl.PickSound` |
| Xbrl.PickNull | sec_downloader_2.py:311-325 | a metric is null exactly when none of its tags yields a value |
| Xbrl.PickAt | sec_downloader_2.py:311-325 | the first tag that yields a value decides the metric: the tag order in the mapping is a priority order |
| Xbrl.PickSound | sec_downloader_2.py:311-325 | a non-null metric value is the value of a qualifying entry (right period, has `val`, 10-K or 10-Q form) of one of its tags |
| Xbrl.CompanyName | sec_downloader_2.py:306 | the company name is `entityName`, or `Unknown` when it is absent |
| Xbrl.RowFor | sec_downloader_2.py:304-327 | a row carries the period, the company name and one metric per mapping key, in mapping order |
| Xbrl.MetricsFor | sec_downloader_2.py:310-327 | metric `i` of a row is the `i`-th mapping key paired with the value picked from its tags |
| Xbrl.GetMetricsFor | sec_downloader_2.py:327-331 | looking a metric name up in a row gives the picked value of that metric's tags, or nothing for an unmapped name |
| Xbrl.KeepStep | sec_downloader_2.py:303-332 | appending the row of the next sorted period whose keep test is true keeps the rows specified, in date order, and exactly those of the kept periods so far |
| Xbrl.SkipStep | sec_downloader_2.py:329-332 | a period whose keep test is false leaves the rows unchanged and still exactly those of the kept periods so far |
| Xbrl.RowsDeterminedByDates | sec_downloader_2.py:303-332 | two chronological row lists built from the same facts with the same set of dates are equal |
| SecDownloader2.SelectValue | sec_downloader_2.py:310-325 | the three nested loops with their breaks compute the picked value; the "prefer 10-Q" test never overrides, because `value` is always `None` when it runs |
| SecDownloader2.AnnualBeforeQuarterlyWins | sec_downloader_2.py:317-321 | despite the comment, an annual (10-K) entry listed before a quarterly one for the same period is the one taken |
| SecDownloader2.MetricValue | sec_downloader_2.py:331 | `period_data.get(metric)` is the metric's value, or null for a name the row lacks |
| SecDownloader2.KeepsRow | sec_downloader_2.py:330-331 | a row is kept when `NetIncome`, `TotalRevenue`, `TotalAssets` or `ShareholdersEquity` has a non-null value in it; `SecDownloader2.KeepsRowIff` ties this to the picked values |
| SecDownloader2.KeepsRowIff | sec_downloader_2.py:329-332 | a period is kept exactly when one of the four core metrics has a non-null picked value |
| SecDownloader2.BuildRow | sec_downloader_2.py:304-327 | the row built for a period is the specified row |
| SecDownloader2.ExtractRows | sec_downloader_2.py:293-337 | on an uncomparable `end` no row is returned; otherwise the rows are in date order, each is the specified row of its period, and a period has a row exactly when it is in the window and keeps a core metric |
| SecDownloader2.ExtractFinancialMetrics | sec_downloader_2.py:200-337 | the same for the 52-metric mapping |
| SecDownloader2.TierNumber | sec_downloader_2.py:502-511 | every position gets a tier between 1 and 9 |
| SecDownloader2.TierName | sec_downloader_2.py:503-511 | tier names are `TIER ` followed by the tier digit |
| SecDownloader2.TierBlocks | sec_downloader_2.py:502-511 | each tier is a contiguous block of positions, from cutoff to cutoff, in order |
| SecDownloader2.CountTier | sec_downloader_2.py:513 | a tier counter never exceeds the number of metrics seen |
| SecDownloader2.CountTierBlock | sec_downloader_2.py:498-513 | a tier's counter is 0 before its block, grows by one per position inside it, and stays at the block size after it |
| SecDownloader2.ProvisionForLoanLossesTier | sec_downloader_2.py:78-80 | the cutoff at 15 puts ProvisionForLoanLosses (position 14), listed under the credit-quality heading, in TIER 2 |
| SecDownloader2.TierSizesHead | sec_downloader_2.py:498-513 | for the 52 metrics, tiers 1 to 3 count 7, 8 and 6 |
| SecDownloader2.TierSizesMiddle | sec_downloader_2.py:498-513 | tiers 4 to 6 count 7, 5 and 5 |
| SecDownloader2.TierSizesTail | sec_downloader_2.py:498-513 | tiers 7 to 9 count 5, 5 and 4 |
| SecDownloader2.TierOf | sec_downloader_2.py:502-511 | the `if`/`elif` chain computes the tier of a position |
| SecDownloader2.CounterStep | sec_downloader_2.py:513 | incrementing the current tier's counter turns the counts of the first `i` positions into those of the first `i + 1` |
| SecDownloader2.MetricsDictionary | sec_downloader_2.py:497-522 | one sheet row per metric, with name, rank `i + 1`, tier, tier description and column `i + 3`, plus the nine tier counters |
| SecDownloader1.SelectValue | sec_downloader_1.py:200-214 | the v1 loops (unconditional assignment and break) compute the same picked value as v2 |
| SecDownloader1.BuildRow | sec_downloader_1.py:194-216 | the row built for a period is the specified row |
| SecDownloader1.AnyPresent | sec_downloader_1.py:219 | `any(period_data[m] is not None ...)`: true means some named metric has a value; false means every name is present and null |
| SecDownloader1.AnyPresentPrefix | sec_downloader_1.py:219 | over a row whose keys are a prefix of the names, the test is true at the first non-null key and raises `KeyError` on the first unmapped name once every key is null |
| SecDownloader1.AnyPresentRow | sec_downloader_1.py:219 | the same, stated for a row built from a mapping |
| SecDownloader1.MappedPrefix | sec_downloader_1.py:58-75 | the 13 mapping keys are the first 13 of the 16 target metrics, and the 14th is `BookValuePerShare` |
| SecDownloader1.TargetPrefixDistinct | sec_downloader_1.py:58-75 | the first 14 target metric names are distinct |
| SecDownloader1.KeepTest | sec_downloader_1.py:219 | the keep test never answers false: it is true when a mapped metric has a value and raises `KeyError('BookValuePerShare')` when all are null |
| SecDownloader1.Verdict | sec_downloader_1.py:219 | the keep test's outcome on the row of a period: true, false, or the `KeyError` of the first missing name reached |
| SecDownloader1.TruncatedAt | sec_downloader_1.py:193-223 | once a period's keep test raises, no later period is emitted |
| SecDownloader1.Emitted | sec_downloader_1.py:193-223 | a period is output when it is collected, its keep test is true, and the keep test of no earlier collected period raised, since the exception at lines 222-223 ends the loop |
| SecDownloader1.ExtractRows | sec_downloader_1.py:183-225 | on an uncomparable `end` no row is returned; otherwise rows are in date order and specified, and a period is emitted exactly when its keep test is true and no earlier period's test raised |
| SecDownloader1.ExtractFinancialMetrics | sec_downloader_1.py:146-225 | the same for the 13-metric mapping |
| SecDownloader1.EmittedIff | sec_downloader_1.py:193-225 | a period has a row exactly when it is in the window, some mapped metric has a value, and every earlier period in the window has one too |
| Filings.At | sec_downloader_2.py:180-186 | a column read succeeds exactly when the column exists and the index is within it |
| Filings.AtOrBlank | sec_downloader_2.py:187-188 | a missing optional column reads as `['']`, which only index 0 can read |
| Filings.Wanted | sec_downloader_2.py:182 | a row passes the filter when its form is 10-K or 10-Q and `start_date <= filingDate <= end_date` by string order |
| Filings.FaultAt | sec_downloader_2.py:179-188 | a row raises when its filing date cannot be read, or when it passes and its accession number, or a present report-date or primary-document column, cannot be read at its index |
| Filings.Selected | sec_downloader_2.py:177-189 | the filings built from the passing rows among the first `k`, in row order |
| Filings.FilterRecent | sec_downloader_2.py:177-189 | the filter raises exactly when a row it reads is short or missing; otherwise it yields the wanted filings in table order |
| Filings.GetCompanyFilings | sec_downloader_2.py:167-198 | a request or JSON decode that raises, or a non-200 status, gives `None`; otherwise the result is the filter's |
| Filings.SelectedSound | sec_downloader_2.py:181 | every selected filing is a 10-K or 10-Q whose filing date lies in the window |
| Filings.SelectedComplete | sec_downloader_2.py:181-188 | every wanted row is selected |
| Filings.SelectedCount | sec_downloader_2.py:177-189 | exactly one filing is selected per wanted row |
| EdgarWide.Then | secedgardownloader.py:18-46 | appending records fails exactly when either part failed, and otherwise concatenates |
| EdgarWide.EntryRecords | secedgardownloader.py:32-46 | an entry of another form gives nothing; a 10-K or 10-Q entry whose `end` is missing, not a string or not a date crashes the script; otherwise it gives its record when its date is not before the cutoff |
| EdgarWide.TickersRecords | secedgardownloader.py:18-46 | the records of a ticker list: each ticker's records in ticker order, nothing for a ticker without a response, and a crash when a fetch raises or any entry crashes |
| EdgarWide.FlattenEntries | secedgardownloader.py:32-46 | the entry loop yields the specified records, or fails when a report entry has no parseable `end` |
| EdgarWide.FlattenUnits | secedgardownloader.py:28-46 | the unit loop yields the specified records; only USD units contribute |
| EdgarWide.FlattenTags | secedgardownloader.py:27-46 | the tag loop yields the specified records |
| EdgarWide.Flatten | secedgardownloader.py:18-46 | the ticker loop yields the specified records; a raising fetch stops it |
| EdgarWide.FetchRaisedStops | secedgardownloader.py:19-21 | a `get_company_facts` call that raises, for any ticker of the list, makes the whole flatten crash |
| EdgarWide.EntriesStopped | secedgardownloader.py:37 | once a parse fails, later entries do not matter: the script has crashed |
| EdgarWide.UnitsStopped | secedgardownloader.py:28-37 | the same across units |
| EdgarWide.TagsStopped | secedgardownloader.py:27-37 | the same across tags |
| EdgarWide.TickersStopped | secedgardownloader.py:19-37 | the same across tickers |
| EdgarWide.EntryRecordSound | secedgardownloader.py:33-46 | a record comes from a 10-K or 10-Q entry with a parseable end at or after the cutoff, and holds that ticker, tag and value |
| EdgarWide.EntriesSound | secedgardownloader.py:32-46 | every record of an entry list comes from one of its entries |
| EdgarWide.UnitsSound | secedgardownloader.py:28-46 | every record of a tag comes from an entry of its USD unit |
| EdgarWide.TagsSound | secedgardownloader.py:27-46 | every record of a ticker comes from a USD report entry of one of its tags, and carries the ticker |
| EdgarWide.TickersSound | secedgardownloader.py:18-46 | every record belongs to one of the tickers that fetched successfully and is dated at or after the cutoff |
| EdgarWide.EntryRecordKept | secedgardownloader.py:33-46 | a 10-K or 10-Q entry whose `end` parses to a date at or after the cutoff, the cutoff itself included, gives exactly its record |
| EdgarWide.EntriesComplete | secedgardownloader.py:32-46 | when the entry loop completes, the record of every entry is among its records |
| EdgarWide.UnitsComplete | secedgardownloader.py:28-46 | the record of every entry of a USD unit is among the tag's records |
| EdgarWide.TagsComplete | secedgardownloader.py:27-46 | the record of every USD report entry of every tag is among the ticker's records |
| EdgarWide.TickersComplete | secedgardownloader.py:18-46 | the record of every USD report entry of every fetched ticker is among the records |
| EdgarWide.FlattenKeeps | secedgardownloader.py:18-46 | when the flatten completes, every USD 10-K or 10-Q entry of a fetched ticker dated at or after the cutoff yields the record of that ticker, date, tag and `val` |
| EdgarWide.ThenAssociative | secedgardownloader.py:18-46 | appending record batches is associative |
| EdgarWide.TickersAppend | secedgardownloader.py:19 | the records of a ticker list are those of its parts, appended |
| EdgarWide.SkipMissingTicker | secedgardownloader.py:22-24 | a ticker whose fetch gives `None` contributes nothing |
| EdgarWide.KeyLtIsStrictTotalOrder | secedgardownloader.py:65 | ordering by company, then date, is a strict total order |
| EdgarWide.RowKeys | secedgardownloader.py:56 | a row's key is its company and date |
| EdgarWide.FirstValue | secedgardownloader.py:55-59 | a cell is null exactly when every record of its key and metric has a null value |
| EdgarWide.FirstValueAt | secedgardownloader.py:59 | a non-null cell is the value of the earliest non-null record of its key and metric |
| EdgarWide.PivotOf | secedgardownloader.py:51-65 | the wide table of a record list: its columns are the metrics with a non-null value, sorted; its rows are the keys with a non-null value, one each, sorted by company then date; each cell is the first non-null value of its key and metric |
| EdgarWide.Pivot | secedgardownloader.py:51-65 | on no records the pivot raises; otherwise metric columns are exactly the metrics with a non-null value, sorted; rows are exactly the keys with a non-null value, one per key, sorted by company then date; each cell is the first non-null value |
| EdgarWide.PivotUnique | secedgardownloader.py:53-65 | the wide table is determined by the records |
| EdgarWide.PivotRowsNotEmpty | secedgardownloader.py:53-62 | every row of the wide table holds at least one value |
| EdgarWide.Run | secedgardownloader.py:8-65 | the script yields no table when the fetch of any of the twenty tickers raises, when flattening crashes, or when it yields no record; otherwise it yields the pivot of the flattened records of the twenty tickers |
| Agent.Field | basic_ollama_agent_with_post.py:152 | subscripting succeeds exactly on a dict holding the key; a missing key raises `KeyError` with the quoted key |
| Agent.Elements | basic_ollama_agent_with_post.py:159 | iteration yields a list's items, and no element for an empty value; it raises on null, booleans and numbers |
| Agent.TypeName | basic_ollama_agent_with_post.py:70-81 | only `int`, `float`, `bool` and `list` map to `integer`, `number`, `boolean` and `array`; every other annotation, and none, maps to `string` |
| Agent.FirstLine | basic_ollama_agent_with_post.py:59 | the description is the prefix of the docstring before its first line break |
| Agent.FirstLineOf | basic_ollama_agent_with_post.py:59 | the first line of `head + "\n" + rest`, where `head` has no line break, is `head` |
| Agent.Properties | basic_ollama_agent_with_post.py:83-86 | one property per parameter, in signature order, typed by its annotation and described as `Parameter <name>` |
| Agent.RequiredNamesIff | basic_ollama_agent_with_post.py:88-90 | a name is required exactly when a parameter of that name has no default |
| Agent.BuildSchema | basic_ollama_agent_with_post.py:47-92 | the loop over one signature builds the specified schema |
| Agent.GenerateToolSchemas | basic_ollama_agent_with_post.py:38-94 | one schema per tool, in registration order |
| Agent.Dispatch | basic_ollama_agent_with_post.py:107-114 | the result of `_execute_tool`: the first tool of the requested name is called and its exception becomes a string; an unknown name gives the `not found` string; `Agent.DispatchFirstMatch` and `Agent.DispatchNotFound` state both cases |
| Agent.DispatchFirstMatch | basic_ollama_agent_with_post.py:107-112 | the first tool of the requested name runs; its exception becomes `Error executing <name>: <message>` |
| Agent.DispatchNotFound | basic_ollama_agent_with_post.py:114 | a name no tool carries gives `Tool <name> not found` and raises nothing |
| Agent.CallsOf | basic_ollama_agent_with_post.py:158-159 | a message without `tool_calls` has no calls; otherwise the calls are what iterating its value yields, which raises on a null, boolean or number |
| Agent.CallRecord | basic_ollama_agent_with_post.py:160-170 | one call reads `function`, then its `name` and `arguments`, raising on the first missing one, and records the dispatch of that name on those arguments |
| Agent.CollectStopped | basic_ollama_agent_with_post.py:158-170 | once a tool call is malformed, later calls change nothing |
| Agent.CollectAt | basic_ollama_agent_with_post.py:158-170 | the call loop completes exactly when no step raises, and then gives one result per call, in order |
| Agent.CallRecordsAt | basic_ollama_agent_with_post.py:158-170 | tool records are one per tool call, in response order, each that call's dispatch; they fail exactly when a call is malformed |
| Agent.CallRecordFields | basic_ollama_agent_with_post.py:159-170 | a record holds the requested name, the given arguments, and the dispatch of that name on those arguments |
| Agent.BuildRequest | basic_ollama_agent_with_post.py:128-140 | one user message with the prompt and `stream` false; `tools` only with a non-empty schema list, `format` only with an output schema |
| Agent.Structured | basic_ollama_agent_with_post.py:172-178 | the structured output: null without a schema or with an empty message; a decode or validation failure becomes a `Failed to parse structured output` string; a non-string message or a non-object decoded value raises |
| Agent.Assemble | basic_ollama_agent_with_post.py:143-188 | the result of `invoke` for a round trip: any exception on the way (transport, missing key, malformed tool call, `TypeError` in the structured output) gives the error result; otherwise content, tool records and structured output |
| Agent.FailureShape | basic_ollama_agent_with_post.py:182-188 | an error result has no message, no tool calls and no structured output |
| Agent.SuccessShape | basic_ollama_agent_with_post.py:151-178 | a successful result holds the message content and one record per tool call, in order; structured output stays `None` without an output schema or with an empty message |
| Agent.TransportFailure | basic_ollama_agent_with_post.py:143-149 | a failed round trip gives an error result with no tool calls |
| Agent.StructuredOutputReported | basic_ollama_agent_with_post.py:172-178 | with a schema and a non-empty message, whatever the tool calls: a constructed object is the structured output; a decode failure or a validation failure is reported as `Failed to parse structured output: <reason>` inside a successful result carrying the content and tool records; a decoded non-object fails the invocation |
| Agent.OllamaAgent.constructor | basic_ollama_agent_with_post.py:31-36 | the configuration is stored; without proxies, both schemes map to the empty proxy; the schemas are one per tool |
| Agent.OllamaAgent.ExecuteTool | basic_ollama_agent_with_post.py:96-114 | the search loop with early return computes the dispatch result |
| Agent.OllamaAgent.Invoke | basic_ollama_agent_with_post.py:116-188 | `invoke` returns the assembled result of the round trip on the built request |
| Agent.IntOf | basic_ollama_agent_with_post.py:198 | `int(x)` succeeds exactly on an integer, a boolean or a string of decimal digits, and is the integer itself, 0 or 1 for a boolean |
| Agent.DigitsValueOfNat | basic_ollama_agent_with_post.py:198 | the decimal digits of a natural number read back as that number |
| Agent.IntOfShow | basic_ollama_agent_with_post.py:198 | `int(str(n)) == n` for every natural `n` |
| Agent.BindAB | basic_ollama_agent_with_post.py:110 | `tool(**arguments)` for a tool with parameters `a` and `b` binds exactly when the arguments are a dict with both keys and no other, and then binds the values under those keys |
| Agent.Plus | basic_ollama_agent_with_post.py:208 | `a + b` succeeds exactly on two numbers (booleans included), two strings or two lists; numbers add and strings concatenate |
| Agent.ProductCall | basic_ollama_agent_with_post.py:194-198 | `get_product`: bind `a` and `b`, convert each with `int()` and multiply; any exception is the tool's `Raised` outcome; stated by `Agent.ToolsOnIntegers` and `Agent.ToolsOnDigitStrings` |
| Agent.SumCall | basic_ollama_agent_with_post.py:200-208 | `calculate_sum`: bind `a` and `b` and return `a + b`; any exception is the tool's `Raised` outcome; stated by `Agent.ToolsOnIntegers` and `Agent.ToolsOnDigitStrings` |
| Agent.ToolsOnIntegers | basic_ollama_agent_with_post.py:194-208 | on two integers `get_product` returns their product and `calculate_sum` their sum |
| Agent.ToolsOnDigitStrings | basic_ollama_agent_with_post.py:194-208 | on two digit strings `get_product` converts them and returns the product, while `calculate_sum` returns the concatenated string |
| Agent.ExampleDigitStrings | basic_ollama_agent_with_post.py:194-208 | on `"11"` and `"22"`, `get_product` returns 242 and `calculate_sum` returns `"1122"` |
| Agent.CalculateSumSchema | basic_ollama_agent_with_post.py:200-208 | the example `calculate_sum` gets its docstring's first line and two required integer parameters |
| Agent.ExampleCallRecords | basic_ollama_agent_with_post.py:194-208 | calls to the two example tools with 11 and 22 give 33 and 242 |
| Agent.ExampleInvocation | basic_ollama_agent_with_post.py:218-225 | a response asking for both example tools yields both records, in the order asked |
| Agent.ExampleAgent | basic_ollama_agent_with_post.py:13-36 | the example agent, built with the defaults, uses the local endpoint and the empty proxies, and its second schema is the `calculate_sum` schema |
| Agent.DuplicateNameFirstWins | basic_ollama_agent_with_post.py:107-110 | of two tools with the same name, the one registered first runs |

## Left out

- Network access, the SEC and Ollama HTTP calls, rate-limit sleeps and logging.
  - The fact fetch, the filings request and the post are parameters, and a request that fails or raises is an error value (for the fact fetch, one that stops the script).
- `datetime.now()`: the cutoff of the wide-table script is a parameter.
- `datetime.fromisoformat`: a parameter mapping a date string to an ordered integer, or to nothing when it raises.
- `calculate_derived_metrics`: floating-point ratio columns over pandas masks.
- The DataFrame and Excel glue:
  - `download_bank_data`;
  - the writing in `save_to_excel` and its summary sheet;
  - the Excel output of the wide-table script;
  - `main`.
- The Dash applications and `base_extractor.py`: UI wiring and library wrappers.
- `inspect` reflection: a tool's signature and cleaned docstring are given as data (`Agent.Tool`), and `inspect.getdoc`'s indentation cleaning is not modelled.
- Tool side effects: calling a tool is a function of its argument map.
  - The side effects of tool calls made before a later malformed call are not modelled.
- The pydantic class and `json.loads` are parameters.
- JSON numbers are integers.
- Agent.Show: a non-string tool name that is a list or dict is rendered by a placeholder, not by Python's `repr`.
- Agent.Field: the texts of the `TypeError`s that Python raises follow CPython's wording and are not checked against a particular Python version.
- Agent.Structured: the text of the `TypeError` for a non-mapping decoded value is approximated; recent CPython versions put the module name in front of the class name.
- SecDownloader1.KeepTest: the `KeyError` text is the key name; Python's `str(KeyError)` would quote it.
- Filings.FilterRecent: every column of `filings.recent` is a list of strings, and the submissions document always has the `filings.recent` mapping shape. A non-string filing date, which makes `start_date <= filing_date` raise `TypeError`, and a column that is not a list are not modelled; in the source both end in the `except` and give `None`.
- Agent.IntOf: `int()` of a string accepts only plain ASCII decimal digits; signs, surrounding whitespace, digit-group underscores and non-ASCII Unicode decimal digits (such as Arabic-Indic digits), which Python also accepts, are not modelled, and neither are floats.
- Agent.BindAB: the `TypeError` texts of keyword binding follow CPython's wording only approximately; recent CPython versions, for instance, put the module name in front of the function name in the "argument after ** must be a mapping" text.
- An entity name that is present but null in the company facts.
  - `CompanyFacts.entityName` is either absent (giving `Unknown`) or a string.
