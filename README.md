# LinkSniffer link harvester in Dafny

This project models the link harvester of LinkSniffer and proves properties of that model. The harvester is `DynamicScraper`, a Selenium scraper. It opens a page, then repeats a cycle: collect the absolute URL of every anchor, scroll to the bottom, check whether the page height changed. It stops on whichever fires first:

- a link budget (`max_links`);
- a scroll budget (`max_scrolls`);
- `max_retries` consecutive scrolls that left the page height unchanged.

Before each page load it may rotate the browser's user agent, every `user_agent_rotation_frequency` requests. Exceptions are swallowed: the links gathered so far are returned, and the browser is quit in `finally`.

The class exists in two copies:

- `app/utils/dynamic_scraper.py` takes its agent pool from a list and has a link budget;
- `app/utils/dynamic_scraper_with_href_robust.py` has a fixed pool of eight agents and no link budget.

Around them, `app/main.py` runs a pipeline per website:

1. scrape the site;
2. let an LLM pick product-grid pages from the first 20 links;
3. re-scrape the first three of them;
4. let an LLM pick product pages from the first 20 links found;
5. keep 20.

It then maps each website to its products and writes a text file.

Layout, one module per file:

- `browser.dfy` (Browser): the browser as a finite **Script** of answers for one scrape call. The script holds:
  - whether a relaunch raises;
  - whether `driver.get` raises;
  - one `Shot` per extraction: timeout, anchors with their hrefs, or a driver error;
  - one `Measure` per scroll: heights before and after, or a driver error.

  Past the end of the script the page is static. The file also holds the href filter and the methods `extract_all_links` and `scroll_to_bottom`.
- `harvest.dfy` (Harvest): the specification of one `scrape_website` call, plus its lemmas:
  - `Iterate` is one pass of the `while True` body;
  - `Loop` is the whole loop;
  - `Opening` is rotation plus `driver.get`;
  - `Conclude` and `Scrape` give the whole call, with its driver calls as a sequence of `Event`s.

  The loop is generic in a `Limits` value. It carries the link-budget test as a predicate; `Budgets(max_scrolls, max_links, max_retries)` is the one the code uses.
- `dynamic_scraper.dfy` (DynamicScraper): `class Scraper` for `app/utils/dynamic_scraper.py`.
  - Its fields are the object's fields, plus the driver's liveness, agent and headless flag, and a ghost `Trace` of driver calls.
  - `scrape_website` is a method with the `while` loop, proved equal to `Scrape`.
- `robust_scraper.dfy` (RobustScraper): the same class for the robust copy. It has the `USER_AGENTS` constant and `scrape_website(url, max_scrolls)`.
- `pipeline.dfy` (Pipeline): `app/main.py`, covering:
  - `chunk_list`;
  - `get_all_href_links`;
  - `process_website`, with the scraper and the two LLM classifiers as function parameters;
  - the dict built in `main`;
  - the text `generate_mapping_file` writes.

Python details are written out:

- `%` takes the sign of the divisor (`PyMod`).
- `None` and `0` are both "no limit" (`Truthy`).
- A zero rotation frequency raises `ZeroDivisionError` inside the `try`.
- `random.choice` is `Choose(pool, pick)` with the random draw `pick` as a parameter.
- `urljoin` is the function parameter `join`.

Where the code departs from the documented intent of the harvester, the model follows the code:

- Growth is tested with `!=`, so a page that shrinks counts as new content, not only one that grows.
- `max_scrolls = 0` is falsy and means unlimited; it does not mean one extraction and no scroll (`ZeroMeansUnlimited`).
- On a page that never grows, with `max_retries = 3`, the loop makes 3 scrolls. The stagnation `break` comes before `scroll_count += 1`, so the counter ends at 2, not 3 (`FlatPageStopsAfterThreeScrolls`).
- A scraper object often cannot be reused. Take a first call whose `driver.get` returned: `request_count` is then 1, and its `finally` quits the driver. With a frequency of magnitude 2 or more the next call does not rotate, so `driver.get` on the quit driver raises, and that call returns the empty set (`ReusedScraperFindsNothing`). With a frequency of 1 or -1 every call rotates and relaunches, so the object keeps working. If the first call's `driver.get` raised instead, `request_count` stays 0 and the next call rotates and relaunches.

## Model

| member | source | states |
|---|---|---|
| Browser.ResolvedMembers | app/utils/dynamic_scraper.py:83-90 | a link is extracted iff some anchor has a truthy href that `urljoin(current_url, href)` maps to it; None, empty and stale hrefs contribute nothing |
| Browser.NothingKeptNothingExtracted | app/utils/dynamic_scraper.py:79-93 | a wait timeout yields the empty set, and anchors without a usable href yield nothing however many there are |
| Browser.ExtractAllLinks | app/utils/dynamic_scraper.py:76-93 | the loop over anchors (stale ones skipped one at a time) returns exactly the specified set; a driver error other than a stale element escapes, a timeout does not |
| Browser.ScrollToBottom | app/utils/dynamic_scraper.py:68-73 | reports new content iff the height after the scroll differs from the height before; a driver error escapes |
| Browser.HasNewContent | app/utils/dynamic_scraper.py:73 | the definition: the height after the scroll differs from the height before |
| Browser.Kept | app/utils/dynamic_scraper.py:86 | the definition: an href is kept when it is truthy, neither None nor empty, and not stale |
| Browser.Resolved | app/utils/dynamic_scraper.py:83-88 | the definition: `urljoin(current_url, href)` of every kept href, in anchor order (its members are stated by ResolvedMembers) |
| Browser.Extracted | app/utils/dynamic_scraper.py:76-93 | the definition: the anchors' resolved links, or nothing after a timeout |
| Harvest.Truthy | app/utils/dynamic_scraper.py:113 | the definition: None and 0 are falsy limits |
| Harvest.LinkBudgetReached | app/utils/dynamic_scraper.py:113 | the definition: `max_links` truthy and at least that many links |
| Harvest.ScrollBudgetReached | app/utils/dynamic_scraper.py:118 | the definition: `max_scrolls` truthy and `scroll_count` at least that |
| Harvest.Loop | app/utils/dynamic_scraper.py:106-135 | the definition: passes of Iterate from `scroll_count` 0 until one stops; its properties are the lemmas below |
| Harvest.PyMod | app/utils/dynamic_scraper.py:41 | Python's `%`: the remainder lies between 0 and the divisor, on the divisor's side, is 0 exactly when Dafny's is, and the dividend minus it is the floor quotient times the divisor |
| Harvest.Rotates | app/utils/dynamic_scraper.py:41 | rotation is due exactly when the frequency is non-zero and divides `request_count`, whatever the signs |
| Harvest.Opening | app/utils/dynamic_scraper.py:101-103 | the definition: a zero frequency raises at once; otherwise an optional quit and headless relaunch, then `driver.get` |
| Harvest.Conclude | app/utils/dynamic_scraper.py:95-142 | the definition: the loop's links and calls only after a returned `driver.get`, and a final quit on every path |
| Harvest.Scrape | app/utils/dynamic_scraper.py:95-142 | the definition: Conclude of the opening and of the loop from `scroll_count` 0 with no links |
| Harvest.Iterate | app/utils/dynamic_scraper.py:106-135 | one pass of the loop: on going on, the links are the old ones plus this extraction's, and a scroll was consumed or `retry_count` rose below `max_retries`; a stop keeps `scroll_count` and returns the merged links (the old ones if the extraction raised) |
| Harvest.Choose | app/utils/dynamic_scraper.py:34-37 | `random.choice` returns an element of the pool, and every element is drawn by some pick |
| Harvest.LoopLinks | app/utils/dynamic_scraper.py:108-109 | `all_links` at exit is exactly the union of every successful extraction of the call, numbers 0 to the last; the loop never ends on the opening's exit |
| Harvest.LoopKeeps | app/utils/dynamic_scraper.py:109 | `all_links` never shrinks |
| Harvest.PassesCount | app/utils/dynamic_scraper.py:108-132 | n complete passes make n extractions, n scrolls and no other driver call |
| Harvest.LoopCallsCount | app/utils/dynamic_scraper.py:106-132 | the loop makes `scroll_count + 1` extractions, and a scroll in each pass that got past the budget checks; its last call is the one that ended it |
| Harvest.LinkBudgetStops | app/utils/dynamic_scraper.py:113-115 | the loop ends on the link budget only when the budget test holds of the links, and on any other exit the test does not hold (or nothing was merged); it stops at the first extraction that makes the test hold, since the links merged after each earlier one failed it |
| Harvest.MaxLinksStops | app/utils/dynamic_scraper.py:113-115 | with truthy `max_links = n` the link exit means at least n links, any other exit fewer than n (or none), and every extraction before the last left fewer than n; a falsy `max_links` never stops the loop |
| Harvest.FirstPassFillsBudget | app/utils/dynamic_scraper.py:113-115 | a first extraction that reaches `max_links` ends the call after that one extraction and no scroll, the result possibly exceeding the budget |
| Harvest.ScrollBudgetHolds | app/utils/dynamic_scraper.py:118-119 | with truthy `max_scrolls = m`, `scroll_count` never passes max(m,0), and is exactly that on the scroll-budget exit |
| Harvest.ScrollBudgetBounds | app/utils/dynamic_scraper.py:118-132 | with truthy `max_scrolls = m`, at most max(m,0)+1 extractions and max(m,0) scrolls |
| Harvest.ScrapeBounds | app/utils/dynamic_scraper_with_href_robust.py:153-167 | the same bounds for a whole call, opening included |
| Harvest.ConcludeCounts | app/utils/dynamic_scraper.py:100-140 | a call makes each driver call as often as its opening does, plus its loop's if `driver.get` returned, plus the final quit |
| Harvest.OpeningNeitherExtractsNorScrolls | app/utils/dynamic_scraper.py:101-103 | rotation and navigation make no extraction and no scroll |
| Harvest.ZeroScrollsMeansUnlimited | app/utils/dynamic_scraper.py:118 | `max_scrolls = 0` gives exactly the run of `max_scrolls = None` |
| Harvest.SameTestSameLoop | app/utils/dynamic_scraper.py:113 | the loop depends on the link-budget test only through its answers |
| Harvest.ZeroMeansUnlimited | app/utils/dynamic_scraper.py:113-119 | `max_links = 0` behaves as `None`, and `max_scrolls = 0` as `None` |
| Harvest.StagnationIsConsecutive | app/utils/dynamic_scraper.py:124-130 | on the stagnation exit `retry_count` equals max(`max_retries`,1), and that many scrolls ending with the last one left the height unchanged |
| Harvest.StagnationIsFirst | app/utils/dynamic_scraper.py:124-130 | the loop stops at the first run of max(`max_retries`,1) unchanged scrolls: on every pass that went on, one of the last max(`max_retries`,1) scrolls changed the height, since a change resets `retry_count` |
| Harvest.StagnationBound | app/utils/dynamic_scraper_with_href_robust.py:157-167 | once the height stops changing from scroll g on, the loop ends with `scroll_count` at most g + max(`max_retries`,1) - 1 |
| Harvest.FlatPageStopsAfterThreeScrolls | app/utils/dynamic_scraper.py:122-132 | on a page that never changes, with `max_retries = 3` and no budgets, the call makes 3 extractions and 3 scrolls and ends on stagnation with `scroll_count` 2 and `retry_count` 3 |
| Harvest.GrowingPageKeepsScrolling | app/utils/dynamic_scraper.py:106-135 | with a falsy `max_scrolls` and no link budget, a page whose height changes on every scroll is scrolled at least as many times as it grows: nothing else bounds the loop |
| Harvest.OpeningQuits | app/utils/dynamic_scraper.py:61-65 | the opening quits the driver once iff it rotates, every launch it makes is headless with the drawn agent, and a successful opening ends with `driver.get` |
| Harvest.EveryExitQuits | app/utils/dynamic_scraper.py:100-142 | every call, normal or raised, ends with `driver.quit()`, quits nowhere else except before a relaunch, returns no links when `driver.get` did not return, and otherwise returns the loop's links |
| Harvest.QuitOnlyAtEnds | app/utils/dynamic_scraper.py:106-140 | the loop adds no quit between the opening and `finally` |
| Harvest.LaunchesOnlyInOpening | app/utils/dynamic_scraper.py:106-140 | the loop and `finally` launch no browser |
| Harvest.StartRaisedOnlyBeforeLoop | app/utils/dynamic_scraper.py:100-103 | a call ends on the opening's exit iff `driver.get` did not return normally |
| Harvest.RotationRule | app/utils/dynamic_scraper.py:40-41 | rotation fires iff `request_count % frequency == 0`, before `driver.get`, quitting the old driver first; frequency 0 raises before any driver call and yields the empty set |
| Harvest.RotationSchedule | app/utils/dynamic_scraper.py:40-41 | with frequency f > 0, exactly the requests numbered 0, f, 2f, ... rotate |
| Harvest.FreshScraperRotates | app/utils/dynamic_scraper_with_href_robust.py:45-48 | a fresh scraper (`request_count` 0) always rotates on its first call: the constructor's driver is quit and a headless one launched |
| Harvest.RotatedDriverIsHeadless | app/utils/dynamic_scraper_with_href_robust.py:89-94 | every driver launched during a call is headless and uses the drawn agent, whatever `headless` the constructor had |
| Harvest.ReusedScraperFindsNothing | app/utils/dynamic_scraper.py:100-142 | after a first call whose `driver.get` returned (`request_count` 1, driver quit), a second call with a frequency of magnitude 2 or more does not rotate, its `driver.get` raises, and it returns the empty set |
| DynamicScraper.Scraper.constructor | app/utils/dynamic_scraper.py:17-25 | `request_count` 0, a live driver launched with the given headless flag and an agent drawn from the pool, which becomes `current_user_agent` |
| DynamicScraper.Scraper.GetRandomUserAgent | app/utils/dynamic_scraper.py:34-37 | the agent returned is an element of `user_agents` |
| DynamicScraper.Scraper.ShouldRotateUserAgent | app/utils/dynamic_scraper.py:40-41 | raises (None) iff the frequency is 0, otherwise true iff `request_count` is a multiple of it |
| DynamicScraper.Scraper.SetupDriver | app/utils/dynamic_scraper.py:43-59 | the drawn agent becomes current before the launch; a successful launch leaves a live driver with that agent and flag, a failed one leaves the old driver |
| DynamicScraper.Scraper.RotateUserAgentIfNeeded | app/utils/dynamic_scraper.py:61-65 | without a rotation nothing changes; with one the old driver is quit and a headless one launched with a fresh agent from the pool; the current agent stays in the pool |
| DynamicScraper.Scraper.CollectLinks | app/utils/dynamic_scraper.py:106-135 | the `while True` loop returns exactly the links of the Loop specification, and its driver calls are LoopCalls |
| DynamicScraper.Scraper.Open | app/utils/dynamic_scraper.py:101-103 | rotation then `driver.get`, as Opening: `request_count` rises by 1 exactly when `driver.get` returns normally, which needs a live driver; a rotation leaves a live headless driver with the new agent when the relaunch succeeds and none when it raises; without a rotation the driver is unchanged |
| DynamicScraper.Scraper.ScrapeWebsite | app/utils/dynamic_scraper.py:95-142 | `scrape_website(url, max_scrolls, max_links)` returns the links of the Scrape specification, makes its driver calls, sets `request_count` and the agent as it says, and always leaves the driver quit |
| DynamicScraper.Scraper.ScrapeUnder | app/utils/dynamic_scraper.py:95-142 | the same under any limits whose `max_retries` is the object's |
| RobustScraper.RobustBudgets | app/utils/dynamic_scraper_with_href_robust.py:124 | the limits of `scrape_website(url, max_scrolls)` have no link budget |
| RobustScraper.Scraper.constructor | app/utils/dynamic_scraper_with_href_robust.py:32-48 | the pool is `USER_AGENTS`, `request_count` is 0, and a live driver uses an agent drawn from the eight |
| RobustScraper.Scraper.GetRandomUserAgent | app/utils/dynamic_scraper_with_href_robust.py:58-62 | the agent returned is one of `USER_AGENTS` |
| RobustScraper.Scraper.ShouldRotateUserAgent | app/utils/dynamic_scraper_with_href_robust.py:64-66 | raises (None) iff the frequency is 0, otherwise true iff `request_count` is a multiple of it |
| RobustScraper.Scraper.SetupDriver | app/utils/dynamic_scraper_with_href_robust.py:68-87 | the drawn agent becomes current; a successful launch leaves a live driver with it |
| RobustScraper.Scraper.RotateUserAgentIfNeeded | app/utils/dynamic_scraper_with_href_robust.py:89-94 | a rotation quits the driver and launches a headless one with a fresh agent from the eight |
| RobustScraper.Scraper.CollectLinks | app/utils/dynamic_scraper_with_href_robust.py:145-170 | the loop without a link check returns exactly the links of the Loop specification |
| RobustScraper.Scraper.Open | app/utils/dynamic_scraper_with_href_robust.py:140-142 | rotation then `driver.get`; `request_count` rises by 1 exactly when `driver.get` returns, which needs a live driver; a rotation leaves a live headless driver with the new agent or, if the relaunch raises, none; without a rotation the driver is unchanged |
| RobustScraper.Scraper.ScrapeWebsite | app/utils/dynamic_scraper_with_href_robust.py:124-177 | `scrape_website(url, max_scrolls)` returns the links of the Scrape specification without a link budget, and always leaves the driver quit |
| RobustScraper.Scraper.ScrapeUnder | app/utils/dynamic_scraper_with_href_robust.py:139-177 | the same under any limits without a link budget |
| RobustScraper.NoLinkBudget | app/utils/dynamic_scraper_with_href_robust.py:145-170 | the robust loop never ends on a link budget |
| Pipeline.Take | app/main.py:122 | the slice `xs[:n]` is the first min(n, len(xs)) elements |
| Pipeline.ChunksFrom | app/main.py:22-23 | the definition: the slices `xs[i:i+size]` for i stepping by size (their properties are ChunksRebuild, ChunkSizes, ChunkCount) |
| Pipeline.ChunkList | app/main.py:20-23 | a zero chunk size raises, a negative one yields no chunk |
| Pipeline.ChunksRebuild | app/main.py:20-23 | the chunks from index i concatenate back to `xs[i:]` |
| Pipeline.ChunkSizes | app/main.py:22-23 | every chunk but the last has exactly the chunk size; the last is non-empty and no longer |
| Pipeline.ChunkCount | app/main.py:22 | there are ceil((len(xs) - i) / size) chunks from index i |
| Pipeline.ChunkListSplits | app/main.py:20-23 | for a positive size the chunks concatenate to the input, have the sizes above, number ceil(len/size), and an empty input yields none |
| Pipeline.FlattenAppend | app/main.py:128-134 | concatenating two runs of chunks concatenates their contents |
| Pipeline.Store | app/main.py:157-159 | the definition: `d[k] = v` on an insertion-ordered dict (stated by StoreLookup and StoreKeys) |
| Pipeline.BuildMapping | app/main.py:157-159 | the definition: the comprehension storing `results[i]` under `website_urls[i]` for i in order (stated by MappingKeys and MappingLastWins) |
| Pipeline.Keys | app/main.py:157-159 | the dict's keys in iteration order |
| Pipeline.StoreLookup | app/main.py:157-159 | after `d[k] = v`, k maps to v and every other key is unchanged |
| Pipeline.StoreKeys | app/main.py:157-159 | `d[k] = v` keeps the key order, appending k only if it is new |
| Pipeline.FirstOccurrences | app/main.py:157-159 | the first occurrences of a list are distinct and hold exactly its elements |
| Pipeline.MappingKeys | app/main.py:157-159 | the mapping's keys are the websites, each once, in order of first occurrence |
| Pipeline.MappingLastWins | app/main.py:157-159 | a website maps to `results[i]` for its last index i, so a later duplicate wins; anything else is absent |
| Pipeline.ProductLines | app/main.py:108-109 | the definition: one `  - url` line per product URL, in order |
| Pipeline.EntryText | app/main.py:107-110 | the definition: the website line, its product lines, a blank line |
| Pipeline.MappingText | app/main.py:106-110 | the definition: the entries' texts in dict order |
| Pipeline.MappingTextAppend | app/main.py:106-110 | the text of consecutive entries is the concatenation of their texts |
| Pipeline.ProductLinesAppend | app/main.py:108-109 | the product lines of two lists are the concatenation of their lines |
| Pipeline.ProductLineCount | app/main.py:108-109 | one newline per product URL |
| Pipeline.LineCount | app/main.py:106-110 | without newlines inside the strings, the file holds exactly sum(2 + len(product_urls)) lines |
| Pipeline.WriteEntry | app/main.py:107-110 | one website's block: its line, an indented `  - ` line per product URL in order, a blank line |
| Pipeline.GenerateMappingFile | app/main.py:104-110 | the nested loops write exactly MappingText: each website in dict order with its block, nothing escaped |
| Pipeline.ListOf | app/main.py:38 | `list(links)` holds every link of the set exactly once |
| Pipeline.HrefCall | app/main.py:34-37 | the definition: one Scrape on a fresh scraper with `max_scrolls=10`, `max_retries=3`, rotation every 5, no link budget |
| Pipeline.HrefCallBounds | app/main.py:26-38 | the call on a fresh scraper with `max_scrolls=10` always rotates and makes at most 11 extractions and 10 scrolls |
| Pipeline.GetAllHrefLinks | app/main.py:26-38 | a fresh headless robust scraper (`max_retries=3`, rotation every 5) scrapes with `max_scrolls=10`; the list holds exactly that call's links, each once |
| Pipeline.GridLinks | app/main.py:128-134 | the definition: each grid page's links appended in order, an exception once a call raises |
| Pipeline.GridLinksRaises | app/main.py:128-134 | the grid links are an exception exactly when some grid page's call raises |
| Pipeline.GridVisited | app/main.py:128-135 | the grid pages scraped are a prefix of the pages, all of them when none raised |
| Pipeline.GridFailureStops | app/main.py:128-135 | after a raise no later grid page is scraped and the result stays an exception |
| Pipeline.Process | app/main.py:113-147 | at most 20 product URLs, at most 4 scrapes with the site first, classifier inputs of at most 20 links; a failed first scrape returns [], and products are returned only if every scrape and both classifiers returned, the first 20 of the product classifier's answer |
| Pipeline.ProcessFollowsGrid | app/main.py:120-142 | the grid classifier sees the first 20 links; only a prefix of the first three grid pages is scraped, and the product classifier sees the first 20 of their links in order |
| Pipeline.ScrapeChunk | app/main.py:130-135 | the inner loop extends the grid links exactly as GridLinks says, stopping at the first raise |
| Pipeline.ScrapeGridPages | app/main.py:126-135 | the chunked loop over the grid pages gathers exactly GridLinks and scrapes exactly GridVisited |
| Pipeline.ProcessWebsite | app/main.py:113-147 | the steps of `process_website` with their slices produce exactly the outcome of Process, any exception giving [] |

## Left out

- Selenium itself is not modelled: ChromeOptions flags, the `execute_script` that hides the webdriver flag, `WebDriverWait` and `find_elements`, and the `document.body.scrollHeight` reads. The browser is the Script of answers.
- `execute_script` failing right after a successful `webdriver.Chrome` is folded into a failed launch. The model then keeps the old driver, whereas the code would hold the new one until `finally` quits it.
- Driver errors other than a stale element, raised inside the anchor loop, are folded into a Broken extraction, which escapes to `scrape_website`'s handler. A `TimeoutException` from `get_attribute` or `current_url` in that loop is different in the code: the extraction's own handler catches it (app/utils/dynamic_scraper.py:91, app/utils/dynamic_scraper_with_href_robust.py:120) and returns the links gathered from the earlier anchors. The model has no Shot for that partial result.
- `driver.quit()` is taken never to raise.
- The constructor's launch is taken to succeed. A raise there escapes the constructor and leaves no object to model.
- `time.sleep(scroll_pause)` and `time.sleep(random.uniform(1.5, 4.0))` are left out. Wall-clock delays change nothing in the state.
- Logging, `print`, `setup_logging` and the example `main()` functions of both scraper files are left out.
- `urljoin` is a function parameter. Its resolution rules (section 5.2 of RFC 3986) are not modelled.
- `save_links` is left out: JSON file output.
- The user-agent list module imported by `app/utils/dynamic_scraper.py` is not part of this model. Its pool is a constructor parameter, taken as non-empty, as `random.choice` needs.
- `generate_product_grid_pages` and `generate_product_pages` are not modelled: their LLM chains, batching by 10, `ChatOllama` and the prompts. Each is a function parameter from the links to a list or an exception.
- `app/utils/llm_manager.py` and `app/helpers/output_schemas.py` are not part of this model.
- The `aiohttp` session, `asyncio.gather` concurrency and opening the output file are left out. `main`'s results are an input of the same length as the URL list, and the file is the text written.
- Pipeline.ProcessWebsite takes `get_all_href_links` as a function from a URL to a list or an exception. It does not re-derive it from GetAllHrefLinks, whose scripts and random draws would be per-URL parameters. Being a function, it gives a repeated URL the same links, whereas each real call builds a fresh browser on a live page that may answer differently.
- Runs that never end are outside the model. The Script is finite and the page is static past its end, so Loop always ends. In the code, a falsy `max_scrolls` with no link budget on a page whose height changes on every scroll loops forever and never reaches `finally`; GrowingPageKeepsScrolling shows that nothing but the page bounds the scrolls.
