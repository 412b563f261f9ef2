/** The orchestration in `app/main.py`: `chunk_list`, the per-site pipeline
    `process_website` (scrape, classify grid pages, re-scrape at most three
    of them, classify product pages), `get_all_href_links`, the website to
    products mapping built in `main`, and the text `generate_mapping_file`
    writes.  The LLM classifiers and the scraper are function parameters;
    `None` stands for a raised exception. */
module Pipeline {
  import opened Browser
  import opened Harvest
  import RobustScraper

  function Min(a: int, b: int): int
  {
    if a < b then a else b
  }

  /** Python's slice `xs[:n]` for n >= 0. */
  function Take<T>(xs: seq<T>, n: nat): (ys: seq<T>)
    ensures |ys| == Min(n, |xs|) && ys == xs[..|ys|]
  {
    if n < |xs| then xs[..n] else xs
  }

  // ---------------------------------------------------------------------
  // chunk_list
  // ---------------------------------------------------------------------

  /** The chunks `chunk_list` yields from index i on: `xs[i:i + size]` for
      i, i + size, ... below `len(xs)`; the slice is cut at the end of xs. */
  function ChunksFrom<T>(xs: seq<T>, size: nat, i: nat): seq<seq<T>>
    requires size > 0
    decreases |xs| - i
  {
    if i >= |xs| then [] else [xs[i..Min(i + size, |xs|)]] + ChunksFrom(xs, size, i + size)
  }

  /** `chunk_list(input_list, chunk_size)`: `range` raises ValueError on a
      zero step (None), a negative step yields no chunk, a positive one the
      chunks from index 0. */
  function ChunkList<T>(xs: seq<T>, size: int): (r: Option<seq<seq<T>>>)
    ensures r.None? <==> size == 0
    ensures size < 0 ==> r == Some([])
    ensures size > 0 ==> r == Some(ChunksFrom(xs, size, 0))
  {
    if size == 0 then None
    else if size < 0 then Some([])
    else Some(ChunksFrom(xs, size, 0))
  }

  /** The chunks laid end to end. */
  function Flatten<T>(chunks: seq<seq<T>>): seq<T>
  {
    if chunks == [] then [] else chunks[0] + Flatten(chunks[1..])
  }

  lemma {:induction false} FlattenAppend<T>(a: seq<seq<T>>, b: seq<seq<T>>)
    ensures Flatten(a + b) == Flatten(a) + Flatten(b)
  {
    if a != [] {
      assert (a + b)[1..] == a[1..] + b;
      FlattenAppend(a[1..], b);
    } else {
      assert a + b == b;
    }
  }

  /** Concatenating the chunks from index i gives back `xs[i:]`. */
  lemma {:induction false} ChunksRebuild<T>(xs: seq<T>, size: nat, i: nat)
    requires size > 0 && i <= |xs|
    ensures Flatten(ChunksFrom(xs, size, i)) == xs[i..]
    decreases |xs| - i
  {
    if i < |xs| {
      var j := Min(i + size, |xs|);
      var cs := ChunksFrom(xs, size, i);
      assert cs[1..] == ChunksFrom(xs, size, i + size);
      if i + size < |xs| {
        ChunksRebuild(xs, size, i + size);
      }
      assert xs[i..j] + xs[j..] == xs[i..];
    }
  }

  /** Every chunk but the last holds exactly `size` elements; the last is
      non-empty and holds at most `size`. */
  lemma {:induction false} ChunkSizes<T>(xs: seq<T>, size: nat, i: nat)
    requires size > 0
    ensures var cs := ChunksFrom(xs, size, i);
      && (forall c :: 0 <= c < |cs| - 1 ==> |cs[c]| == size)
      && (|cs| > 0 ==> 0 < |cs[|cs| - 1]| <= size)
    decreases |xs| - i
  {
    if i < |xs| {
      var cs := ChunksFrom(xs, size, i);
      var rest := ChunksFrom(xs, size, i + size);
      assert cs == [cs[0]] + rest;
      ChunkSizes(xs, size, i + size);
      forall c | 0 <= c < |cs| - 1
        ensures |cs[c]| == size
      {
        if c > 0 {
          assert cs[c] == rest[c - 1];
        }
      }
      if rest != [] {
        assert cs[|cs| - 1] == rest[|rest| - 1];
      }
    }
  }

  /** Euclidean division is unique: a = q*d + r with 0 <= r < d fixes a / d. */
  lemma DivUnique(a: int, d: int, q: int, r: int)
    requires d > 0 && 0 <= r < d && a == q * d + r
    ensures a / d == q
  {
    var q', r' := a / d, a % d;
    assert a == q' * d + r';
    if q > q' {
      MulGap(q, q', d);
      assert false;
    } else if q < q' {
      MulGap(q', q, d);
      assert false;
    }
  }

  /** The chunks from index i number ceil((len(xs) - i) / size). */
  lemma {:induction false} ChunkCount<T>(xs: seq<T>, size: nat, i: nat)
    requires size > 0 && i <= |xs|
    ensures |ChunksFrom(xs, size, i)| == (|xs| - i + size - 1) / size
    decreases |xs| - i
  {
    if i == |xs| {
      DivUnique(size - 1, size, 0, size - 1);
    } else if i + size >= |xs| {
      assert ChunksFrom(xs, size, i + size) == [];
      DivUnique(|xs| - i + size - 1, size, 1, |xs| - i - 1);
    } else {
      ChunkCount(xs, size, i + size);
      var a := |xs| - i - 1;
      DivUnique(a, size, a / size, a % size);
      DivUnique(a + size, size, a / size + 1, a % size);
    }
  }

  /** `chunk_list(xs, k)` with k > 0: the chunks concatenate back to xs,
      all but the last hold exactly k elements and the last is non-empty,
      there are ceil(len(xs) / k) of them, and an empty list yields none. */
  lemma ChunkListSplits<T>(xs: seq<T>, size: int)
    requires size > 0
    ensures var cs := ChunkList(xs, size).value;
      && Flatten(cs) == xs
      && (forall c :: 0 <= c < |cs| - 1 ==> |cs[c]| == size)
      && (|cs| > 0 ==> 0 < |cs[|cs| - 1]| <= size)
      && |cs| == (|xs| + size - 1) / size
      && (xs == [] <==> cs == [])
  {
    ChunksRebuild(xs, size, 0);
    ChunkSizes(xs, size, 0);
    ChunkCount(xs, size, 0);
  }

  // ---------------------------------------------------------------------
  // website_to_product_mapping and generate_mapping_file
  // ---------------------------------------------------------------------

  /** A Python dict from website to product URLs: its entries in insertion
      order. */
  type Entries = seq<(string, seq<string>)>

  /** The keys of the dict in iteration order. */
  function Keys(m: Entries): (ks: seq<string>)
    ensures |ks| == |m| && forall i :: 0 <= i < |m| ==> ks[i] == m[i].0
  {
    if m == [] then [] else [m[0].0] + Keys(m[1..])
  }

  /** Dict keys are distinct. */
  predicate Distinct(ks: seq<string>)
  {
    forall i, j :: 0 <= i < j < |ks| ==> ks[i] != ks[j]
  }

  /** `d.get(k)`. */
  function Lookup(m: Entries, k: string): Option<seq<string>>
  {
    if m == [] then None else if m[0].0 == k then Some(m[0].1) else Lookup(m[1..], k)
  }

  /** `d[k] = v`: an existing key keeps its place and takes the new value, a
      new key goes last. */
  function Store(m: Entries, k: string, v: seq<string>): Entries
  {
    if m == [] then [(k, v)]
    else if m[0].0 == k then [(k, v)] + m[1..]
    else [m[0]] + Store(m[1..], k, v)
  }

  /** After `d[k] = v`, k maps to v and every other key is as before. */
  lemma {:induction false} StoreLookup(m: Entries, k: string, v: seq<string>, k': string)
    ensures Lookup(Store(m, k, v), k') == if k' == k then Some(v) else Lookup(m, k')
  {
    if m != [] && m[0].0 != k {
      StoreLookup(m[1..], k, v, k');
      assert Store(m, k, v)[1..] == Store(m[1..], k, v);
    } else if m != [] {
      assert Store(m, k, v)[1..] == m[1..];
    }
  }

  /** `d[k] = v` keeps the key order, adding k at the end if it was new. */
  lemma {:induction false} StoreKeys(m: Entries, k: string, v: seq<string>)
    ensures Keys(Store(m, k, v)) == if k in Keys(m) then Keys(m) else Keys(m) + [k]
  {
    if m != [] && m[0].0 != k {
      StoreKeys(m[1..], k, v);
      assert Store(m, k, v)[1..] == Store(m[1..], k, v);
      assert Keys(m) == [m[0].0] + Keys(m[1..]);
    } else if m != [] {
      assert Store(m, k, v)[1..] == m[1..];
    }
  }

  /** The first occurrences of xs, in order: the key order of a dict built
      by inserting xs one by one. */
  function FirstOccurrences(xs: seq<string>): (ks: seq<string>)
    ensures Distinct(ks)
    ensures forall x :: x in ks <==> x in xs
  {
    if xs == [] then []
    else
      var ks := FirstOccurrences(xs[..|xs| - 1]);
      var last := xs[|xs| - 1];
      assert xs == xs[..|xs| - 1] + [last];
      if last in ks then ks else ks + [last]
  }

  /** `{website_urls[i]: results[i] for i in range(len(website_urls))}`,
      where `results` holds one result per website (`asyncio.gather`). */
  function BuildMapping(urls: seq<string>, results: seq<seq<string>>): Entries
    requires |results| == |urls|
  {
    if urls == [] then []
    else
      var n := |urls| - 1;
      Store(BuildMapping(urls[..n], results[..n]), urls[n], results[n])
  }

  /** The mapping has the websites as keys, each once, in order of first
      occurrence. */
  lemma {:induction false} MappingKeys(urls: seq<string>, results: seq<seq<string>>)
    requires |results| == |urls|
    ensures Keys(BuildMapping(urls, results)) == FirstOccurrences(urls)
    ensures Distinct(Keys(BuildMapping(urls, results)))
  {
    if urls != [] {
      var n := |urls| - 1;
      MappingKeys(urls[..n], results[..n]);
      StoreKeys(BuildMapping(urls[..n], results[..n]), urls[n], results[n]);
    }
  }

  /** A website maps to the result at its last occurrence in
      `website_urls` (a later duplicate overwrites an earlier one), and a
      key that is not a website is absent. */
  lemma {:induction false} MappingLastWins(urls: seq<string>, results: seq<seq<string>>, k: string)
    requires |results| == |urls|
    ensures k !in urls ==> Lookup(BuildMapping(urls, results), k) == None
    ensures forall i :: 0 <= i < |urls| && urls[i] == k && (forall j :: i < j < |urls| ==> urls[j] != k) ==>
              Lookup(BuildMapping(urls, results), k) == Some(results[i])
  {
    if urls != [] {
      var n := |urls| - 1;
      MappingLastWins(urls[..n], results[..n], k);
      StoreLookup(BuildMapping(urls[..n], results[..n]), urls[n], results[n], k);
      assert urls == urls[..n] + [urls[n]];
      forall i | 0 <= i < n && urls[i] == k && (forall j :: i < j < |urls| ==> urls[j] != k)
        ensures Lookup(BuildMapping(urls, results), k) == Some(results[i])
      {
        assert urls[..n][i] == urls[i] && results[..n][i] == results[i];
        assert urls[n] != k;
      }
    }
  }

  /** The lines `generate_mapping_file` writes for one product list. */
  function ProductLines(productUrls: seq<string>): string
  {
    if productUrls == [] then "" else "  - " + productUrls[0] + "\n" + ProductLines(productUrls[1..])
  }

  /** The block written for one website: its line, one `  - ` line per
      product URL, then a blank line. */
  function EntryText(website: string, productUrls: seq<string>): string
  {
    website + "\n" + ProductLines(productUrls) + "\n"
  }

  /** The whole text written to `output_file`, website by website in dict
      order; nothing is escaped. */
  function MappingText(m: Entries): string
  {
    if m == [] then "" else EntryText(m[0].0, m[0].1) + MappingText(m[1..])
  }

  /** The text of consecutive entries is the concatenation of their texts. */
  lemma {:induction false} MappingTextAppend(a: Entries, b: Entries)
    ensures MappingText(a + b) == MappingText(a) + MappingText(b)
  {
    if a != [] {
      assert (a + b)[1..] == a[1..] + b;
      MappingTextAppend(a[1..], b);
    } else {
      assert a + b == b;
    }
  }

  lemma {:induction false} ProductLinesAppend(a: seq<string>, b: seq<string>)
    ensures ProductLines(a + b) == ProductLines(a) + ProductLines(b)
  {
    if a != [] {
      assert (a + b)[1..] == a[1..] + b;
      ProductLinesAppend(a[1..], b);
    } else {
      assert a + b == b;
    }
  }

  /** No newline inside a website or a product URL. */
  predicate OneLineEach(m: Entries)
  {
    forall i :: 0 <= i < |m| ==> '\n' !in m[i].0 && forall j :: 0 <= j < |m[i].1| ==> '\n' !in m[i].1[j]
  }

  /** The number of lines the file should hold: two per website plus one
      per product URL. */
  function ExpectedLines(m: Entries): nat
  {
    if m == [] then 0 else 2 + |m[0].1| + ExpectedLines(m[1..])
  }

  lemma {:induction false} ProductLineCount(productUrls: seq<string>)
    requires forall j :: 0 <= j < |productUrls| ==> '\n' !in productUrls[j]
    ensures multiset(ProductLines(productUrls))['\n'] == |productUrls|
  {
    if productUrls != [] {
      ProductLineCount(productUrls[1..]);
      assert '\n' !in productUrls[0];
      assert multiset(productUrls[0])['\n'] == 0;
    }
  }

  /** With no newline inside the strings, the text holds exactly
      sum(2 + len(product_urls)) lines. */
  lemma {:induction false} LineCount(m: Entries)
    requires OneLineEach(m)
    ensures multiset(MappingText(m))['\n'] == ExpectedLines(m)
  {
    if m != [] {
      assert OneLineEach(m[1..]) by {
        forall i | 0 <= i < |m[1..]|
          ensures '\n' !in m[1..][i].0 && forall j :: 0 <= j < |m[1..][i].1| ==> '\n' !in m[1..][i].1[j]
        {
          assert m[1..][i] == m[i + 1];
        }
      }
      LineCount(m[1..]);
      ProductLineCount(m[0].1);
      assert '\n' !in m[0].0;
      assert multiset(m[0].0)['\n'] == 0;
    }
  }

  /** One pass of the outer loop of `generate_mapping_file`: the website
      line, the inner loop over its product URLs, the blank line. */
  method WriteEntry(website: string, productUrls: seq<string>) returns (text: string)
    ensures text == EntryText(website, productUrls)
  {
    text := website + "\n";
    ghost var head := text;
    for j := 0 to |productUrls|
      invariant text == head + ProductLines(productUrls[..j])
    {
      var line := "  - " + productUrls[j] + "\n";
      assert ProductLines([productUrls[j]]) == line;
      ProductLinesAppend(productUrls[..j], [productUrls[j]]);
      assert productUrls[..j + 1] == productUrls[..j] + [productUrls[j]];
      text := text + line;
    }
    assert productUrls[..|productUrls|] == productUrls;
    text := text + "\n";
  }

  /** `generate_mapping_file`: every entry of the dict in order, each
      written by WriteEntry; the text written is MappingText. */
  method GenerateMappingFile(m: Entries) returns (file: string)
    ensures file == MappingText(m)
  {
    file := "";
    for i := 0 to |m|
      invariant file == MappingText(m[..i])
    {
      var entry := WriteEntry(m[i].0, m[i].1);
      file := file + entry;
      assert MappingText([m[i]]) == entry;
      MappingTextAppend(m[..i], [m[i]]);
      assert m[..i + 1] == m[..i] + [m[i]];
    }
    assert m[..|m|] == m;
  }

  // ---------------------------------------------------------------------
  // get_all_href_links
  // ---------------------------------------------------------------------

  /** `list(links)`: the set's elements, each once, in some order. */
  method ListOf(links: set<string>) returns (xs: seq<string>)
    ensures forall x :: x in xs <==> x in links
    ensures Distinct(xs)
    ensures |xs| == |links|
  {
    xs := [];
    var rest := links;
    while rest != {}
      invariant rest <= links
      invariant forall x :: x in links <==> x in xs || x in rest
      invariant forall x :: x in xs ==> x !in rest
      invariant Distinct(xs)
      invariant |xs| + |rest| == |links|
      decreases |rest|
    {
      var x :| x in rest;
      xs := xs + [x];
      rest := rest - {x};
    }
  }

  /** The call `get_all_href_links` makes on its fresh scraper: request 0,
      rotation every 5 requests, `max_retries = 3`, `max_scrolls = 10`, no
      link budget. */
  function HrefCall(join: (string, string) -> string, s: Script, agent: string, url: string): Call
  {
    Scrape(join, s, RobustScraper.RobustBudgets(Some(10), 3), 0, 5, true, agent, url)
  }

  /** Such a call always rotates first, and makes at most 11 extractions and
      at most 10 scrolls. */
  lemma HrefCallBounds(join: (string, string) -> string, s: Script, agent: string, url: string)
    ensures var c := HrefCall(join, s, agent, url);
      && c.rotated
      && multiset(c.events)[Extract] <= 11
      && multiset(c.events)[ScrollDown] <= 10
  {
    ScrapeBounds(join, s, RobustScraper.RobustBudgets(Some(10), 3), 0, 5, true, agent, url);
  }

  /** `get_all_href_links(session, url)`: a fresh robust scraper (headless,
      `max_retries = 3`, rotation every 5 requests) scrapes `url` with
      `max_scrolls = 10`; the result lists the links of that call, each
      once.  `events` are the driver calls made, constructor included. */
  method GetAllHrefLinks(url: string, s: Script, join: (string, string) -> string, pick: nat, rotationPick: nat)
    returns (links: seq<string>, ghost events: seq<Event>)
    ensures forall x :: x in links <==> x in HrefCall(join, s, Choose(RobustScraper.UserAgents, rotationPick), url).links
    ensures Distinct(links)
    ensures events == [Launch(Choose(RobustScraper.UserAgents, pick), true)]
                      + HrefCall(join, s, Choose(RobustScraper.UserAgents, rotationPick), url).events
  {
    var scraper := new RobustScraper.Scraper(true, 3, 5, pick);
    var found := scraper.ScrapeWebsite(url, Some(10), s, join, rotationPick);
    links := ListOf(found);
    events := scraper.Trace;
  }

  // ---------------------------------------------------------------------
  // process_website
  // ---------------------------------------------------------------------

  /** The links gathered from the grid pages `grid`, one
      `get_all_href_links` call per page in order, concatenated; None once
      a call raises. */
  function GridLinks(scrape: string -> Option<seq<string>>, grid: seq<string>): Option<seq<string>>
  {
    if grid == [] then Some([])
    else
      match GridLinks(scrape, grid[..|grid| - 1])
      case None => None
      case Some(links) =>
        match scrape(grid[|grid| - 1])
        case None => None
        case Some(found) => Some(links + found)
  }

  /** The grid links are None exactly when some page's call raises. */
  lemma {:induction false} GridLinksRaises(scrape: string -> Option<seq<string>>, grid: seq<string>)
    ensures GridLinks(scrape, grid).Some? <==> forall i :: 0 <= i < |grid| ==> scrape(grid[i]).Some?
    decreases |grid|
  {
    if grid != [] {
      var init := grid[..|grid| - 1];
      GridLinksRaises(scrape, init);
      assert forall i :: 0 <= i < |init| ==> init[i] == grid[i];
    }
  }

  /** The grid pages `get_all_href_links` is called on: all of them, or up
      to and including the first one that raises. */
  function GridVisited(scrape: string -> Option<seq<string>>, grid: seq<string>): (visited: seq<string>)
    ensures visited <= grid
    ensures GridLinks(scrape, grid).Some? ==> visited == grid
  {
    if grid == [] then []
    else
      var init := grid[..|grid| - 1];
      if GridLinks(scrape, init).None? then GridVisited(scrape, init) else grid
  }

  /** Once a call has raised, later grid pages are never visited. */
  lemma {:induction false} GridFailureStops(scrape: string -> Option<seq<string>>, a: seq<string>, b: seq<string>)
    requires GridLinks(scrape, a).None?
    ensures GridLinks(scrape, a + b).None?
    ensures GridVisited(scrape, a + b) == GridVisited(scrape, a)
    decreases |b|
  {
    if b != [] {
      var n := |b| - 1;
      GridFailureStops(scrape, a, b[..n]);
      assert (a + b)[..|a + b| - 1] == a + b[..n];
    } else {
      assert a + b == a;
    }
  }

  /** What one `process_website` call produced: the product URLs returned,
      the URLs given to `get_all_href_links` in order, and the lists given
      to the two classifiers in order. */
  datatype Outcome = Outcome(products: seq<string>, visited: seq<string>, batches: seq<seq<string>>)

  /** `process_website(session, url)` with `get_all_href_links` as `scrape`
      and `generate_product_grid_pages` / `generate_product_pages` as the
      classifiers; any exception (a None) returns []. */
  function Process(scrape: string -> Option<seq<string>>,
                   classifyGrid: seq<string> -> Option<seq<string>>,
                   classifyProducts: seq<string> -> Option<seq<string>>,
                   url: string): (r: Outcome)
    ensures |r.products| <= 20
    ensures 1 <= |r.visited| <= 4 && r.visited[0] == url
    ensures |r.batches| <= 2 && forall i :: 0 <= i < |r.batches| ==> |r.batches[i]| <= 20
    ensures scrape(url).None? ==> r == Outcome([], [url], [])
    ensures r.products != [] ==> |r.batches| == 2 && classifyProducts(r.batches[1]).Some?
    ensures r.products != [] ==>
      && scrape(url).Some?
      && classifyGrid(Take(scrape(url).value, 20)).Some?
      && GridLinks(scrape, Take(classifyGrid(Take(scrape(url).value, 20)).value, 3)).Some?
      && r.products == Take(classifyProducts(r.batches[1]).value, 20)
  {
    match scrape(url)
    case None => Outcome([], [url], [])
    case Some(hrefs) =>
      var gridBatch := Take(hrefs, 20);
      match classifyGrid(gridBatch)
      case None => Outcome([], [url], [gridBatch])
      case Some(gridPages) =>
        var pages := Take(gridPages, 3);
        var visited := [url] + GridVisited(scrape, pages);
        match GridLinks(scrape, pages)
        case None => Outcome([], visited, [gridBatch])
        case Some(all) =>
          var productBatch := Take(all, 20);
          match classifyProducts(productBatch)
          case None => Outcome([], visited, [gridBatch, productBatch])
          case Some(products) => Outcome(Take(products, 20), visited, [gridBatch, productBatch])
  }

  /** The grid pages re-scraped are a prefix of the first three pages the
      grid classifier returned, and the product classifier sees the first
      20 of their links, in order. */
  lemma ProcessFollowsGrid(scrape: string -> Option<seq<string>>,
                           classifyGrid: seq<string> -> Option<seq<string>>,
                           classifyProducts: seq<string> -> Option<seq<string>>,
                           url: string)
    requires scrape(url).Some? && classifyGrid(Take(scrape(url).value, 20)).Some?
    ensures var r := Process(scrape, classifyGrid, classifyProducts, url);
      var pages := Take(classifyGrid(Take(scrape(url).value, 20)).value, 3);
      && r.batches[0] == Take(scrape(url).value, 20)
      && r.visited[1..] <= pages
      && (GridLinks(scrape, pages).Some? ==>
            r.visited[1..] == pages && r.batches[1] == Take(GridLinks(scrape, pages).value, 20))
  {
    var r := Process(scrape, classifyGrid, classifyProducts, url);
    var pages := Take(classifyGrid(Take(scrape(url).value, 20)).value, 3);
    assert r.visited == [url] + GridVisited(scrape, pages);
    assert r.visited[1..] == GridVisited(scrape, pages);
  }

  /** The inner loop of step 3 of `process_website`: `get_all_href_links`
      on every URL of one chunk, extending the grid links gathered from the
      pages `done` before it; a raise (None) abandons the rest. */
  method ScrapeChunk(scrape: string -> Option<seq<string>>, ghost done: seq<string>, chunk: seq<string>, gathered: seq<string>)
    returns (links: Option<seq<string>>, ghost visited: seq<string>)
    requires GridLinks(scrape, done) == Some(gathered)
    ensures links == GridLinks(scrape, done + chunk)
    ensures visited == GridVisited(scrape, done + chunk)
  {
    var acc := gathered;
    visited := GridVisited(scrape, done);
    assert done + chunk[..0] == done;
    for j := 0 to |chunk|
      invariant GridLinks(scrape, done + chunk[..j]) == Some(acc)
      invariant visited == GridVisited(scrape, done + chunk[..j])
    {
      var gridUrl := chunk[j];
      assert (done + chunk[..j + 1])[..|done + chunk[..j + 1]| - 1] == done + chunk[..j];
      visited := visited + [gridUrl];
      var gridLinks := scrape(gridUrl);
      if gridLinks.None? {
        GridFailureStops(scrape, done + chunk[..j + 1], chunk[j + 1..]);
        assert done + chunk[..j + 1] + chunk[j + 1..] == done + chunk;
        return None, visited;
      }
      acc := acc + gridLinks.value;
    }
    assert chunk[..|chunk|] == chunk;
    links := Some(acc);
  }

  /** Step 3 of `process_website`: `get_all_href_links` on every grid page,
      chunk by chunk (`chunk_list(pages, 40)`), extending the list of grid
      links; a raise (None) abandons the rest. */
  method ScrapeGridPages(scrape: string -> Option<seq<string>>, pages: seq<string>)
    returns (allGridPageLinks: Option<seq<string>>, ghost visited: seq<string>)
    ensures allGridPageLinks == GridLinks(scrape, pages)
    ensures visited == GridVisited(scrape, pages)
  {
    var chunks := ChunkList(pages, 40).value;
    ChunksRebuild(pages, 40, 0);
    var links: seq<string> := [];
    visited := [];
    for c := 0 to |chunks|
      invariant GridLinks(scrape, Flatten(chunks[..c])) == Some(links)
      invariant visited == GridVisited(scrape, Flatten(chunks[..c]))
    {
      ghost var done := Flatten(chunks[..c]);
      var chunkLinks;
      chunkLinks, visited := ScrapeChunk(scrape, done, chunks[c], links);
      FlattenAppend(chunks[..c], [chunks[c]]);
      assert chunks[..c + 1] == chunks[..c] + [chunks[c]];
      assert Flatten([chunks[c]]) == chunks[c];
      if chunkLinks.None? {
        FlattenAppend(chunks[..c + 1], chunks[c + 1..]);
        assert chunks == chunks[..c + 1] + chunks[c + 1..];
        GridFailureStops(scrape, done + chunks[c], Flatten(chunks[c + 1..]));
        return None, visited;
      }
      links := chunkLinks.value;
    }
    assert chunks[..|chunks|] == chunks;
    allGridPageLinks := Some(links);
  }

  /** `process_website`: scrape the site, classify its first 20 links into
      grid pages, scrape the first three grid pages, classify the first 20
      of their links and return the first 20 product pages; any exception
      returns [].  The outcome is Process's. */
  method ProcessWebsite(scrape: string -> Option<seq<string>>,
                        classifyGrid: seq<string> -> Option<seq<string>>,
                        classifyProducts: seq<string> -> Option<seq<string>>,
                        url: string)
    returns (products: seq<string>, ghost visited: seq<string>, ghost batches: seq<seq<string>>)
    ensures products == Process(scrape, classifyGrid, classifyProducts, url).products
    ensures Outcome(products, visited, batches) == Process(scrape, classifyGrid, classifyProducts, url)
  {
    products, visited, batches := [], [url], [];
    var hrefLinks := scrape(url);
    if hrefLinks.None? {
      return;
    }
    var gridBatch := Take(hrefLinks.value, 20);
    batches := [gridBatch];
    var gridPages := classifyGrid(gridBatch);
    if gridPages.None? {
      return;
    }
    var allGridPageLinks, gridVisited := ScrapeGridPages(scrape, Take(gridPages.value, 3));
    visited := visited + gridVisited;
    if allGridPageLinks.None? {
      return;
    }
    var productBatch := Take(allGridPageLinks.value, 20);
    batches := batches + [productBatch];
    var productPages := classifyProducts(productBatch);
    if productPages.None? {
      return;
    }
    products := Take(productPages.value, 20);
  }
}
