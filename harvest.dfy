/** The link-harvest state machine of `DynamicScraper.scrape_website` as a
    specification: what one call does, given the browser's answers.  Both
    scraper classes are proved against these functions; the lemmas state
    the stopping policy, the monotone union of links, the rotation rule and
    the release of the driver on every exit. */
module Harvest {
  import opened Browser

  /** The driver calls one scraper makes, in order. */
  datatype Event = Quit | Launch(agent: string, headless: bool) | Navigate(url: string) | Extract | ScrollDown

  /** The per-call limits and the scraper's `max_retries`: `max_scrolls`
      (None or an int) and the link-budget test on the links collected so
      far.  The loop's lemmas hold for any such test; both scrapers use
      LinkTest(max_links). */
  datatype Limits = Limits(maxScrolls: Option<int>, full: set<string> -> bool, maxRetries: int)

  /** Why the call ended. */
  datatype Exit = LinkBudget | ScrollBudget | Stagnation | ExtractRaised | ScrollRaised | StartRaised

  /** What the loop produced: the links, how it ended, and the final
      `scroll_count` and `retry_count`.  Its driver calls follow from these
      (see LoopCalls). */
  datatype Run = Run(links: set<string>, exit: Exit, scrollCount: nat, retryCount: nat)

  /** What one call of `scrape_website` produced: its links and driver calls,
      how it ended, whether the user agent was rotated and whether
      `driver.get` returned normally. */
  datatype Call = Call(links: set<string>, events: seq<Event>, exit: Exit, rotated: bool, navigated: bool)

  function Max(a: int, b: int): int
  {
    if a < b then b else a
  }

  /** Python truthiness of an optional limit: None and 0 both mean "no limit". */
  predicate Truthy(limit: Option<int>)
  {
    limit.Some? && limit.value != 0
  }

  /** `max_links and len(all_links) >= max_links` */
  predicate LinkBudgetReached(maxLinks: Option<int>, links: set<string>)
  {
    Truthy(maxLinks) && |links| >= maxLinks.value
  }

  /** The link-budget test for `max_links`. */
  function LinkTest(maxLinks: Option<int>): set<string> -> bool
  {
    links => LinkBudgetReached(maxLinks, links)
  }

  /** The limits of one call `scrape_website(url, max_scrolls, max_links)`
      on a scraper with `max_retries`. */
  function Budgets(maxScrolls: Option<int>, maxLinks: Option<int>, maxRetries: int): Limits
  {
    Limits(maxScrolls, LinkTest(maxLinks), maxRetries)
  }

  /** `max_scrolls and scroll_count >= max_scrolls` */
  predicate ScrollBudgetReached(maxScrolls: Option<int>, scrollCount: nat)
  {
    Truthy(maxScrolls) && scrollCount >= maxScrolls.value
  }

  /** Whether the pass that ended the loop scrolled: it did when it ended on
      stagnation or on a failed scroll. */
  predicate EndsWithScroll(exit: Exit)
  {
    exit == Stagnation || exit == ScrollRaised
  }

  /** The outcome of one pass through the loop body: a `break` (or a raise)
      ending the call, or `scroll_count += 1` and the next pass. */
  datatype Turn = Stop(run: Run) | Continue(retry: nat, links: set<string>)

  /** One pass through the body of the `while True` loop at `scroll_count = k`:
      extract and merge, check the link budget, then the scroll budget, then
      scroll and update the stagnation counter.  A pass that goes on either
      consumed a scripted scroll or brought `retry_count` closer to
      `max_retries`, which is why the loop ends. */
  function Iterate(join: (string, string) -> string, s: Script, lim: Limits, k: nat, retry: nat, acc: set<string>): (t: Turn)
    ensures t.Continue? ==> k < |s.scrolls| || (t.retry == retry + 1 && t.retry < lim.maxRetries)
    ensures t.Continue? ==> t.links == acc + Extracted(join, ShotAt(s, k))
    ensures t.Stop? ==> t.run.scrollCount == k && t.run.exit != StartRaised
    ensures t.Stop? ==>
      t.run.links == (if t.run.exit == ExtractRaised then acc else acc + Extracted(join, ShotAt(s, k)))
  {
    var shot := ShotAt(s, k);
    if shot.Broken? then Stop(Run(acc, ExtractRaised, k, retry))
    else
      var links := acc + Extracted(join, shot);
      if lim.full(links) then Stop(Run(links, LinkBudget, k, retry))
      else if ScrollBudgetReached(lim.maxScrolls, k) then Stop(Run(links, ScrollBudget, k, retry))
      else
        var m := ScrollAt(s, k);
        if m.Failed? then Stop(Run(links, ScrollRaised, k, retry))
        else if HasNewContent(m) then Continue(0, links)
        // the stagnation break comes before `scroll_count += 1`
        else if retry + 1 >= lim.maxRetries then Stop(Run(links, Stagnation, k, retry + 1))
        else Continue(retry + 1, links)
  }

  /** The `while True` loop, entered with `scroll_count = k`,
      `retry_count = retry` and `all_links = acc`.  Pass k makes the k-th
      extraction and, unless a budget stops it, the k-th scroll. */
  function Loop(join: (string, string) -> string, s: Script, lim: Limits, k: nat, retry: nat, acc: set<string>): Run
    decreases (if k <= |s.scrolls| then |s.scrolls| - k else 0),
              (if retry < lim.maxRetries then lim.maxRetries - retry else 0)
  {
    match Iterate(join, s, lim, k, retry, acc)
    case Stop(run) => run
    case Continue(r, links) => Loop(join, s, lim, k + 1, r, links)
  }

  /** n complete passes of the loop body: an extraction then a scroll, n times. */
  function Passes(n: nat): seq<Event>
  {
    if n == 0 then [] else Passes(n - 1) + [Extract, ScrollDown]
  }

  /** The driver calls of a loop entered at `scroll_count = 0`: one complete
      pass per increment of `scroll_count`, then the pass that ended it. */
  function LoopCalls(run: Run): seq<Event>
  {
    Passes(run.scrollCount) + (if EndsWithScroll(run.exit) then [Extract, ScrollDown] else [Extract])
  }

  /** `random.choice(user_agents)` with the random draw as the parameter
      `pick`: some agent of the (non-empty) pool, and every agent of the pool
      is drawn by some pick. */
  function Choose(pool: seq<string>, pick: nat): (agent: string)
    requires |pool| > 0
    ensures agent in pool
    ensures pick < |pool| ==> agent == pool[pick]
  {
    pool[pick % |pool|]
  }

  /** Python's `%`: the remainder takes the sign of the divisor (Dafny's `%`
      is Euclidean, its remainder is never negative), and `a - r` is the
      floor of a / b times b; that floor is Dafny's quotient, less one when
      b is negative and does not divide a.  A zero divisor raises
      ZeroDivisionError in Python, so it is excluded here and handled by
      the callers. */
  function PyMod(a: int, b: int): (r: int)
    requires b != 0
    ensures b > 0 ==> 0 <= r < b
    ensures b < 0 ==> b < r <= 0
    ensures r == 0 <==> a % b == 0
    ensures a - r == (a / b - (if b < 0 && a % b != 0 then 1 else 0)) * b
  {
    assert a == (a / b) * b + a % b;
    var e := a % b;
    if e != 0 && b < 0 then e + b else e
  }

  /** `request_count % user_agent_rotation_frequency == 0` with a non-zero
      frequency (a zero frequency raises instead): the frequency divides
      `request_count`, whatever their signs. */
  predicate Rotates(requestCount: int, frequency: int)
    ensures Rotates(requestCount, frequency) <==> frequency != 0 && requestCount % frequency == 0
  {
    frequency != 0 && PyMod(requestCount, frequency) == 0
  }

  /** What happens inside the `try` before the loop: the driver calls made
      (the rotation's quit and relaunch, then `driver.get`), whether the user
      agent rotated, and whether `driver.get` returned normally. */
  datatype Start = Start(events: seq<Event>, rotated: bool, navigated: bool)

  /** `rotate_user_agent_if_needed()` then `driver.get(url)`, on a scraper
      whose `request_count`, `user_agent_rotation_frequency` and driver
      liveness are given; `agent` is the user agent a rotation would draw. */
  function Opening(s: Script, requestCount: int, frequency: int, alive: bool, agent: string, url: string): Start
  {
    if frequency == 0 then
      // `request_count % 0` raises ZeroDivisionError
      Start([], false, false)
    else if !Rotates(requestCount, frequency) then
      // no rotation; `driver.get` on a quit driver raises as well
      Start([Navigate(url)], false, alive && s.navigate == Succeeds)
    else if s.launch == Raises then
      Start([Quit], true, false)
    else
      Start([Quit, Launch(agent, true), Navigate(url)], true, s.navigate == Succeeds)
  }

  /** One whole call of `scrape_website(url, max_scrolls, max_links)`: the
      opening, then the loop if `driver.get` returned normally; every path,
      normal or raised, ends with `driver.quit()` from `finally`. */
  function Scrape(join: (string, string) -> string, s: Script, lim: Limits,
                  requestCount: int, frequency: int, alive: bool, agent: string, url: string): Call
  {
    Conclude(Opening(s, requestCount, frequency, alive, agent, url), Loop(join, s, lim, 0, 0, {}))
  }

  /** The call, given its opening and what the loop would do once started:
      the loop runs only if `driver.get` returned normally, and `finally`
      quits the driver. */
  function Conclude(start: Start, run: Run): Call
  {
    if !start.navigated then
      Call({}, start.events + [Quit], StartRaised, start.rotated, false)
    else
      Call(run.links, start.events + LoopCalls(run) + [Quit], run.exit, start.rotated, true)
  }

  /** The links extracted by the extractions numbered lo .. hi-1. */
  function Gathered(join: (string, string) -> string, s: Script, lo: nat, hi: nat): set<string>
    decreases hi - lo
  {
    if hi <= lo then {} else Extracted(join, ShotAt(s, lo)) + Gathered(join, s, lo + 1, hi)
  }

  // ---------------------------------------------------------------------
  // all_links: never shrinks, and is the union of every extraction made.
  // ---------------------------------------------------------------------

  /** The links a run returns are exactly what it started with plus the
      results of its successful extractions, numbers k up to the last one
      (the last extraction contributes nothing when it raised); the loop
      never ends on the opening's exit. */
  lemma {:induction false} LoopLinks(join: (string, string) -> string, s: Script, lim: Limits, k: nat, retry: nat, acc: set<string>)
    ensures var run := Loop(join, s, lim, k, retry, acc);
      && run.scrollCount >= k
      && run.exit != StartRaised
      && run.links == acc + Gathered(join, s, k, run.scrollCount + (if run.exit == ExtractRaised then 0 else 1))
    decreases (if k <= |s.scrolls| then |s.scrolls| - k else 0),
              (if retry < lim.maxRetries then lim.maxRetries - retry else 0)
  {
    var t := Iterate(join, s, lim, k, retry, acc);
    if t.Continue? {
      LoopLinks(join, s, lim, k + 1, t.retry, t.links);
      var rest := Loop(join, s, lim, k + 1, t.retry, t.links);
      var hi := rest.scrollCount + (if rest.exit == ExtractRaised then 0 else 1);
      assert Gathered(join, s, k, hi) == Extracted(join, ShotAt(s, k)) + Gathered(join, s, k + 1, hi);
    } else {
      assert Gathered(join, s, k + 1, k + 1) == {};
    }
  }

  /** `all_links` never loses a link: the result contains what the loop
      started with. */
  lemma LoopKeeps(join: (string, string) -> string, s: Script, lim: Limits, k: nat, retry: nat, acc: set<string>)
    ensures acc <= Loop(join, s, lim, k, retry, acc).links
  {
    LoopLinks(join, s, lim, k, retry, acc);
  }

  /** Counting the calls: n complete passes hold n extractions, n scrolls
      and nothing else. */
  lemma {:induction false} PassesCount(n: nat)
    ensures multiset(Passes(n))[Extract] == n
    ensures multiset(Passes(n))[ScrollDown] == n
    ensures forall e :: e in Passes(n) ==> e == Extract || e == ScrollDown
  {
    if n > 0 {
      PassesCount(n - 1);
      assert multiset(Passes(n)) == multiset(Passes(n - 1)) + multiset([Extract, ScrollDown]);
    }
  }

  /** A loop makes one extraction per pass, `scroll_count + 1` in all, and
      one scroll per pass that got past the budget checks; it never quits,
      launches or navigates, and its last call is the one that ended it. */
  lemma LoopCallsCount(run: Run)
    ensures multiset(LoopCalls(run))[Extract] == run.scrollCount + 1
    ensures multiset(LoopCalls(run))[ScrollDown] == run.scrollCount + (if EndsWithScroll(run.exit) then 1 else 0)
    ensures forall e :: e in LoopCalls(run) ==> e == Extract || e == ScrollDown
    ensures LoopCalls(run)[|LoopCalls(run)| - 1] == (if EndsWithScroll(run.exit) then ScrollDown else Extract)
  {
    PassesCount(run.scrollCount);
    var last := if EndsWithScroll(run.exit) then [Extract, ScrollDown] else [Extract];
    assert multiset(LoopCalls(run)) == multiset(Passes(run.scrollCount)) + multiset(last);
  }

  // ---------------------------------------------------------------------
  // The link budget.
  // ---------------------------------------------------------------------

  /** The loop ends on the link budget exactly after an extraction whose
      merge makes the test hold, before any scroll; on every other exit the
      test does not hold of the result (or nothing was merged).  It stops at
      the first such extraction: after none of the earlier ones, k up to the
      last, did the links merged so far pass the test. */
  lemma {:induction false} LinkBudgetStops(join: (string, string) -> string, s: Script, lim: Limits, k: nat, retry: nat, acc: set<string>)
    ensures var run := Loop(join, s, lim, k, retry, acc);
      && (run.exit == LinkBudget ==> lim.full(run.links))
      && (run.exit != LinkBudget ==> run.links == acc || !lim.full(run.links))
      && (forall hi :: k < hi <= run.scrollCount ==> !lim.full(acc + Gathered(join, s, k, hi)))
    decreases (if k <= |s.scrolls| then |s.scrolls| - k else 0),
              (if retry < lim.maxRetries then lim.maxRetries - retry else 0)
  {
    var t := Iterate(join, s, lim, k, retry, acc);
    if t.Continue? {
      LinkBudgetStops(join, s, lim, k + 1, t.retry, t.links);
      var run := Loop(join, s, lim, k + 1, t.retry, t.links);
      forall hi | k < hi <= run.scrollCount
        ensures !lim.full(acc + Gathered(join, s, k, hi))
      {
        assert Gathered(join, s, k, hi) == Extracted(join, ShotAt(s, k)) + Gathered(join, s, k + 1, hi);
        if hi == k + 1 {
          assert Gathered(join, s, k + 1, hi) == {};
          assert acc + Gathered(join, s, k, hi) == t.links;
        } else {
          assert acc + Gathered(join, s, k, hi) == t.links + Gathered(join, s, k + 1, hi);
        }
      }
    }
  }

  /** A call with `max_links = n` stops on the link budget only once it holds
      n links or more, and at the first extraction that brings it there:
      every earlier extraction left fewer than n.  Otherwise it returns fewer
      than n (or nothing); a falsy `max_links` (None or 0) never stops it. */
  lemma MaxLinksStops(join: (string, string) -> string, s: Script, maxScrolls: Option<int>, maxLinks: Option<int>, maxRetries: int)
    ensures var run := Loop(join, s, Budgets(maxScrolls, maxLinks, maxRetries), 0, 0, {});
      && (run.exit == LinkBudget ==> Truthy(maxLinks) && |run.links| >= maxLinks.value)
      && (run.exit != LinkBudget && Truthy(maxLinks) ==> run.links == {} || |run.links| < maxLinks.value)
      && (!Truthy(maxLinks) ==> run.exit != LinkBudget)
      && (Truthy(maxLinks) ==> forall hi :: 0 < hi <= run.scrollCount ==> |Gathered(join, s, 0, hi)| < maxLinks.value)
  {
    var lim := Budgets(maxScrolls, maxLinks, maxRetries);
    LinkBudgetStops(join, s, lim, 0, 0, {});
    var run := Loop(join, s, lim, 0, 0, {});
    forall hi | 0 < hi <= run.scrollCount
      ensures Truthy(maxLinks) ==> |Gathered(join, s, 0, hi)| < maxLinks.value
    {
      assert {} + Gathered(join, s, 0, hi) == Gathered(join, s, 0, hi);
    }
  }

  /** A first extraction that already yields `max_links` links ends the call
      after exactly one extraction and no scroll. */
  lemma FirstPassFillsBudget(join: (string, string) -> string, s: Script, maxScrolls: Option<int>, maxLinks: Option<int>, maxRetries: int)
    requires !ShotAt(s, 0).Broken?
    requires Truthy(maxLinks) && |Extracted(join, ShotAt(s, 0))| >= maxLinks.value
    ensures var run := Loop(join, s, Budgets(maxScrolls, maxLinks, maxRetries), 0, 0, {});
      run.exit == LinkBudget && LoopCalls(run) == [Extract] && run.links == Extracted(join, ShotAt(s, 0))
  {
    assert {} + Extracted(join, ShotAt(s, 0)) == Extracted(join, ShotAt(s, 0));
  }

  // ---------------------------------------------------------------------
  // The scroll budget.
  // ---------------------------------------------------------------------

  /** Entered at or below a truthy `max_scrolls = m`, the loop never counts
      past max(m, 0), scrolls only below m, and ends on the budget exactly
      at max(m, 0). */
  lemma {:induction false} ScrollBudgetHolds(join: (string, string) -> string, s: Script, lim: Limits, k: nat, retry: nat, acc: set<string>)
    requires Truthy(lim.maxScrolls) && k <= Max(lim.maxScrolls.value, 0)
    ensures var run := Loop(join, s, lim, k, retry, acc);
      && run.scrollCount <= Max(lim.maxScrolls.value, 0)
      && (EndsWithScroll(run.exit) ==> run.scrollCount < lim.maxScrolls.value)
      && (run.exit == ScrollBudget ==> run.scrollCount == Max(lim.maxScrolls.value, 0))
    decreases (if k <= |s.scrolls| then |s.scrolls| - k else 0),
              (if retry < lim.maxRetries then lim.maxRetries - retry else 0)
  {
    var t := Iterate(join, s, lim, k, retry, acc);
    if t.Continue? {
      ScrollBudgetHolds(join, s, lim, k + 1, t.retry, t.links);
    }
  }

  /** With a truthy `max_scrolls = m` a call makes at most max(m,0)+1
      extractions and at most max(m,0) scrolls; when the budget is what
      stops it, `scroll_count` ends at exactly max(m,0). */
  lemma ScrollBudgetBounds(join: (string, string) -> string, s: Script, lim: Limits)
    requires Truthy(lim.maxScrolls)
    ensures var run := Loop(join, s, lim, 0, 0, {});
      && multiset(LoopCalls(run))[Extract] <= Max(lim.maxScrolls.value, 0) + 1
      && multiset(LoopCalls(run))[ScrollDown] <= Max(lim.maxScrolls.value, 0)
      && (run.exit == ScrollBudget ==> run.scrollCount == Max(lim.maxScrolls.value, 0))
  {
    var run := Loop(join, s, lim, 0, 0, {});
    LoopCallsCount(run);
    ScrollBudgetHolds(join, s, lim, 0, 0, {});
  }

  /** The opening makes no extraction and no scroll. */
  lemma OpeningNeitherExtractsNorScrolls(s: Script, requestCount: int, frequency: int, alive: bool, agent: string, url: string)
    ensures var start := Opening(s, requestCount, frequency, alive, agent, url);
      multiset(start.events)[Extract] == 0 && multiset(start.events)[ScrollDown] == 0
  {
    var start := Opening(s, requestCount, frequency, alive, agent, url);
    assert Extract !in start.events && ScrollDown !in start.events;
  }

  /** How often a call makes the driver call e: as often as its opening,
      plus its loop's when the loop ran, plus the final quit. */
  lemma ConcludeCounts(start: Start, run: Run, e: Event)
    ensures multiset(Conclude(start, run).events)[e] ==
      multiset(start.events)[e] + (if start.navigated then multiset(LoopCalls(run))[e] else 0) + (if e == Quit then 1 else 0)
  {
    var c := Conclude(start, run);
    if start.navigated {
      assert c.events == start.events + LoopCalls(run) + [Quit];
      assert multiset(c.events) == multiset(start.events) + multiset(LoopCalls(run)) + multiset([Quit]);
    } else {
      assert multiset(c.events) == multiset(start.events) + multiset([Quit]);
    }
  }

  /** The same bounds for a whole call: the opening neither extracts nor
      scrolls. */
  lemma ScrapeBounds(join: (string, string) -> string, s: Script, lim: Limits,
                     requestCount: int, frequency: int, alive: bool, agent: string, url: string)
    requires Truthy(lim.maxScrolls)
    ensures var c := Scrape(join, s, lim, requestCount, frequency, alive, agent, url);
      && multiset(c.events)[Extract] <= Max(lim.maxScrolls.value, 0) + 1
      && multiset(c.events)[ScrollDown] <= Max(lim.maxScrolls.value, 0)
  {
    var start := Opening(s, requestCount, frequency, alive, agent, url);
    var run := Loop(join, s, lim, 0, 0, {});
    ScrollBudgetBounds(join, s, lim);
    OpeningNeitherExtractsNorScrolls(s, requestCount, frequency, alive, agent, url);
    ConcludeCounts(start, run, Extract);
    ConcludeCounts(start, run, ScrollDown);
  }

  /** `max_scrolls = 0` behaves exactly like `max_scrolls = None`: 0 is falsy. */
  lemma {:induction false} ZeroScrollsMeansUnlimited(join: (string, string) -> string, s: Script, lim: Limits, k: nat, retry: nat, acc: set<string>)
    requires lim.maxScrolls == Some(0)
    ensures Loop(join, s, lim, k, retry, acc) == Loop(join, s, lim.(maxScrolls := None), k, retry, acc)
    decreases (if k <= |s.scrolls| then |s.scrolls| - k else 0),
              (if retry < lim.maxRetries then lim.maxRetries - retry else 0)
  {
    var t := Iterate(join, s, lim, k, retry, acc);
    assert Iterate(join, s, lim.(maxScrolls := None), k, retry, acc) == t;
    if t.Continue? {
      ZeroScrollsMeansUnlimited(join, s, lim, k + 1, t.retry, t.links);
    }
  }

  /** The loop depends on the link-budget test only through its answers. */
  lemma {:induction false} SameTestSameLoop(join: (string, string) -> string, s: Script, lim: Limits, full: set<string> -> bool,
                                            k: nat, retry: nat, acc: set<string>)
    requires forall xs :: lim.full(xs) == full(xs)
    ensures Loop(join, s, lim, k, retry, acc) == Loop(join, s, lim.(full := full), k, retry, acc)
    decreases (if k <= |s.scrolls| then |s.scrolls| - k else 0),
              (if retry < lim.maxRetries then lim.maxRetries - retry else 0)
  {
    var t := Iterate(join, s, lim, k, retry, acc);
    assert Iterate(join, s, lim.(full := full), k, retry, acc) == t;
    if t.Continue? {
      SameTestSameLoop(join, s, lim, full, k + 1, t.retry, t.links);
    }
  }

  /** `max_links = 0` behaves exactly like `max_links = None`, and
      `max_scrolls = 0` exactly like `max_scrolls = None`: both are falsy. */
  lemma ZeroMeansUnlimited(join: (string, string) -> string, s: Script, maxScrolls: Option<int>, maxLinks: Option<int>, maxRetries: int)
    ensures Loop(join, s, Budgets(maxScrolls, Some(0), maxRetries), 0, 0, {})
         == Loop(join, s, Budgets(maxScrolls, None, maxRetries), 0, 0, {})
    ensures Loop(join, s, Budgets(Some(0), maxLinks, maxRetries), 0, 0, {})
         == Loop(join, s, Budgets(None, maxLinks, maxRetries), 0, 0, {})
  {
    SameTestSameLoop(join, s, Budgets(maxScrolls, Some(0), maxRetries), LinkTest(None), 0, 0, {});
    ZeroScrollsMeansUnlimited(join, s, Budgets(Some(0), maxLinks, maxRetries), 0, 0, {});
  }

  // ---------------------------------------------------------------------
  // Stagnation.
  // ---------------------------------------------------------------------

  /** Whether the i-th scroll completed and left the height unchanged. */
  predicate Flat(s: Script, i: nat)
  {
    ScrollAt(s, i).Heights? && !HasNewContent(ScrollAt(s, i))
  }

  /** `retry_count` is the number of consecutive scrolls, ending with the
      latest, that left the height unchanged, and is reset by any change.
      On the stagnation exit it has reached max(max_retries, 1), and that
      many scrolls ending with the last one changed nothing. */
  lemma {:induction false} StagnationIsConsecutive(join: (string, string) -> string, s: Script, lim: Limits, k: nat, retry: nat, acc: set<string>)
    requires retry <= k && retry < Max(lim.maxRetries, 1)
    requires forall i :: k - retry <= i < k ==> Flat(s, i)
    ensures var run := Loop(join, s, lim, k, retry, acc);
      run.exit == Stagnation ==>
        && run.retryCount == Max(lim.maxRetries, 1)
        && run.retryCount <= run.scrollCount + 1
        && forall i :: run.scrollCount + 1 - run.retryCount <= i <= run.scrollCount ==> Flat(s, i)
    decreases (if k <= |s.scrolls| then |s.scrolls| - k else 0),
              (if retry < lim.maxRetries then lim.maxRetries - retry else 0)
  {
    var t := Iterate(join, s, lim, k, retry, acc);
    if t.Continue? {
      if t.retry != 0 {
        assert Flat(s, k);
      }
      StagnationIsConsecutive(join, s, lim, k + 1, t.retry, t.links);
    }
  }

  /** Some scroll among the `r` ending with the j-th changed the height
      (or raised). */
  predicate Interrupted(s: Script, r: int, j: nat)
  {
    exists i: nat :: j + 1 - r <= i <= j && !Flat(s, i)
  }

  /** The loop stops on stagnation at the first run of max(max_retries, 1)
      unchanged scrolls: every pass that went on had, among the last
      max(max_retries, 1) scrolls, one that changed the height.  Entered
      with `retry_count` counting exactly the unchanged scrolls just before
      pass k (the one before them changed the height). */
  lemma {:induction false} StagnationIsFirst(join: (string, string) -> string, s: Script, lim: Limits, k: nat, retry: nat, acc: set<string>)
    requires retry <= k && retry < Max(lim.maxRetries, 1)
    requires forall i :: k - retry <= i < k ==> Flat(s, i)
    requires retry < k ==> !Flat(s, k - retry - 1)
    ensures var run := Loop(join, s, lim, k, retry, acc);
      forall j :: k <= j < run.scrollCount && j + 1 >= Max(lim.maxRetries, 1) ==> Interrupted(s, Max(lim.maxRetries, 1), j)
    decreases (if k <= |s.scrolls| then |s.scrolls| - k else 0),
              (if retry < lim.maxRetries then lim.maxRetries - retry else 0)
  {
    var t := Iterate(join, s, lim, k, retry, acc);
    if t.Continue? {
      var r := Max(lim.maxRetries, 1);
      if t.retry == 0 {
        assert !Flat(s, k);
      } else {
        assert Flat(s, k);
      }
      StagnationIsFirst(join, s, lim, k + 1, t.retry, t.links);
      if k + 1 >= r {
        if t.retry == 0 {
          assert Interrupted(s, r, k);
        } else {
          assert !Flat(s, k - retry - 1);
          assert Interrupted(s, r, k);
        }
      }
    }
  }

  /** Once the height stops changing from scroll g on, the loop ends with
      `scroll_count` at most g + max(max_retries, 1) - 1, so after at most
      g + max(max_retries, 1) scrolls. */
  lemma {:induction false} StagnationBound(join: (string, string) -> string, s: Script, lim: Limits, g: nat, k: nat, retry: nat, acc: set<string>)
    requires forall i :: g <= i < |s.scrolls| ==> s.scrolls[i].Heights? && !HasNewContent(s.scrolls[i])
    requires retry < Max(lim.maxRetries, 1)
    ensures var run := Loop(join, s, lim, k, retry, acc);
      run.scrollCount <= Max(g, k) + Max(lim.maxRetries, 1) - 1 - (if k >= g then retry else 0)
    decreases (if k <= |s.scrolls| then |s.scrolls| - k else 0),
              (if retry < lim.maxRetries then lim.maxRetries - retry else 0)
  {
    var t := Iterate(join, s, lim, k, retry, acc);
    if t.Continue? {
      StagnationBound(join, s, lim, g, k + 1, t.retry, t.links);
    }
  }

  /** A page whose height never changes, with `max_retries = 3`, no scroll
      budget and a link budget that never fills: exactly three extractions
      and three scrolls, and `scroll_count` ends at 2 because the stagnation
      break skips the last increment. */
  lemma FlatPageStopsAfterThreeScrolls(join: (string, string) -> string, s: Script, lim: Limits)
    requires s.scrolls == [] && forall i :: 0 <= i < |s.shots| ==> !s.shots[i].Broken?
    requires lim.maxRetries == 3 && !Truthy(lim.maxScrolls) && forall xs :: !lim.full(xs)
    ensures var run := Loop(join, s, lim, 0, 0, {});
      && run.exit == Stagnation && run.scrollCount == 2 && run.retryCount == 3
      && LoopCalls(run) == [Extract, ScrollDown, Extract, ScrollDown, Extract, ScrollDown]
  {
    var l0 := {} + Extracted(join, ShotAt(s, 0));
    var l1 := l0 + Extracted(join, ShotAt(s, 1));
    var l2 := l1 + Extracted(join, ShotAt(s, 2));
    assert Iterate(join, s, lim, 0, 0, {}) == Continue(1, l0);
    assert Iterate(join, s, lim, 1, 1, l0) == Continue(2, l1);
    assert Iterate(join, s, lim, 2, 2, l1) == Stop(Run(l2, Stagnation, 2, 3));
    assert Loop(join, s, lim, 1, 1, l0) == Loop(join, s, lim, 2, 2, l1) == Run(l2, Stagnation, 2, 3);
    assert Passes(2) == [Extract, ScrollDown, Extract, ScrollDown];
  }

  /** Without a scroll budget and with a link budget that never fills, a
      page whose height changes on every scroll keeps the loop going: it
      scrolls as many times as the page grows, with no bound of its own.
      (The script is finite, so the loop here still ends; a live page that
      never stops growing keeps the source's loop running forever.) */
  lemma {:induction false} GrowingPageKeepsScrolling(join: (string, string) -> string, s: Script, lim: Limits,
                                                     k: nat, retry: nat, acc: set<string>)
    requires !Truthy(lim.maxScrolls) && forall xs :: !lim.full(xs)
    requires forall i :: k <= i < |s.scrolls| ==>
      !ShotAt(s, i).Broken? && s.scrolls[i].Heights? && HasNewContent(s.scrolls[i])
    ensures Loop(join, s, lim, k, retry, acc).scrollCount >= |s.scrolls|
    decreases (if k <= |s.scrolls| then |s.scrolls| - k else 0),
              (if retry < lim.maxRetries then lim.maxRetries - retry else 0)
  {
    if k < |s.scrolls| {
      var links := acc + Extracted(join, ShotAt(s, k));
      assert !lim.full(links);
      assert Iterate(join, s, lim, k, retry, acc) == Continue(0, links);
      GrowingPageKeepsScrolling(join, s, lim, k + 1, 0, links);
    } else {
      LoopLinks(join, s, lim, k, retry, acc);
    }
  }

  // ---------------------------------------------------------------------
  // The whole call: rotation, navigation, and the driver's release.
  // ---------------------------------------------------------------------

  /** Before the loop the driver is quit only by a rotation, and a rotation
      relaunches it headless with the drawn agent unless the launch raises. */
  lemma OpeningQuits(s: Script, requestCount: int, frequency: int, alive: bool, agent: string, url: string)
    ensures var start := Opening(s, requestCount, frequency, alive, agent, url);
      && multiset(start.events)[Quit] == (if start.rotated then 1 else 0)
      && (forall e :: e in start.events && e.Launch? ==> e == Launch(agent, true))
      && (start.navigated ==> start.events[|start.events| - 1] == Navigate(url))
  {
  }

  /** Every call, however it ends, quits the driver in `finally` as its last
      driver call, and nowhere else except before relaunching on a rotation;
      it returns no links unless `driver.get` returned normally, and
      otherwise ends as its loop did.  This holds whatever the loop does. */
  lemma EveryExitQuits(s: Script, requestCount: int, frequency: int, alive: bool, agent: string, url: string, run: Run)
    ensures var c := Conclude(Opening(s, requestCount, frequency, alive, agent, url), run);
      && c.events != []
      && c.events[|c.events| - 1] == Quit
      && multiset(c.events)[Quit] == (if c.rotated then 2 else 1)
      && (!c.navigated ==> c.links == {} && c.exit == StartRaised)
      && (c.navigated ==> c.links == run.links && c.exit == run.exit)
  {
    var start := Opening(s, requestCount, frequency, alive, agent, url);
    OpeningQuits(s, requestCount, frequency, alive, agent, url);
    if start.navigated {
      QuitOnlyAtEnds(start.events, run);
    }
  }

  /** The loop adds no quit between the opening and `finally`. */
  lemma QuitOnlyAtEnds(opening: seq<Event>, run: Run)
    ensures multiset(opening + LoopCalls(run) + [Quit])[Quit] == multiset(opening)[Quit] + 1
  {
    LoopCallsCount(run);
    assert Quit !in LoopCalls(run);
    assert multiset(LoopCalls(run))[Quit] == 0;
    assert multiset(opening + LoopCalls(run) + [Quit])
        == multiset(opening) + multiset(LoopCalls(run)) + multiset([Quit]);
  }

  /** A call ends on StartRaised exactly when `driver.get` did not return
      normally: the loop never ends that way. */
  lemma StartRaisedOnlyBeforeLoop(join: (string, string) -> string, s: Script, lim: Limits,
                                  requestCount: int, frequency: int, alive: bool, agent: string, url: string)
    ensures var c := Scrape(join, s, lim, requestCount, frequency, alive, agent, url);
      c.navigated <==> c.exit != StartRaised
  {
    LoopLinks(join, s, lim, 0, 0, {});
  }

  /** Rotation is decided on `request_count` before `driver.get`: it fires
      iff the count is a multiple of the frequency, and then the old driver
      is quit first; a frequency of 0 raises before any driver call and
      yields the empty set. */
  lemma RotationRule(s: Script, requestCount: int, frequency: int, alive: bool, agent: string, url: string, run: Run)
    ensures var c := Conclude(Opening(s, requestCount, frequency, alive, agent, url), run);
      && (frequency == 0 ==> c.events == [Quit] && c.links == {} && !c.rotated)
      && (c.rotated <==> frequency != 0 && requestCount % frequency == 0)
      && (c.rotated ==> |c.events| >= 2 && c.events[0] == Quit
                        && (s.launch == Succeeds ==> c.events[1] == Launch(agent, true)))
      && (!c.rotated ==> c.events[0] != Quit || |c.events| == 1)
  {
  }

  /** Two multiples of f that differ are at least f apart. */
  lemma MulGap(q: int, q': int, f: int)
    requires f > 0 && q > q'
    ensures q * f - q' * f >= f
  {
    assert q * f - q' * f == (q - q' - 1) * f + f;
    assert (q - q' - 1) * f >= 0;
  }

  /** Euclidean division is unique: a = q*f + r with 0 <= r < f fixes a % f. */
  lemma ModUnique(a: int, f: int, q: int, r: int)
    requires f > 0 && 0 <= r < f && a == q * f + r
    ensures a % f == r
  {
    var q', r' := a / f, a % f;
    assert a == q' * f + r';
    if q > q' {
      MulGap(q, q', f);
      assert false;
    } else if q < q' {
      MulGap(q', q, f);
      assert false;
    }
  }

  /** With frequency f > 0, the navigations numbered 1, f+1, 2f+1, ...
      (`request_count` 0, f, 2f, ...) rotate and no others. */
  lemma RotationSchedule(n: nat, j: int, f: int)
    requires f > 0 && 0 <= j < f
    ensures Rotates(n * f + j, f) <==> j == 0
  {
    ModUnique(n * f + j, f, n, j);
  }

  /** A fresh scraper has `request_count = 0`, so its first call always
      rotates: the constructor's driver is quit and a headless one launched. */
  lemma FreshScraperRotates(s: Script, frequency: int, agent: string, url: string, run: Run)
    requires frequency != 0
    ensures var c := Conclude(Opening(s, 0, frequency, true, agent, url), run);
      c.rotated && c.events[0] == Quit
      && (s.launch == Succeeds ==> c.events[1] == Launch(agent, true))
  {
  }

  /** Every driver launched by a rotation is headless and uses the drawn agent. */
  lemma RotatedDriverIsHeadless(s: Script, requestCount: int, frequency: int, alive: bool, agent: string, url: string, run: Run)
    ensures var c := Conclude(Opening(s, requestCount, frequency, alive, agent, url), run);
      forall e :: e in c.events && e.Launch? ==> e.headless && e.agent == agent
  {
    var start := Opening(s, requestCount, frequency, alive, agent, url);
    OpeningQuits(s, requestCount, frequency, alive, agent, url);
    if start.navigated {
      LaunchesOnlyInOpening(start.events, run);
    }
  }

  /** The loop and `finally` launch nothing. */
  lemma LaunchesOnlyInOpening(opening: seq<Event>, run: Run)
    ensures forall e :: e in opening + LoopCalls(run) + [Quit] && e.Launch? ==> e in opening
  {
    LoopCallsCount(run);
    forall e | e in opening + LoopCalls(run) + [Quit] && e.Launch?
      ensures e in opening
    {
      assert e !in LoopCalls(run);
    }
  }

  /** A scraper reused after a first call: that call's `finally` quit the
      driver and left `request_count` at 1, so with |frequency| >= 2 the next
      call does not rotate, `driver.get` on the quit driver raises, and the
      call returns the empty set with `request_count` still 1; every later
      call does the same. */
  lemma ReusedScraperFindsNothing(s: Script, frequency: int, agent: string, url: string, run: Run)
    requires frequency >= 2 || frequency <= -2
    ensures var c := Conclude(Opening(s, 1, frequency, false, agent, url), run);
      !c.rotated && !c.navigated && c.links == {}
  {
  }
}
