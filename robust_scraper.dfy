/** `DynamicScraper` of the robust variant: the same scrolling harvester with
    its own fixed pool of eight user agents and no link budget
    (`scrape_website(url, max_scrolls)`).  Each method is proved against the
    Harvest specification under the limits Budgets(max_scrolls, None,
    max_retries). */
module RobustScraper {
  import opened Browser
  import opened Harvest

  /** `DynamicScraper.USER_AGENTS`: Chrome 120 and 119, Firefox and Edge on
      Windows, Safari and Chrome on macOS, Chrome on Android, Safari on iOS. */
  const UserAgents: seq<string> := [
    "Mozilla/5.0 (Windows NT 10.0; Win64; x64) AppleWebKit/537.36 (KHTML, like Gecko) Chrome/120.0.0.0 Safari/537.36",
    "Mozilla/5.0 (Windows NT 10.0; Win64; x64) AppleWebKit/537.36 (KHTML, like Gecko) Chrome/119.0.0.0 Safari/537.36",
    "Mozilla/5.0 (Windows NT 10.0; Win64; x64; rv:120.0) Gecko/20100101 Firefox/120.0",
    "Mozilla/5.0 (Windows NT 10.0; Win64; x64) AppleWebKit/537.36 (KHTML, like Gecko) Chrome/120.0.0.0 Safari/537.36 Edg/120.0.0.0",
    "Mozilla/5.0 (Macintosh; Intel Mac OS X 14_1) AppleWebKit/605.1.15 (KHTML, like Gecko) Version/17.1 Safari/605.1.15",
    "Mozilla/5.0 (Macintosh; Intel Mac OS X 10_15_7) AppleWebKit/537.36 (KHTML, like Gecko) Chrome/120.0.0.0 Safari/537.36",
    "Mozilla/5.0 (Linux; Android 10; SM-G981B) AppleWebKit/537.36 (KHTML, like Gecko) Chrome/120.0.0.0 Mobile Safari/537.36",
    "Mozilla/5.0 (iPhone; CPU iPhone OS 17_1_1 like Mac OS X) AppleWebKit/605.1.15 (KHTML, like Gecko) Version/17.1 Mobile/15E148 Safari/604.1"
  ]

  /** The limits of `scrape_website(url, max_scrolls)`: no link budget. */
  function RobustBudgets(maxScrolls: Option<int>, maxRetries: int): (lim: Limits)
    ensures lim.maxScrolls == maxScrolls && lim.maxRetries == maxRetries
    ensures forall links :: !lim.full(links)
  {
    Budgets(maxScrolls, None, maxRetries)
  }

  class Scraper {
    const maxRetries: int
    const rotationFrequency: int
    /** `self.USER_AGENTS`: the class's pool, UserAgents for every scraper. */
    const userAgents: seq<string>
    var requestCount: int
    var currentUserAgent: string
    /** The browser: whether it is running, and the user agent and headless
        flag it was launched with. */
    var driverAlive: bool
    var driverAgent: string
    var driverHeadless: bool
    /** Every driver call made so far, in order. */
    ghost var Trace: seq<Event>

    /** The pool is non-empty, the current agent comes from it, and a
        running browser uses it. */
    predicate Valid()
      reads this
    {
      && |userAgents| > 0
      && currentUserAgent in userAgents
      && (driverAlive ==> driverAgent == currentUserAgent)
    }

    /** `DynamicScraper(headless, scroll_pause, max_retries,
        user_agent_rotation_frequency)`: no request yet, and a browser
        launched with a drawn agent. */
    constructor(headless: bool, maxRetries: int, rotationFrequency: int, pick: nat)
      ensures Valid() && userAgents == UserAgents
      ensures this.maxRetries == maxRetries && this.rotationFrequency == rotationFrequency
      ensures requestCount == 0
      ensures currentUserAgent == Choose(UserAgents, pick)
      ensures driverAlive && driverHeadless == headless
      ensures Trace == [Launch(currentUserAgent, headless)]
    {
      this.maxRetries := maxRetries;
      this.rotationFrequency := rotationFrequency;
      userAgents := UserAgents;
      requestCount := 0;
      driverAlive := false;
      Trace := [];
      new;
      var raised := SetupDriver(headless, pick, Succeeds);
    }

    /** `get_random_user_agent`: an agent of the pool. */
    method GetRandomUserAgent(pick: nat) returns (agent: string)
      requires |userAgents| > 0
      ensures agent in userAgents
      ensures agent == Choose(userAgents, pick)
    {
      agent := userAgents[pick % |userAgents|];
    }

    /** `should_rotate_user_agent`: None when the frequency is 0 (the
        modulo raises ZeroDivisionError), otherwise whether `request_count`
        is a multiple of the frequency. */
    function ShouldRotateUserAgent(): (r: Option<bool>)
      reads this
      ensures r.None? <==> rotationFrequency == 0
      ensures r == Some(true) <==> rotationFrequency != 0 && requestCount % rotationFrequency == 0
    {
      if rotationFrequency == 0 then None else Some(PyMod(requestCount, rotationFrequency) == 0)
    }

    /** `setup_driver(headless)`: draw an agent and record it as current,
        then launch the browser with it; if the launch raises, the previous
        driver object stays in place and the agent is already recorded. */
    method SetupDriver(headless: bool, pick: nat, launch: Step) returns (raised: bool)
      requires |userAgents| > 0
      modifies this
      ensures raised <==> launch == Raises
      ensures currentUserAgent == Choose(userAgents, pick)
      ensures requestCount == old(requestCount)
      ensures !raised ==> driverAlive && driverAgent == currentUserAgent && driverHeadless == headless
      ensures !raised ==> Trace == old(Trace) + [Launch(currentUserAgent, headless)]
      ensures raised ==> driverAlive == old(driverAlive) && driverAgent == old(driverAgent)
                         && driverHeadless == old(driverHeadless) && Trace == old(Trace)
    {
      currentUserAgent := GetRandomUserAgent(pick);
      if launch == Raises {
        raised := true;
      } else {
        raised := false;
        driverAlive, driverAgent, driverHeadless := true, currentUserAgent, headless;
        Trace := Trace + [Launch(currentUserAgent, headless)];
      }
    }

    /** `rotate_user_agent_if_needed`: on a rotation, quit the browser and
        launch a headless one with a freshly drawn agent. */
    method RotateUserAgentIfNeeded(pick: nat, launch: Step) returns (raised: bool)
      requires Valid()
      modifies this
      ensures Valid()
      ensures raised <==> rotationFrequency == 0 || (Rotates(requestCount, rotationFrequency) && launch == Raises)
      ensures requestCount == old(requestCount)
      ensures !Rotates(requestCount, rotationFrequency) ==> unchanged(this)
      ensures Rotates(requestCount, rotationFrequency) ==>
        && currentUserAgent == Choose(userAgents, pick)
        && driverAlive == (launch == Succeeds)
        && (driverAlive ==> driverHeadless)
        && Trace == old(Trace) + (if launch == Succeeds then [Quit, Launch(currentUserAgent, true)] else [Quit])
    {
      var rotate := ShouldRotateUserAgent();
      if rotate.None? {
        raised := true;
      } else if rotate.value {
        driverAlive := false;
        Trace := Trace + [Quit];
        raised := SetupDriver(true, pick, launch);
      } else {
        raised := false;
      }
    }

    /** The `while True` loop of `scrape_website`, entered just after a
        successful `driver.get`, under limits without a link budget: the
        links it collects, how it ends and the driver calls it makes are
        those of Loop from `scroll_count = 0`. */
    method CollectLinks(lim: Limits, s: Script, join: (string, string) -> string)
      returns (allLinks: set<string>, ghost run: Run, ghost calls: seq<Event>)
      requires lim.maxRetries == maxRetries
      requires forall links :: !lim.full(links)
      ensures allLinks == Loop(join, s, lim, 0, 0, {}).links
      ensures run == Loop(join, s, lim, 0, 0, {})
      ensures calls == LoopCalls(run)
    {
      allLinks := {};
      var scrollCount: nat := 0;
      var retryCount: nat := 0;
      calls := [];
      while true
        invariant Loop(join, s, lim, scrollCount, retryCount, allLinks) == Loop(join, s, lim, 0, 0, {})
        invariant calls == Passes(scrollCount)
        decreases (if scrollCount <= |s.scrolls| then |s.scrolls| - scrollCount else 0),
                  (if retryCount < maxRetries then maxRetries - retryCount else 0)
      {
        calls := calls + [Extract];
        var failed, newLinks := ExtractAllLinks(join, ShotAt(s, scrollCount));
        if failed {
          run := Run(allLinks, ExtractRaised, scrollCount, retryCount);
          break;
        }
        allLinks := allLinks + newLinks;
        if ScrollBudgetReached(lim.maxScrolls, scrollCount) {
          run := Run(allLinks, ScrollBudget, scrollCount, retryCount);
          break;
        }
        calls := calls + [ScrollDown];
        var scrollFailed, hasNewContent := ScrollToBottom(ScrollAt(s, scrollCount));
        if scrollFailed {
          run := Run(allLinks, ScrollRaised, scrollCount, retryCount);
          break;
        }
        if !hasNewContent {
          retryCount := retryCount + 1;
          if retryCount >= maxRetries {
            run := Run(allLinks, Stagnation, scrollCount, retryCount);
            break;
          }
        } else {
          retryCount := 0;
        }
        scrollCount := scrollCount + 1;
      }
    }

    /** The opening of `scrape_website`: `rotate_user_agent_if_needed()`,
        `driver.get(url)` and `request_count += 1`, as Opening says; a raise
        skips the rest.  A rotation leaves a live headless driver with the
        new agent when the relaunch succeeds and none when it raises;
        without one the driver is as it was. */
    method Open(url: string, s: Script, pick: nat) returns (navigated: bool)
      requires Valid()
      modifies this
      ensures Valid()
      ensures var start := Opening(s, old(requestCount), rotationFrequency, old(driverAlive), Choose(userAgents, pick), url);
        && navigated == start.navigated
        && Trace == old(Trace) + start.events
        && requestCount == old(requestCount) + (if navigated then 1 else 0)
        && currentUserAgent == (if start.rotated then Choose(userAgents, pick) else old(currentUserAgent))
        && (navigated ==> driverAlive)
        && (start.rotated ==> driverAlive == (s.launch == Succeeds))
        && (start.rotated && s.launch == Succeeds ==> driverHeadless && driverAgent == currentUserAgent)
        && (!start.rotated ==>
              driverAlive == old(driverAlive) && driverAgent == old(driverAgent) && driverHeadless == old(driverHeadless))
    {
      var raised := RotateUserAgentIfNeeded(pick, s.launch);
      navigated := false;
      if !raised {
        // `driver.get`; on a quit driver it raises as well
        Trace := Trace + [Navigate(url)];
        if driverAlive && s.navigate == Succeeds {
          navigated := true;
          requestCount := requestCount + 1;
        }
      }
    }

    /** `scrape_website(url, max_scrolls)`: the links collected, the driver
        calls made, the new `request_count` and the current agent are those
        of the Scrape specification without a link budget, and the browser
        is quit however the call ends. */
    method ScrapeWebsite(url: string, maxScrolls: Option<int>, s: Script, join: (string, string) -> string, pick: nat)
      returns (allLinks: set<string>)
      requires Valid()
      modifies this
      ensures Valid()
      ensures !driverAlive
      ensures var c := Scrape(join, s, RobustBudgets(maxScrolls, maxRetries), old(requestCount),
                              rotationFrequency, old(driverAlive), Choose(userAgents, pick), url);
        && allLinks == c.links
        && Trace == old(Trace) + c.events
        && requestCount == old(requestCount) + (if c.navigated then 1 else 0)
        && currentUserAgent == (if c.rotated then Choose(userAgents, pick) else old(currentUserAgent))
    {
      allLinks := ScrapeUnder(url, RobustBudgets(maxScrolls, maxRetries), s, join, pick);
    }

    /** The body of `scrape_website` under limits `lim` without a link budget. */
    method ScrapeUnder(url: string, lim: Limits, s: Script, join: (string, string) -> string, pick: nat)
      returns (allLinks: set<string>)
      requires Valid() && lim.maxRetries == maxRetries
      requires forall links :: !lim.full(links)
      modifies this
      ensures Valid()
      ensures !driverAlive
      ensures var c := Scrape(join, s, lim, old(requestCount), rotationFrequency, old(driverAlive), Choose(userAgents, pick), url);
        && allLinks == c.links
        && Trace == old(Trace) + c.events
        && requestCount == old(requestCount) + (if c.navigated then 1 else 0)
        && currentUserAgent == (if c.rotated then Choose(userAgents, pick) else old(currentUserAgent))
    {
      allLinks := {};
      var navigated := Open(url, s, pick);
      if navigated {
        ghost var run, calls;
        allLinks, run, calls := CollectLinks(lim, s, join);
        Trace := Trace + calls;
      }
      ghost var body := Trace;
      // `finally: self.driver.quit()`
      driverAlive := false;
      Trace := Trace + [Quit];
      assert Trace == body + [Quit];
    }
  }

  /** The robust scraper never stops on a link budget: every call ends on
      the scroll budget, on stagnation or on a raise. */
  lemma NoLinkBudget(join: (string, string) -> string, s: Script, maxScrolls: Option<int>, maxRetries: int)
    ensures Loop(join, s, RobustBudgets(maxScrolls, maxRetries), 0, 0, {}).exit != LinkBudget
  {
    LinkBudgetStops(join, s, RobustBudgets(maxScrolls, maxRetries), 0, 0, {});
  }
}
