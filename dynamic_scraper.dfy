/** `DynamicScraper`: a browser scraper that scrolls a page to the bottom
    again and again, collecting the absolute URL of every anchor, stopping on
    a link budget, a scroll budget or a page that stops growing, and
    rotating its browser's user agent every `user_agent_rotation_frequency`
    requests.  Each method is proved against the Harvest specification. */
module DynamicScraper {
  import opened Browser
  import opened Harvest

  class Scraper {
    const maxRetries: int
    const rotationFrequency: int
    const userAgents: seq<string>
    var requestCount: int
    var currentUserAgent: string
    /** The browser: whether it is running, and the user agent and headless
        flag it was launched with. */
    var driverAlive: bool
    var driverAgent: string
    var driverHeadless: bool
    /** Every driver call made so far, in order. */
    ghost var Trace: seq<Event>

    /** The agent pool is non-empty (the constructor raises otherwise), the
        current agent comes from it, and a running browser uses it. */
    predicate Valid()
      reads this
    {
      && |userAgents| > 0
      && currentUserAgent in userAgents
      && (driverAlive ==> driverAgent == currentUserAgent)
    }

    /** `DynamicScraper(headless, scroll_pause, max_retries,
        user_agent_rotation_frequency)` with the agent pool `agents`: no
        request yet, and a browser launched with a drawn agent. */
    constructor(agents: seq<string>, headless: bool, maxRetries: int, rotationFrequency: int, pick: nat)
      requires |agents| > 0
      ensures Valid()
      ensures userAgents == agents && this.maxRetries == maxRetries && this.rotationFrequency == rotationFrequency
      ensures requestCount == 0
      ensures currentUserAgent == Choose(agents, pick)
      ensures driverAlive && driverHeadless == headless
      ensures Trace == [Launch(currentUserAgent, headless)]
    {
      this.maxRetries := maxRetries;
      this.rotationFrequency := rotationFrequency;
      userAgents := agents;
      requestCount := 0;
      driverAlive := false;
      Trace := [];
      new;
      var raised := SetupDriver(headless, pick, Succeeds);
    }

    /** `get_random_user_agent`: an agent of the pool. */
    method GetRandomUserAgent(pick: nat) returns (agent: string)
      requires |userAgents| > 0
      ensures agent in userAgents
      ensures agent == Choose(userAgents, pick)
    {
      agent := userAgents[pick % |userAgents|];
    }

    /** `should_rotate_user_agent`: None when the frequency is 0 (the
        modulo raises ZeroDivisionError), otherwise whether `request_count`
        is a multiple of the frequency. */
    function ShouldRotateUserAgent(): (r: Option<bool>)
      reads this
      ensures r.None? <==> rotationFrequency == 0
      ensures r == Some(true) <==> rotationFrequency != 0 && requestCount % rotationFrequency == 0
    {
      if rotationFrequency == 0 then None else Some(PyMod(requestCount, rotationFrequency) == 0)
    }

    /** `setup_driver(headless)`: draw an agent and record it as current,
        then launch the browser with it; if the launch raises, the previous
        driver object stays in place and the agent is already recorded. */
    method SetupDriver(headless: bool, pick: nat, launch: Step) returns (raised: bool)
      requires |userAgents| > 0
      modifies this
      ensures raised <==> launch == Raises
      ensures currentUserAgent == Choose(userAgents, pick)
      ensures requestCount == old(requestCount)
      ensures !raised ==> driverAlive && driverAgent == currentUserAgent && driverHeadless == headless
      ensures !raised ==> Trace == old(Trace) + [Launch(currentUserAgent, headless)]
      ensures raised ==> driverAlive == old(driverAlive) && driverAgent == old(driverAgent)
                         && driverHeadless == old(driverHeadless) && Trace == old(Trace)
    {
      currentUserAgent := GetRandomUserAgent(pick);
      if launch == Raises {
        raised := true;
      } else {
        raised := false;
        driverAlive, driverAgent, driverHeadless := true, currentUserAgent, headless;
        Trace := Trace + [Launch(currentUserAgent, headless)];
      }
    }

    /** `rotate_user_agent_if_needed`: on a rotation, quit the browser and
        launch a headless one with a freshly drawn agent. */
    method RotateUserAgentIfNeeded(pick: nat, launch: Step) returns (raised: bool)
      requires Valid()
      modifies this
      ensures Valid()
      ensures raised <==> rotationFrequency == 0 || (Rotates(requestCount, rotationFrequency) && launch == Raises)
      ensures requestCount == old(requestCount)
      ensures !Rotates(requestCount, rotationFrequency) ==> unchanged(this)
      ensures Rotates(requestCount, rotationFrequency) ==>
        && currentUserAgent == Choose(userAgents, pick)
        && driverAlive == (launch == Succeeds)
        && (driverAlive ==> driverHeadless)
        && Trace == old(Trace) + (if launch == Succeeds then [Quit, Launch(currentUserAgent, true)] else [Quit])
    {
      var rotate := ShouldRotateUserAgent();
      if rotate.None? {
        raised := true;
      } else if rotate.value {
        driverAlive := false;
        Trace := Trace + [Quit];
        raised := SetupDriver(true, pick, launch);
      } else {
        raised := false;
      }
    }

    /** The `while True` loop of `scrape_website`, entered just after a
        successful `driver.get`, under the limits `lim`: the links it
        collects, how it ends and the driver calls it makes are those of
        Loop from `scroll_count = 0`. */
    method CollectLinks(lim: Limits, s: Script, join: (string, string) -> string)
      returns (allLinks: set<string>, ghost run: Run, ghost calls: seq<Event>)
      requires lim.maxRetries == maxRetries
      ensures allLinks == Loop(join, s, lim, 0, 0, {}).links
      ensures run == Loop(join, s, lim, 0, 0, {})
      ensures calls == LoopCalls(run)
    {
      allLinks := {};
      var scrollCount: nat := 0;
      var retryCount: nat := 0;
      calls := [];
      while true
        invariant Loop(join, s, lim, scrollCount, retryCount, allLinks) == Loop(join, s, lim, 0, 0, {})
        invariant calls == Passes(scrollCount)
        decreases (if scrollCount <= |s.scrolls| then |s.scrolls| - scrollCount else 0),
                  (if retryCount < maxRetries then maxRetries - retryCount else 0)
      {
        calls := calls + [Extract];
        var failed, newLinks := ExtractAllLinks(join, ShotAt(s, scrollCount));
        if failed {
          run := Run(allLinks, ExtractRaised, scrollCount, retryCount);
          break;
        }
        allLinks := allLinks + newLinks;
        // `max_links and len(all_links) >= max_links`
        if lim.full(allLinks) {
          run := Run(allLinks, LinkBudget, scrollCount, retryCount);
          break;
        }
        if ScrollBudgetReached(lim.maxScrolls, scrollCount) {
          run := Run(allLinks, ScrollBudget, scrollCount, retryCount);
          break;
        }
        calls := calls + [ScrollDown];
        var scrollFailed, hasNewContent := ScrollToBottom(ScrollAt(s, scrollCount));
        if scrollFailed {
          run := Run(allLinks, ScrollRaised, scrollCount, retryCount);
          break;
        }
        if !hasNewContent {
          retryCount := retryCount + 1;
          if retryCount >= maxRetries {
            run := Run(allLinks, Stagnation, scrollCount, retryCount);
            break;
          }
        } else {
          retryCount := 0;
        }
        scrollCount := scrollCount + 1;
      }
    }

    /** The opening of `scrape_website`: `rotate_user_agent_if_needed()`,
        `driver.get(url)` and `request_count += 1`, as Opening says; a raise
        skips the rest.  A rotation leaves a live headless driver with the
        new agent when the relaunch succeeds and none when it raises;
        without one the driver is as it was. */
    method Open(url: string, s: Script, pick: nat) returns (navigated: bool)
      requires Valid()
      modifies this
      ensures Valid()
      ensures var start := Opening(s, old(requestCount), rotationFrequency, old(driverAlive), Choose(userAgents, pick), url);
        && navigated == start.navigated
        && Trace == old(Trace) + start.events
        && requestCount == old(requestCount) + (if navigated then 1 else 0)
        && currentUserAgent == (if start.rotated then Choose(userAgents, pick) else old(currentUserAgent))
        && (navigated ==> driverAlive)
        && (start.rotated ==> driverAlive == (s.launch == Succeeds))
        && (start.rotated && s.launch == Succeeds ==> driverHeadless && driverAgent == currentUserAgent)
        && (!start.rotated ==>
              driverAlive == old(driverAlive) && driverAgent == old(driverAgent) && driverHeadless == old(driverHeadless))
    {
      var raised := RotateUserAgentIfNeeded(pick, s.launch);
      navigated := false;
      if !raised {
        // `driver.get`; on a quit driver it raises as well
        Trace := Trace + [Navigate(url)];
        if driverAlive && s.navigate == Succeeds {
          navigated := true;
          requestCount := requestCount + 1;
        }
      }
    }

    /** `scrape_website(url, max_scrolls, max_links)`: the links collected,
        the driver calls made, the new `request_count` and the current agent
        are those of the Scrape specification, and the browser is quit
        however the call ends. */
    method ScrapeWebsite(url: string, maxScrolls: Option<int>, maxLinks: Option<int>,
                         s: Script, join: (string, string) -> string, pick: nat) returns (allLinks: set<string>)
      requires Valid()
      modifies this
      ensures Valid()
      ensures !driverAlive
      ensures var c := Scrape(join, s, Budgets(maxScrolls, maxLinks, maxRetries), old(requestCount),
                              rotationFrequency, old(driverAlive), Choose(userAgents, pick), url);
        && allLinks == c.links
        && Trace == old(Trace) + c.events
        && requestCount == old(requestCount) + (if c.navigated then 1 else 0)
        && currentUserAgent == (if c.rotated then Choose(userAgents, pick) else old(currentUserAgent))
    {
      allLinks := ScrapeUnder(url, Budgets(maxScrolls, maxLinks, maxRetries), s, join, pick);
    }

    /** The body of `scrape_website` under the limits `lim`. */
    method ScrapeUnder(url: string, lim: Limits, s: Script, join: (string, string) -> string, pick: nat)
      returns (allLinks: set<string>)
      requires Valid() && lim.maxRetries == maxRetries
      modifies this
      ensures Valid()
      ensures !driverAlive
      ensures var c := Scrape(join, s, lim, old(requestCount), rotationFrequency, old(driverAlive), Choose(userAgents, pick), url);
        && allLinks == c.links
        && Trace == old(Trace) + c.events
        && requestCount == old(requestCount) + (if c.navigated then 1 else 0)
        && currentUserAgent == (if c.rotated then Choose(userAgents, pick) else old(currentUserAgent))
    {
      allLinks := {};
      var navigated := Open(url, s, pick);
      if navigated {
        ghost var run, calls;
        allLinks, run, calls := CollectLinks(lim, s, join);
        Trace := Trace + calls;
      }
      ghost var body := Trace;
      // `finally: self.driver.quit()`
      driverAlive := false;
      Trace := Trace + [Quit];
      assert Trace == body + [Quit];
    }
  }
}
