/** The browser as the link harvester sees it.

    Selenium is not modelled: what one scrape call meets in the browser is a
    finite Script of answers, one per driver call, in the order the harvester
    makes them.  `urljoin` is not modelled either: every member that resolves
    an href takes it as the function parameter `join`. */
module Browser {

  datatype Option<T> = None | Some(value: T)

  /** One `href` attribute as `element.get_attribute("href")` yields it:
      None, a StaleElementReferenceException, or a string (possibly empty). */
  datatype Href = Missing | Stale | Attr(text: string)

  /** What one call of `extract_all_links` meets: the wait for anchors timed
      out, the anchors present (with the page's `current_url` as `base`), or
      a driver error other than a stale element, which escapes the method. */
  datatype Shot = TimedOut | Anchors(base: string, hrefs: seq<Href>) | Broken

  /** What one call of `scroll_to_bottom` meets: the body's scroll height
      before and after the scroll and pause, or a driver error. */
  datatype Measure = Heights(before: int, after: int) | Failed

  /** Whether a driver call that can only succeed or raise succeeds. */
  datatype Step = Succeeds | Raises

  /** All the browser answers for one scrape call: relaunching the driver
      when the user agent rotates, `driver.get`, the successive extractions
      and the successive scrolls. */
  datatype Script = Script(launch: Step, navigate: Step, shots: seq<Shot>, scrolls: seq<Measure>)

  /** The answer to the i-th extraction.  Past the end of the script the page
      is static: nothing new appears, which for the union of links is the same
      as finding no anchors. */
  function ShotAt(s: Script, i: nat): Shot
  {
    if i < |s.shots| then s.shots[i] else TimedOut
  }

  /** The answer to the i-th scroll.  Past the end of the script the height
      no longer changes. */
  function ScrollAt(s: Script, i: nat): Measure
  {
    if i < |s.scrolls| then s.scrolls[i] else Heights(0, 0)
  }

  /** `scroll_to_bottom`'s result: the height changed, in either direction. */
  predicate HasNewContent(m: Measure)
    requires m.Heights?
  {
    m.after != m.before
  }

  /** Python truthiness of the href: neither None nor the empty string. */
  predicate Kept(h: Href)
  {
    h.Attr? && h.text != ""
  }

  /** The absolute links produced by the anchors `hrefs`, in enumeration order. */
  function Resolved(join: (string, string) -> string, base: string, hrefs: seq<Href>): set<string>
    decreases |hrefs|
  {
    if hrefs == [] then {}
    else
      var last := hrefs[|hrefs| - 1];
      Resolved(join, base, hrefs[..|hrefs| - 1]) + (if Kept(last) then {join(base, last.text)} else {})
  }

  /** The set one successful extraction returns (a Broken one returns nothing). */
  function Extracted(join: (string, string) -> string, shot: Shot): set<string>
  {
    match shot
    case Anchors(base, hrefs) => Resolved(join, base, hrefs)
    case _ => {}
  }

  /** A link is extracted exactly when some anchor carries a non-empty href
      that resolves to it; stale and missing hrefs contribute nothing. */
  lemma {:induction false} ResolvedMembers(join: (string, string) -> string, base: string, hrefs: seq<Href>, x: string)
    ensures x in Resolved(join, base, hrefs) <==>
            exists i :: 0 <= i < |hrefs| && Kept(hrefs[i]) && x == join(base, hrefs[i].text)
    decreases |hrefs|
  {
    if hrefs != [] {
      var n := |hrefs| - 1;
      var init := hrefs[..n];
      ResolvedMembers(join, base, init, x);
      if x in Resolved(join, base, hrefs) {
        if x in Resolved(join, base, init) {
          var i :| 0 <= i < |init| && Kept(init[i]) && x == join(base, init[i].text);
          assert hrefs[i] == init[i];
        } else {
          assert Kept(hrefs[n]) && x == join(base, hrefs[n].text);
        }
      } else {
        forall i | 0 <= i < |hrefs| && Kept(hrefs[i])
          ensures x != join(base, hrefs[i].text)
        {
          if i < n {
            assert init[i] == hrefs[i];
          }
        }
      }
    }
  }

  /** A timeout yields the empty set; anchors without a usable href add
      nothing, whatever their number. */
  lemma {:induction false} NothingKeptNothingExtracted(join: (string, string) -> string, base: string, hrefs: seq<Href>)
    requires forall i :: 0 <= i < |hrefs| ==> !Kept(hrefs[i])
    ensures Resolved(join, base, hrefs) == {}
    ensures Extracted(join, TimedOut) == {}
    decreases |hrefs|
  {
    if hrefs != [] {
      NothingKeptNothingExtracted(join, base, hrefs[..|hrefs| - 1]);
    }
  }

  /** `extract_all_links`: wait for anchors, then read every anchor's href,
      skipping stale elements one at a time; a timeout gives the empty set,
      any other driver error escapes (`raised`). */
  method ExtractAllLinks(join: (string, string) -> string, shot: Shot) returns (raised: bool, links: set<string>)
    ensures raised <==> shot.Broken?
    ensures !raised ==> links == Extracted(join, shot)
  {
    links := {};
    match shot {
      case Broken =>
        raised := true;
      case TimedOut =>
        // TimeoutException: logged, the empty set is returned
        raised := false;
      case Anchors(base, hrefs) =>
        raised := false;
        for i := 0 to |hrefs|
          invariant links == Resolved(join, base, hrefs[..i])
        {
          assert hrefs[..i + 1][..i] == hrefs[..i];
          match hrefs[i] {
            case Stale =>
              // StaleElementReferenceException: skip this element only
            case Missing =>
            case Attr(text) =>
              if text != "" {
                links := links + {join(base, text)};
              }
          }
        }
        assert hrefs[..|hrefs|] == hrefs;
    }
  }

  /** `scroll_to_bottom`: read the body's height, scroll, pause, read it
      again; report whether it changed.  A driver error escapes (`raised`). */
  method ScrollToBottom(m: Measure) returns (raised: bool, hasNewContent: bool)
    ensures raised <==> m.Failed?
    ensures !raised ==> (hasNewContent <==> m.before != m.after)
  {
    match m {
      case Failed =>
        raised, hasNewContent := true, false;
      case Heights(lastHeight, newHeight) =>
        raised := false;
        hasNewContent := newHeight != lastHeight;
    }
  }
}
