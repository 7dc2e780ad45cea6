/**
 * The app shell's page navigation: the current page and the history stack
 * that `handleNavigate` pushes onto, `handleBack` pops and `handleHome`
 * resets.
 */
module App {
  datatype Page = Home | Personal | Group | Stats | SettingsPage

  /** The navigation state: `currentPage` and `pageHistory`. */
  datatype Nav = Nav(current: Page, history: seq<Page>)

  /** The history is never empty and its top is the page on screen. */
  predicate Valid(n: Nav) {
    |n.history| > 0 && n.history[|n.history| - 1] == n.current
  }

  /** The state on launch, and after `handleHome`: the home page alone. */
  function Start(): (n: Nav)
    ensures Valid(n) && n.current == Home && |n.history| == 1
  {
    Nav(Home, [Home])
  }

  /** `handleNavigate`: show the page and push it, keeping the older entries. */
  function Navigate(n: Nav, page: Page): (r: Nav)
    ensures Valid(r) && r.current == page
    ensures |r.history| == |n.history| + 1 && r.history[..|n.history|] == n.history
  {
    Nav(page, n.history + [page])
  }

  /**
   * `handleBack`: with more than one entry, drop the top and show the entry
   * below it; with one entry or none, nothing changes.
   */
  function Back(n: Nav): (r: Nav)
    ensures |n.history| > 1 ==> |r.history| == |n.history| - 1 && r.history == n.history[..|r.history|]
    ensures |n.history| > 1 ==> Valid(r)
    ensures |n.history| <= 1 ==> r == n
    ensures Valid(n) ==> Valid(r)
  {
    if |n.history| > 1 then
      var newHistory := n.history[..|n.history| - 1];
      Nav(newHistory[|newHistory| - 1], newHistory)
    else n
  }

  /** Back right after a navigation returns to where the navigation started. */
  lemma BackUndoesNavigate(n: Nav, page: Page)
    requires Valid(n)
    ensures Back(Navigate(n, page)) == n
  {
    assert Navigate(n, page).history[..|n.history|] == n.history;
  }

  /** Navigating through a list of pages, one `handleNavigate` each. */
  function NavigateAll(n: Nav, pages: seq<Page>): Nav
    decreases |pages|
  {
    if pages == [] then n else NavigateAll(Navigate(n, pages[0]), pages[1..])
  }

  /** `k` presses of back. */
  function BackTimes(n: Nav, k: nat): Nav
    decreases k
  {
    if k == 0 then n else BackTimes(Back(n), k - 1)
  }

  /** Going through pages and pressing back as often pushes them and pops them all. */
  lemma {:induction false} BackRetracesNavigation(n: Nav, pages: seq<Page>)
    requires Valid(n)
    ensures Valid(NavigateAll(n, pages))
    ensures NavigateAll(n, pages).history == n.history + pages
    ensures BackTimes(NavigateAll(n, pages), |pages|) == n
    decreases |pages|
  {
    if pages != [] {
      var m := Navigate(n, pages[0]);
      BackRetracesNavigation(m, pages[1..]);
      assert m.history + pages[1..] == n.history + pages;
      BackTimesOfPushed(n, pages);
    }
  }

  /** Popping `|pages|` entries off `n.history + pages` leaves `n`. */
  lemma {:induction false} BackTimesOfPushed(n: Nav, pages: seq<Page>)
    requires Valid(n)
    ensures BackTimes(Nav(if pages == [] then n.current else pages[|pages| - 1], n.history + pages), |pages|) == n
    decreases |pages|
  {
    var top := Nav(if pages == [] then n.current else pages[|pages| - 1], n.history + pages);
    if pages != [] {
      var rest := pages[..|pages| - 1];
      assert (n.history + pages)[..|n.history + pages| - 1] == n.history + rest;
      var below := Nav(if rest == [] then n.current else rest[|rest| - 1], n.history + rest);
      assert Back(top) == below;
      BackTimesOfPushed(n, rest);
      BackTimesShift(top, |pages| - 1);
    }
  }

  /** Pressing back `k + 1` times is one press and then `k` more (the definition's order). */
  lemma BackTimesShift(n: Nav, k: nat)
    ensures BackTimes(n, k + 1) == BackTimes(Back(n), k)
  {
  }

  /** Back on the home screen alone changes nothing. */
  lemma BackAtStartDoesNothing()
    ensures Back(Start()) == Start()
  {
  }

  /** The history and the shown page, updated in place by the three handlers. */
  class Navigator {
    var currentPage: Page
    var pageHistory: seq<Page>

    function View(): Nav
      reads this
    {
      Nav(currentPage, pageHistory)
    }

    constructor()
      ensures View() == Start()
    {
      currentPage := Home;
      pageHistory := [Home];
    }

    method HandleNavigate(page: Page)
      modifies this
      ensures View() == Navigate(old(View()), page)
    {
      currentPage := page;
      pageHistory := pageHistory + [page];
    }

    method HandleBack()
      modifies this
      ensures View() == Back(old(View()))
    {
      if |pageHistory| > 1 {
        var newHistory := pageHistory;
        newHistory := newHistory[..|newHistory| - 1];
        var previousPage := newHistory[|newHistory| - 1];
        pageHistory := newHistory;
        currentPage := previousPage;
      }
    }

    method HandleHome()
      modifies this
      ensures View() == Start()
    {
      currentPage := Home;
      pageHistory := [Home];
    }
  }
}
