/** The announcement browser: a fixed list of announcements filtered by category tab and by a
    case-insensitive search, shown six to a page with Previous/Next buttons, and a detail
    dialog for one selected announcement. */
module Announcement {
  import opened Seqs
  import opened Text
  import opened JsOps
  import opened Optional

  datatype AnnouncementRecord = AnnouncementRecord(
    title: string,
    date: string,
    description: string,
    category: string,
    fullContent: string)

  /** The tab that places no constraint on the category. */
  const AllTab: string := "All"

  const Tabs: seq<string> := [AllTab, "Events", "Updates", "News"]

  const ItemsPerPage: nat := 6

  const AllAnnouncements: seq<AnnouncementRecord> := [
    AnnouncementRecord(
      "Upcoming Hackathon",
      "June 15, 2023",
      "Join us for our annual 24-hour coding challenge. Great prizes to be won!",
      "Events",
      "Get ready for an exciting 24-hour coding marathon! Our annual hackathon is back, bigger and better than ever. Teams will compete to create innovative solutions to real-world problems. With amazing prizes up for grabs and the chance to network with industry professionals, this is an event you won't want to miss. Register now to secure your spot!"),
    AnnouncementRecord(
      "New Course: Advanced React",
      "July 1, 2023",
      "Enhance your React skills with our new advanced course. Limited spots available!",
      "Updates",
      "Take your React skills to the next level with our comprehensive Advanced React course. Dive deep into hooks, context, and performance optimization. Learn best practices for state management, code splitting, and server-side rendering. This course is perfect for developers looking to master complex React applications. Don't miss out – enroll today!"),
    AnnouncementRecord(
      "Community Meetup",
      "June 30, 2023",
      "Let's gather for a night of networking and tech talks. RSVP now!",
      "Events",
      "Join us for an evening of inspiration and connection at our monthly community meetup. We'll have lightning talks from local tech leaders, followed by a networking session where you can mingle with fellow developers. Whether you're a seasoned pro or just starting out, there's something for everyone. Light refreshments will be provided. RSVP to secure your spot!"),
    AnnouncementRecord(
      "Job Fair",
      "August 5, 2023",
      "Connect with top tech companies hiring in your area. Bring your resume!",
      "Events",
      "Don't miss this opportunity to jumpstart your career! Our upcoming job fair will feature representatives from leading tech companies in the area. Come prepared with your resume and portfolio to make a great first impression. There will be on-the-spot interviews for qualified candidates. Whether you're looking for an internship or a full-time position, this is your chance to shine!"),
    AnnouncementRecord(
      "New Partnership Announcement",
      "July 10, 2023",
      "We're excited to announce our new partnership with TechGiant Inc.",
      "News",
      "We are thrilled to announce our strategic partnership with TechGiant Inc., a leader in cloud computing solutions. This collaboration will bring exclusive benefits to our members, including discounted access to TechGiant's suite of developer tools and priority registration for their workshops and webinars. Stay tuned for more details on how you can leverage this partnership to accelerate your career!"),
    AnnouncementRecord(
      "Website Redesign Launch",
      "July 20, 2023",
      "Check out our newly redesigned website with improved features and user experience.",
      "Updates",
      "We're proud to unveil our newly redesigned website! After months of hard work and valuable feedback from our community, we've created a more intuitive, faster, and feature-rich platform. Explore our new learning paths, interactive coding challenges, and improved discussion forums. We've also enhanced mobile responsiveness for a seamless experience across all devices. Let us know what you think!"),
    AnnouncementRecord(
      "Annual Developer Survey Results",
      "August 15, 2023",
      "Discover the latest trends and insights from our annual developer survey.",
      "News",
      "The results are in! Our annual developer survey provides a comprehensive look at the current state of the developer ecosystem. From popular programming languages and frameworks to job satisfaction and work-life balance, get insights into what your peers are thinking and doing. This year's survey had over 50,000 respondents from 170 countries. Download the full report to dive into the data!"),
    AnnouncementRecord(
      "Introduction to Machine Learning Workshop",
      "September 1, 2023",
      "Join our hands-on workshop to get started with machine learning concepts and tools.",
      "Events",
      "Curious about machine learning but don't know where to start? Join our beginner-friendly workshop! In this hands-on session, you'll learn the basics of machine learning, including data preprocessing, model selection, and evaluation. We'll use Python and popular libraries like scikit-learn to build your first ML model. No prior experience with machine learning is required, but basic Python knowledge is recommended. Space is limited, so register early!")
  ]

  /** Every announcement's category is one of the tabs other than "All". */
  lemma CategoriesAreTabs()
    ensures forall k :: 0 <= k < |AllAnnouncements| ==> AllAnnouncements[k].category in Tabs[1..]
  {
  }

  // ---------------------------------------------------------------------------------------
  // The filter chain

  /** The category test, applied only when a tab other than "All" is active. */
  predicate InCategory(a: AnnouncementRecord, tab: string) {
    a.category == tab
  }

  /** The search test: the lowered title or the lowered description contains the lowered term.
      The full content, the date and the category are not searched. */
  predicate MatchesSearch(a: AnnouncementRecord, term: string) {
    Contains(ToLower(a.title), ToLower(term)) || Contains(ToLower(a.description), ToLower(term))
  }

  /** Whether `a` survives both filter stages for this tab and search term. */
  predicate Passes(a: AnnouncementRecord, tab: string, term: string) {
    (tab == AllTab || InCategory(a, tab)) && (term == "" || MatchesSearch(a, term))
  }

  /** The list `filterAnnouncements` computes: first by category unless the tab is "All",
      then by search unless the term is empty. */
  function Matching(records: seq<AnnouncementRecord>, tab: string, term: string): seq<AnnouncementRecord>
  {
    var byTab := if tab != AllTab then Filter(records, a => InCategory(a, tab)) else records;
    if term != "" then Filter(byTab, a => MatchesSearch(a, term)) else byTab
  }

  /** A record is kept exactly when it is in the list and passes both stages. */
  lemma MatchingMembership(records: seq<AnnouncementRecord>, tab: string, term: string, a: AnnouncementRecord)
    ensures a in Matching(records, tab, term) <==> a in records && Passes(a, tab, term)
  {
    var byTab := if tab != AllTab then Filter(records, a => InCategory(a, tab)) else records;
    if tab != AllTab {
      FilterMembership(records, a => InCategory(a, tab), a);
    }
    if term != "" {
      FilterMembership(byTab, a => MatchesSearch(a, term), a);
    }
  }

  /** Every record of the result passes both stages: in particular, under a tab other than "All",
      every record has that category. */
  lemma MatchingAllPass(records: seq<AnnouncementRecord>, tab: string, term: string)
    ensures forall k :: 0 <= k < |Matching(records, tab, term)| ==> Passes(Matching(records, tab, term)[k], tab, term)
  {
    var r := Matching(records, tab, term);
    forall k | 0 <= k < |r|
      ensures Passes(r[k], tab, term)
    {
      MatchingMembership(records, tab, term, r[k]);
    }
  }

  /** The result is the original list with some records deleted: same order, no duplicates
      beyond those already in the list. */
  lemma MatchingIsSubsequence(records: seq<AnnouncementRecord>, tab: string, term: string)
    ensures IsSubsequence(Matching(records, tab, term), records)
    ensures multiset(Matching(records, tab, term)) <= multiset(records)
  {
    var byTab := if tab != AllTab then Filter(records, a => InCategory(a, tab)) else records;
    var r := Matching(records, tab, term);
    if tab != AllTab {
      FilterIsSubsequence(records, a => InCategory(a, tab));
      SubsequenceMultiset(byTab, records);
    }
    if term != "" {
      FilterIsSubsequence(byTab, a => MatchesSearch(a, term));
      SubsequenceMultiset(r, byTab);
    }
    SubsequenceReflexive(records);
    SubsequenceReflexive(byTab);
    SubsequenceTransitive(r, byTab, records);
  }

  /** The list comes back whole and unchanged exactly when every record passes; so the tab
      "All" with an empty search gives the full list. */
  lemma MatchingWholeList(records: seq<AnnouncementRecord>, tab: string, term: string)
    ensures Matching(records, tab, term) == records <==> forall k :: 0 <= k < |records| ==> Passes(records[k], tab, term)
  {
    var byTab := if tab != AllTab then Filter(records, a => InCategory(a, tab)) else records;
    if forall k :: 0 <= k < |records| ==> Passes(records[k], tab, term) {
      if tab != AllTab {
        FilterAllPass(records, a => InCategory(a, tab));
      }
      if term != "" {
        FilterAllPass(byTab, a => MatchesSearch(a, term));
      }
    }
    if Matching(records, tab, term) == records {
      MatchingAllPass(records, tab, term);
    }
  }

  /** With the neutral settings, the tab "All" and an empty search, nothing is filtered out. */
  lemma NeutralFilterKeepsAll(records: seq<AnnouncementRecord>)
    ensures Matching(records, AllTab, "") == records
  {
    MatchingWholeList(records, AllTab, "");
  }

  /** Re-running the filter on its own output with the same tab and term changes nothing. */
  lemma MatchingIdempotent(records: seq<AnnouncementRecord>, tab: string, term: string)
    ensures Matching(Matching(records, tab, term), tab, term) == Matching(records, tab, term)
  {
    var r := Matching(records, tab, term);
    MatchingAllPass(records, tab, term);
    MatchingWholeList(r, tab, term);
  }

  /** The search ignores the case of the term: typing it in upper or lower case keeps the same records. */
  lemma SearchIgnoresCase(records: seq<AnnouncementRecord>, tab: string, term: string)
    ensures Matching(records, tab, ToUpper(term)) == Matching(records, tab, term)
    ensures Matching(records, tab, ToLower(term)) == Matching(records, tab, term)
  {
    ToLowerOfUpper(term);
    ToLowerIdempotent(term);
    var byTab := if tab != AllTab then Filter(records, a => InCategory(a, tab)) else records;
    if term != "" {
      FilterCongruent(byTab, a => MatchesSearch(a, ToUpper(term)), a => MatchesSearch(a, term));
      FilterCongruent(byTab, a => MatchesSearch(a, ToLower(term)), a => MatchesSearch(a, term));
    }
  }

  /** The "Events" tab with an empty search shows the four events, in list order, on one page. */
  lemma EventsTabContents()
    ensures Matching(AllAnnouncements, "Events", "") ==
      [AllAnnouncements[0], AllAnnouncements[2], AllAnnouncements[3], AllAnnouncements[7]]
    ensures PageCount(|Matching(AllAnnouncements, "Events", "")|) == 1
  {
    var s := AllAnnouncements;
    var p := a => InCategory(a, "Events");
    assert Filter(s[7..], p) == [s[7]];
    assert Filter(s[6..], p) == [s[7]];
    assert Filter(s[5..], p) == [s[7]];
    assert Filter(s[4..], p) == [s[7]];
    assert Filter(s[3..], p) == [s[3], s[7]];
    assert Filter(s[2..], p) == [s[2], s[3], s[7]];
    assert Filter(s[1..], p) == [s[2], s[3], s[7]];
  }

  /** The full content of an announcement never decides whether it is found. */
  lemma FullContentNotSearched(a: AnnouncementRecord, term: string, content: string)
    ensures MatchesSearch(a.(fullContent := content), term) == MatchesSearch(a, term)
  {
  }

  // ---------------------------------------------------------------------------------------
  // Pagination

  /** `Math.ceil(n / 6)`, the total shown as "Page p of ...": zero for an empty list. */
  function PageCount(n: nat): (c: nat)
    ensures n == 0 ==> c == 0
    ensures n > 0 ==> (c - 1) * ItemsPerPage < n <= c * ItemsPerPage
  {
    (n + ItemsPerPage - 1) / ItemsPerPage
  }

  /** The cards on page `page`: `filtered.slice(page * 6 - 6, page * 6)`. */
  function PageSlice(filtered: seq<AnnouncementRecord>, page: int): seq<AnnouncementRecord>
  {
    Slice(filtered, page * ItemsPerPage - ItemsPerPage, page * ItemsPerPage)
  }

  /** On a page numbered from 1 up, the slice is the window `[(page-1)*6, page*6)` clipped to the
      list, so it holds at most six records. */
  lemma PageWindow(filtered: seq<AnnouncementRecord>, page: int)
    requires page >= 1
    ensures PageSlice(filtered, page) == filtered[Min((page - 1) * ItemsPerPage, |filtered|)..Min(page * ItemsPerPage, |filtered|)]
    ensures |PageSlice(filtered, page)| <= ItemsPerPage
  {
    SliceNonNegative(filtered, page * ItemsPerPage - ItemsPerPage, page * ItemsPerPage);
  }

  /** Pages 1 to `k` laid end to end. */
  function PagesUpTo(filtered: seq<AnnouncementRecord>, k: nat): seq<AnnouncementRecord>
  {
    if k == 0 then [] else PagesUpTo(filtered, k - 1) + PageSlice(filtered, k)
  }

  /** The first `k` pages together are the first `6k` records (or all of them). */
  lemma {:induction false} PagesUpToPrefix(filtered: seq<AnnouncementRecord>, k: nat)
    ensures PagesUpTo(filtered, k) == filtered[..Min(k * ItemsPerPage, |filtered|)]
  {
    if k > 0 {
      PagesUpToPrefix(filtered, k - 1);
      PageWindow(filtered, k);
      var lo, hi := Min((k - 1) * ItemsPerPage, |filtered|), Min(k * ItemsPerPage, |filtered|);
      assert filtered[..lo] + filtered[lo..hi] == filtered[..hi];
    }
  }

  /** Pages 1 to `ceil(N/6)` laid end to end give back the filtered list, so their lengths sum to
      N; every page holds at most six records, and any page past the last one is empty. */
  lemma PagesCoverList(filtered: seq<AnnouncementRecord>, page: int)
    ensures PagesUpTo(filtered, PageCount(|filtered|)) == filtered
    ensures |PagesUpTo(filtered, PageCount(|filtered|))| == |filtered|
    ensures page >= 1 ==> |PageSlice(filtered, page)| <= ItemsPerPage
    ensures page > PageCount(|filtered|) ==> PageSlice(filtered, page) == []
  {
    PagesUpToPrefix(filtered, PageCount(|filtered|));
    if page >= 1 {
      PageWindow(filtered, page);
    }
  }

  /** The Previous button is disabled on page 1. */
  predicate PrevDisabled(page: int) {
    page == 1
  }

  /** The Next button is disabled once the current page reaches the end of the list:
      `indexOfLastItem >= filteredAnnouncements.length`. */
  predicate NextDisabled(page: int, n: nat) {
    page * ItemsPerPage >= n
  }

  /** From page 1 up, Next is disabled exactly on the last page and beyond, which is exactly when
      the page after this one would be empty; on an empty list both buttons are disabled. */
  lemma NextDisabledAtEnd(filtered: seq<AnnouncementRecord>, page: int)
    requires page >= 1
    ensures NextDisabled(page, |filtered|) <==> page >= PageCount(|filtered|)
    ensures NextDisabled(page, |filtered|) <==> PageSlice(filtered, page + 1) == []
    ensures |filtered| == 0 && page == 1 ==> PrevDisabled(page) && NextDisabled(page, |filtered|)
  {
    PageWindow(filtered, page + 1);
  }

  /** The range a page number keeps when only enabled buttons are used: `[1, max(1, ceil(N/6))]`. */
  ghost predicate PageInRange(page: int, n: nat) {
    1 <= page <= Max(1, PageCount(n))
  }

  datatype PageButton = Previous | Next

  /** A click on a button: it moves the page only when the button is enabled. */
  function Click(page: int, n: nat, button: PageButton): int {
    match button
    case Previous => if PrevDisabled(page) then page else page - 1
    case Next => if NextDisabled(page, n) then page else page + 1
  }

  /** A sequence of clicks, in order. */
  function ClickAll(page: int, n: nat, buttons: seq<PageButton>): int
    decreases |buttons|
  {
    if buttons == [] then page else ClickAll(Click(page, n, buttons[0]), n, buttons[1..])
  }

  /** One click on an enabled or disabled button keeps the page in range. */
  lemma ClickKeepsRange(page: int, n: nat, button: PageButton)
    requires PageInRange(page, n)
    ensures PageInRange(Click(page, n, button), n)
  {
  }

  /** Starting from any page in range (page 1 in particular), any sequence of clicks keeps
      the page in range. */
  lemma {:induction false} ClicksKeepRange(page: int, n: nat, buttons: seq<PageButton>)
    requires PageInRange(page, n)
    ensures PageInRange(ClickAll(page, n, buttons), n)
    decreases |buttons|
  {
    if buttons != [] {
      ClickKeepsRange(page, n, buttons[0]);
      ClicksKeepRange(Click(page, n, buttons[0]), n, buttons[1..]);
    }
  }

  // ---------------------------------------------------------------------------------------
  // The page state

  /** The state of the announcement page: the React state cells, each a field that its
      setter overwrites. */
  class AnnouncementPage {
    const records: seq<AnnouncementRecord>
    var activeTab: string
    var searchTerm: string
    var currentPage: int
    var filtered: seq<AnnouncementRecord>
    var selected: Option<AnnouncementRecord>
    var isModalOpen: bool

    /** The shown list is always the filter of the fixed records by the current tab and term. */
    ghost predicate Valid()
      reads this
    {
      filtered == Matching(records, activeTab, searchTerm)
    }

    /** The initial state: tab "All", empty search, page 1, the full list, nothing selected. */
    constructor ()
      ensures Valid()
      ensures records == AllAnnouncements && filtered == AllAnnouncements
      ensures activeTab == AllTab && searchTerm == "" && currentPage == 1
      ensures selected == None && !isModalOpen
      ensures PageInRange(currentPage, |filtered|)
    {
      records := AllAnnouncements;
      activeTab := AllTab;
      searchTerm := "";
      currentPage := 1;
      filtered := AllAnnouncements;
      selected := None;
      isModalOpen := false;
      NeutralFilterKeepsAll(AllAnnouncements);
    }

    /** The cards shown on the current page. */
    function CurrentAnnouncements(): seq<AnnouncementRecord>
      reads this
    {
      PageSlice(filtered, currentPage)
    }

    /** `filterAnnouncements`, run by the effect after a tab or search change and by the
        Filter button: recompute the list and go back to page 1. */
    method FilterAnnouncements()
      modifies this
      ensures Valid()
      ensures filtered == Matching(records, activeTab, searchTerm)
      ensures currentPage == 1 && PageInRange(currentPage, |filtered|)
      ensures activeTab == old(activeTab) && searchTerm == old(searchTerm)
      ensures selected == old(selected) && isModalOpen == old(isModalOpen)
    {
      filtered := Matching(records, activeTab, searchTerm);
      currentPage := 1;
    }

    /** A tab click: `setActiveTab(tab)`. React skips the update when the value is unchanged,
        so the effect, and the reset to page 1, run only when the tab actually changes. */
    method SelectTab(tab: string)
      requires Valid()
      modifies this
      ensures Valid()
      ensures activeTab == tab && searchTerm == old(searchTerm)
      ensures tab == old(activeTab) ==> filtered == old(filtered) && currentPage == old(currentPage)
      ensures tab != old(activeTab) ==> currentPage == 1
      ensures old(PageInRange(currentPage, |filtered|)) ==> PageInRange(currentPage, |filtered|)
      ensures selected == old(selected) && isModalOpen == old(isModalOpen)
    {
      if tab != activeTab {
        activeTab := tab;
        FilterAnnouncements();
      }
    }

    /** Typing in the search box: `setSearchTerm(term)`, with the same effect rule as `SelectTab`. */
    method ChangeSearch(term: string)
      requires Valid()
      modifies this
      ensures Valid()
      ensures searchTerm == term && activeTab == old(activeTab)
      ensures term == old(searchTerm) ==> filtered == old(filtered) && currentPage == old(currentPage)
      ensures term != old(searchTerm) ==> currentPage == 1
      ensures old(PageInRange(currentPage, |filtered|)) ==> PageInRange(currentPage, |filtered|)
      ensures selected == old(selected) && isModalOpen == old(isModalOpen)
    {
      if term != searchTerm {
        searchTerm := term;
        FilterAnnouncements();
      }
    }

    /** `paginate(page)`: sets the page, with no check of its own. */
    method Paginate(page: int)
      requires Valid()
      modifies this`currentPage
      ensures Valid() && currentPage == page
    {
      currentPage := page;
    }

    /** A click on Previous; a disabled button does nothing. */
    method ClickPrevious()
      requires Valid()
      modifies this`currentPage
      ensures Valid()
      ensures currentPage == Click(old(currentPage), |filtered|, Previous)
      ensures old(PageInRange(currentPage, |filtered|)) ==> PageInRange(currentPage, |filtered|)
    {
      if !PrevDisabled(currentPage) {
        Paginate(currentPage - 1);
      }
      if old(PageInRange(currentPage, |filtered|)) {
        ClickKeepsRange(old(currentPage), |filtered|, Previous);
      }
    }

    /** A click on Next; a disabled button does nothing. */
    method ClickNext()
      requires Valid()
      modifies this`currentPage
      ensures Valid()
      ensures currentPage == Click(old(currentPage), |filtered|, Next)
      ensures old(PageInRange(currentPage, |filtered|)) ==> PageInRange(currentPage, |filtered|)
    {
      if !NextDisabled(currentPage, |filtered|) {
        Paginate(currentPage + 1);
      }
      if old(PageInRange(currentPage, |filtered|)) {
        ClickKeepsRange(old(currentPage), |filtered|, Next);
      }
    }

    /** `handleReadMore`: select the announcement and open the dialog. */
    method ReadMore(a: AnnouncementRecord)
      requires Valid()
      modifies this`selected, this`isModalOpen
      ensures Valid() && selected == Some(a) && isModalOpen
    {
      selected := Some(a);
      isModalOpen := true;
    }

    /** Closing the dialog hides it but keeps the selection. */
    method CloseModal()
      requires Valid()
      modifies this`isModalOpen
      ensures Valid() && !isModalOpen
    {
      isModalOpen := false;
    }
  }
}
