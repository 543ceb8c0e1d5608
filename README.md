# Verified model of the DevsOnLoop club website's page state

The DevsOnLoop site is a React single-page site for a student developer club. Almost all of it is
markup; the little logic it has lives in five page components, and this project models that logic
in Dafny and proves what the pages promise:

- **Announcements** (`Announcement`): a fixed list of eight announcements. It is filtered by a
  category tab ("All" means no constraint) and by a case-insensitive search over title and
  description. Every re-filter returns to page 1. The result is shown six to a page with
  Previous/Next buttons, and one announcement can be selected for a detail dialog.
- **Learning resources** (`LearningResources`): a type filter chosen by tab, the tab labels, the
  type-to-icon choice and the selected-resource dialog.
- **Home page** (`Hero`): the carousel index with its forward, back and timer steps, and the
  roadmap's active step with the content it selects.
- **Events** (`Events`): the upcoming/past tab, the list it selects and the selected-event dialog.
- **Contact form** (`Contact`): per-field updates, the two-step submit flow, and the button and
  message styling derived from the state.

Shared modules model the JavaScript operations the pages use:
- `Seqs`: `Array.prototype.filter`, as a stable `Filter`, and the subsequence relation.
- `Text`: `toLowerCase`, `toUpperCase` and `includes`, with case mapping over ASCII letters only.
- `JsOps`: `Array.prototype.slice` with its negative-index rule, and the truncating remainder `%`.
- `Optional`: a state cell that holds an object or `null`.

The pure parts of each page, such as filter chains, slices and index arithmetic, are functions with
lemmas. Each page's state is a class. Its fields are the React state cells, and its methods are the
event handlers. A handler's `ensures` gives the whole new state in terms of the old one.

Three points of the code's own behaviour:
- `paginate` sets the page unconditionally; there is no clamping `goTo`. The page stays in range
  only because a disabled button does not fire (`ClicksKeepRange`, `ClickNext`, `ClickPrevious`).
- An empty filtered list shows "Page 1 of 0": `PageCount(0) == 0`, with no correction.
- Clicking the tab that is already active does not return to page 1. React skips a state update to
  an unchanged value, so the `[activeTab, searchTerm]` effect does not run (`SelectTab`,
  `ChangeSearch`). The Filter button always re-runs the filter and resets the page.

## Model

| member | source | states |
|---|---|---|
| Seqs.Filter | src/components/Announcement/Announcement.jsx:198 | the filtered list is no longer than the input and every element of it passes the test |
| Seqs.FilterMembership | src/components/LearningResources/LearningResources.jsx:175 | a value is kept iff it occurs in the input and passes the test |
| Seqs.FilterCount | src/components/Announcement/Announcement.jsx:198 | a passing value occurs in the result exactly as often as in the input, and a failing value not at all |
| Seqs.FilterIsSubsequence | src/components/Announcement/Announcement.jsx:202-205 | the filtered list is an order-preserving subsequence of the input |
| Seqs.SubsequenceMultiset | src/components/Announcement/Announcement.jsx:194-205 | a subsequence never holds a value more often than the original, so filtering duplicates nothing |
| Seqs.FilterIdempotent | src/components/Announcement/Announcement.jsx:202-205 | filtering twice with the same test equals filtering once |
| Text.Lower | src/components/Announcement/Announcement.jsx:203 | lowering an ASCII capital adds 32, leaves every other character alone, and never yields a capital |
| Text.Upper | src/components/LearningResources/LearningResources.jsx:190 | raising an ASCII small letter subtracts 32, leaves every other character alone, and never yields a small letter |
| Text.ToLower | src/components/Announcement/Announcement.jsx:203-204 | the lowered string has the same length and is lowered character by character |
| Text.ToUpper | src/components/LearningResources/LearningResources.jsx:190 | the raised string has the same length and is raised character by character |
| Text.ToLowerOfUpper | src/components/Announcement/Announcement.jsx:203-204 | raising and then lowering a string gives the same result as lowering it |
| Text.ContainsAt | src/components/Announcement/Announcement.jsx:203 | `includes` finds any block of the string equal to the term |
| Text.ContainsBlock | src/components/Announcement/Announcement.jsx:203 | conversely, whenever `includes` holds it returns a position where a block of the string equals the term; with `ContainsAt`, `includes` holds iff such a block exists |
| Text.ContainsChars | src/components/Contact/Contact.jsx:138 | every character of a contained string occurs in the container |
| Text.NotContainsByMissingChar | src/components/Contact/Contact.jsx:138 | a string lacking one of the term's characters does not contain the term |
| JsOps.Clamp | src/components/Announcement/Announcement.jsx:214 | a slice argument is clamped to `[0, len]`; a negative argument counts back from the end |
| JsOps.SliceNonNegative | src/components/Announcement/Announcement.jsx:214 | with non-negative bounds, `slice` is the window `[start, end)` clipped to the list, and at most `end - start` long |
| JsOps.Rem | src/components/HeroSection/HeroSection.jsx:93 | JavaScript's `%` with a positive divisor lies in `[0, b)` for a non-negative dividend and in `(-b, 0]` for a negative one |
| JsOps.RemOdd | src/components/HeroSection/HeroSection.jsx:93-97 | negating the dividend negates JavaScript's `%`, so together with the non-negative case the remainder's value is fixed for every dividend, as truncating division gives it |
| JsOps.RemNonNegative | src/components/HeroSection/HeroSection.jsx:97 | on non-negative dividends JavaScript's `%` agrees with Dafny's |
| Announcement.CategoriesAreTabs | src/components/Announcement/Announcement.jsx:126-186 | every announcement's category is one of the tabs other than "All" |
| Announcement.MatchingMembership | src/components/Announcement/Announcement.jsx:194-206 | a record is kept iff it is in the list, its category is the tab (unless "All"), and its lowered title or description contains the lowered term (unless the term is empty) |
| Announcement.MatchingAllPass | src/components/Announcement/Announcement.jsx:197-199 | every kept record passes both stages; under any tab other than "All", every kept record has that category |
| Announcement.MatchingIsSubsequence | src/components/Announcement/Announcement.jsx:194-205 | the filtered list is a subsequence of all announcements in the original order, with no duplication |
| Announcement.MatchingWholeList | src/components/Announcement/Announcement.jsx:195-206 | the filter returns the whole list iff every record passes |
| Announcement.NeutralFilterKeepsAll | src/components/Announcement/Announcement.jsx:197-201 | the tab "All" with an empty search returns the full list |
| Announcement.MatchingIdempotent | src/components/Announcement/Announcement.jsx:194-210 | re-running the filter with an unchanged tab and term gives the same list |
| Announcement.SearchIgnoresCase | src/components/Announcement/Announcement.jsx:201-205 | a search term typed in upper or lower case keeps the same records |
| Announcement.EventsTabContents | src/components/Announcement/Announcement.jsx:129-199 | the "Events" tab with an empty search shows announcements 1, 3, 4 and 8 in that order, on one page |
| Announcement.FullContentNotSearched | src/components/Announcement/Announcement.jsx:202-205 | changing an announcement's full content never changes whether the search finds it |
| Announcement.PageCount | src/components/Announcement/Announcement.jsx:271 | the page total is `ceil(N/6)`: zero for an empty list, otherwise the least count of six-record pages that holds N |
| Announcement.PageWindow | src/components/Announcement/Announcement.jsx:212-214 | from page 1 up, the page is `filtered[(p-1)*6 .. p*6)` clipped to the list, at most six records |
| Announcement.PagesUpToPrefix | src/components/Announcement/Announcement.jsx:212-214 | pages 1..k laid end to end are the first `min(6k, N)` records |
| Announcement.PagesCoverList | src/components/Announcement/Announcement.jsx:212-214 | pages 1..ceil(N/6) laid end to end give back the filtered list, with lengths summing to N; every page holds at most six records, and a page past the last is empty |
| Announcement.NextDisabledAtEnd | src/components/Announcement/Announcement.jsx:265-277 | from page 1 up, Next is disabled iff the page is at or past the last one, iff the next page would be empty; on an empty list both buttons are disabled on page 1 |
| Announcement.ClickKeepsRange | src/components/Announcement/Announcement.jsx:262-280 | a click on Previous or Next keeps the page within `[1, max(1, ceil(N/6))]` |
| Announcement.ClicksKeepRange | src/components/Announcement/Announcement.jsx:262-280 | any sequence of clicks from a page in range, page 1 included, stays in that range |
| Announcement.AnnouncementPage.constructor | src/components/Announcement/Announcement.jsx:120-124 | the initial state is tab "All", an empty search, page 1, the full list, no selection and a closed dialog |
| Announcement.AnnouncementPage.FilterAnnouncements | src/components/Announcement/Announcement.jsx:194-210 | the shown list becomes the filter of all announcements by the current tab and term, and the page becomes 1; nothing else changes |
| Announcement.AnnouncementPage.SelectTab | src/components/Announcement/Announcement.jsx:235 | the tab is set; only if it changed, the list is re-filtered and the page reset to 1; the selection and dialog are untouched |
| Announcement.AnnouncementPage.ChangeSearch | src/components/Announcement/Announcement.jsx:243 | the term is set; only if it changed, the list is re-filtered and the page reset to 1; the selection and dialog are untouched |
| Announcement.AnnouncementPage.Paginate | src/components/Announcement/Announcement.jsx:216 | the page becomes the given number, with no check, nothing else changes, and the filtered list still matches the tab and term |
| Announcement.AnnouncementPage.ClickPrevious | src/components/Announcement/Announcement.jsx:262-269 | the page goes down by one unless it is 1; a page in range stays in range |
| Announcement.AnnouncementPage.ClickNext | src/components/Announcement/Announcement.jsx:273-280 | the page goes up by one unless `page*6 >= N`; a page in range stays in range |
| Announcement.AnnouncementPage.ReadMore | src/components/Announcement/Announcement.jsx:218-221 | the clicked announcement is selected and the dialog opens; tab, term, page and list are untouched, so the filter invariant holds |
| Announcement.AnnouncementPage.CloseModal | src/components/Announcement/Announcement.jsx:295 | the dialog closes, the selection is kept, and the filter invariant holds |
| LearningResources.FilteredResourcesSpec | src/components/LearningResources/LearningResources.jsx:173-175 | under "all" the list is returned unchanged; under any other tab a resource is kept iff its lowered type equals the tab; order is preserved |
| LearningResources.LoweredKinds | src/components/LearningResources/LearningResources.jsx:120-166 | the page's types "Video", "Document" and "PPT" lower to "video", "document" and "ppt" |
| LearningResources.TabsOnResourceList | src/components/LearningResources/LearningResources.jsx:116-175 | on the page's own list the "notes" tab is empty and the "video" tab holds resources 1, 3 and 5 |
| LearningResources.UpperCaseTabMatchesNothing | src/components/LearningResources/LearningResources.jsx:175 | only the type is lowered, so a tab containing a capital letter shows nothing |
| LearningResources.TabLabelSpec | src/components/LearningResources/LearningResources.jsx:190 | the label is as long as the tab, its first character is raised and the rest unchanged, and lowering the label gives the lowered tab back |
| LearningResources.LabelsOfTabs | src/components/LearningResources/LearningResources.jsx:184-190 | the five tabs are labelled All, Video, Document, Ppt and Notes |
| LearningResources.GetIconSpec | src/components/LearningResources/LearningResources.jsx:34-46 | the icon ignores case. video has its own icon, document and notes share one, ppt has its own, and every other type has none |
| LearningResources.ResourcesSection.constructor | src/components/LearningResources/LearningResources.jsx:113-114 | the initial state is tab "all" with no resource held, so the dialog is closed |
| LearningResources.ResourcesSection.SelectTab | src/components/LearningResources/LearningResources.jsx:188 | the tab is set, the shown list is that tab's filter, and the held resource is untouched |
| LearningResources.ResourcesSection.Open | src/components/LearningResources/LearningResources.jsx:200 | the clicked resource is held and the dialog is open |
| LearningResources.ResourcesSection.Close | src/components/LearningResources/LearningResources.jsx:211-213 | the held resource becomes null and the dialog is closed |
| Hero.StepsStayInRange | src/components/HeroSection/HeroSection.jsx:92-98 | from an index in `[0, n)`, forward goes to the following index, wrapping from last to first; back goes to the preceding one, wrapping from first to last; both stay in `[0, n)` |
| Hero.StepsAreInverse | src/components/HeroSection/HeroSection.jsx:93-97 | back undoes forward and forward undoes back |
| Hero.NextTimesIsOffset | src/components/HeroSection/HeroSection.jsx:87 | k forward steps from i land on `(i + k) mod n` |
| Hero.FullCycle | src/components/HeroSection/HeroSection.jsx:86-88 | n forward steps return to the starting slide |
| Hero.Carousel.constructor | src/components/HeroSection/HeroSection.jsx:83 | the carousel starts on slide 0 |
| Hero.HomeCarousel | src/components/HeroSection/HeroSection.jsx:370-396 | the home page's carousel holds the three slides of the page and starts on the first |
| Hero.Carousel.Current | src/components/HeroSection/HeroSection.jsx:112 | the slide shown is one of the items |
| Hero.Carousel.NextSlide | src/components/HeroSection/HeroSection.jsx:92-94 | the index becomes `(i + 1) % n` and stays in range |
| Hero.Carousel.PrevSlide | src/components/HeroSection/HeroSection.jsx:96-98 | the index becomes `(i - 1 + n) % n` and stays in range |
| Hero.Carousel.TimerTick | src/components/HeroSection/HeroSection.jsx:86-88 | the timer's update is the same step as the forward arrow |
| Hero.RoadmapIdsArePositions | src/components/HeroSection/HeroSection.jsx:225-340 | the six roadmap steps carry ids 1 to 6 in array order |
| Hero.LookupByPosition | src/components/HeroSection/HeroSection.jsx:407 | when ids are positions, the step at `id - 1` is the only step carrying that id, hence the only one drawn active |
| Hero.Roadmap.constructor | src/components/HeroSection/HeroSection.jsx:221 | the active step starts at 1 |
| Hero.Roadmap.Content | src/components/HeroSection/HeroSection.jsx:422 | `roadmapSteps[activeStep - 1]` is a roadmap step, its id is the active step, and it is drawn as active |
| Hero.Roadmap.ClickStep | src/components/HeroSection/HeroSection.jsx:405-409 | a click on a step makes its id the active step, and the content shown is that step |
| Events.EventIdsDistinct | src/components/Events/Events.jsx:111-272 | event ids are distinct across the upcoming and past lists together, and within each |
| Events.EventPage.constructor | src/components/Events/Events.jsx:108-109 | the initial state is the upcoming tab with no event held; the upcoming list is shown and the dialog is closed |
| Events.EventPage.Shown | src/components/Events/Events.jsx:299 | `events[activeTab]` is the upcoming list on the upcoming tab and the past list otherwise |
| Events.EventPage.ShowUpcoming | src/components/Events/Events.jsx:284-289 | the tab becomes "upcoming", the upcoming list is shown, and the held event is untouched |
| Events.EventPage.ShowPast | src/components/Events/Events.jsx:290-295 | the tab becomes "past", the past list is shown, and the held event is untouched |
| Events.EventPage.ViewDetails | src/components/Events/Events.jsx:274-276 | the clicked event is held and the dialog is open |
| Events.EventPage.Close | src/components/Events/Events.jsx:313 | the held event becomes null and the dialog is closed |
| Contact.WithFieldSpec | src/components/Contact/Contact.jsx:56-62 | an input change sets the named field to the value and leaves the other two fields unchanged |
| Contact.SuccessTextStyled | src/components/Contact/Contact.jsx:72 | the success text contains "successfully", so it gets the success style |
| Contact.FailureTextNotStyled | src/components/Contact/Contact.jsx:75 | the failure text does not contain "successfully", so it gets the error style |
| Contact.ContactPage.constructor | src/components/Contact/Contact.jsx:48-54 | the initial state has all three fields empty, is not submitting and shows no message |
| Contact.ContactPage.InputChange | src/components/Contact/Contact.jsx:57-61 | the form data becomes the old form data with the named field replaced |
| Contact.ContactPage.BeginSubmit | src/components/Contact/Contact.jsx:64-67 | fired only with all three `required` fields filled in; submitting becomes true and the message is cleared; the button is disabled and reads "Sending..." |
| Contact.ContactPage.CompleteSubmit | src/components/Contact/Contact.jsx:69-78 | on success the message is the success text and the fields are empty; on failure the message is the failure text and the fields are kept; either way submitting ends false; the message is styled as a success iff the send succeeded |
| Contact.SubmitLabelSpec | src/components/Contact/Contact.jsx:133-134 | the button reads "Sending..." iff it is disabled, iff a submit is pending |

## Left out

- Rendering: JSX, class-name assembly, icons as components and animations are presentation only. `GetIcon` returns an icon tag in place of the component.
- Timers: the `setInterval` that drives the carousel, the submit delay of `setTimeout` and the subscription toast's timeout are not modelled. Time is not modelled either. A timer firing is the step `TimerTick`. A submit is the step `BeginSubmit` followed later by `CompleteSubmit`.
- `CompleteSubmit` takes whether the send succeeded as a parameter. The simulated delay always resolves, so the failure branch models a catch that the code can never reach.
- Submit guarding: the model does not enforce that the form cannot be submitted while one submit is pending. A disabled button stops a second click, and the model exposes this as `SubmitDisabled`.
- Contact.ContactPage.BeginSubmit: the `type="email"` address-syntax check the browser applies before submitting is not modelled; only the `required` check (all three fields non-empty) is a precondition.
- Fields changed while a submit is pending: `InputChange` is allowed at any time. A successful completion then clears those edits too, as the code does.
- The newsletter subscription form and its toast (Announcement.jsx:223-227, 283-292, 305) pop up a fixed notice and hold no state the model needs.
- React's render and effect scheduling: a tab or search change and the effect it triggers are one atomic step, so the render with a stale list in between is not modelled.
- Case mapping covers ASCII letters only. JavaScript's Unicode `toLowerCase`/`toUpperCase` rules, such as special casing and non-Latin scripts, are not modelled.
- Hero.Carousel.constructor: requires at least one slide. The render reads `items[currentIndex]`, which throws on an empty list, and `(i + 1) % 0` would be NaN.
- Hero.Roadmap.ClickStep: requires the clicked step to be one of the roadmap's steps, because the click handlers exist only on the rendered steps.
- The roadmap progress-bar width (HeroSection.jsx:417) is floating-point percentage arithmetic.
- The scrollable sections' arrow visibility (HeroSection.jsx:149-155) depends on DOM scroll measurements and listeners.
- The theme toggle (`toggleTheme`, HeroSection.jsx:223) is never wired to a control.
- The project, testimonial and offering lists of the home page are static data with no logic.
- "Load More" buttons: the resources one does nothing, and the events one calls `alert`.
- `console.log`, `alert` and `e.preventDefault` are side effects with no state.
- The router table (src/main.jsx) is resolved by a router library that is not part of this model. No route points at the learning-resources page, although the header links to it.
- The header menu toggle, the team roster, the footer and the error page are static chrome and are not part of this model.
