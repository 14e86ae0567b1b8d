# NewsApp reader core, modelled in Dafny

NewsApp is a small React news reader. Its behaviour outside the markup comes down to four things:

- The navigation bar's search box debounces keystrokes. Each keystroke clears the pending timer and arms a new 500 ms timer. When that timer fires, a non-blank term is sent upstream as a search. A successful search replaces the shared article list.
- The news page fetches the top headlines for its `country` and `category` props. It does this on mount and whenever `category` changes. While it waits, a single `loading` flag is raised. The list is replaced only when the fetch succeeds, and the flag is lowered either way.
- The theme button flips between `"light"` and `"dark"` and stores the new value.
- The card and the heading format their text: the long-description cut, the author line, the source labels, the capitalised heading and the link routes.

The model treats the two components and their shared list as one session:

- `Dispatch` is the session as a value, with one transition function per handler. `Step` and `Run` replay sequences of events. The lemmas that span several events live here.
- `Session.Session` is the same session as an object. Its fields change in place, one method per handler, and each method is proved to move the object exactly as the matching `Dispatch` function does.
- `Text`, `NewsCard`, `Navbar` and `News` hold the pure text helpers.

Timers are modelled as the host's timer table, keyed by positive handles. The search box's `typingTimeout` ref holds one handle, with 0 standing for `null`. Requests are recorded in a log of everything sent and a list of requests awaiting an answer. A response names the request it answers. Nothing tags or orders the responses, so whichever success arrives last decides the article list. `StaleHeadlinesOverwrite` and `LoaderHiddenEarly` prove the two consequences of this.

The source has no request tokens, no check for stale responses and no error state: a failure is only logged. The code also does not clear the list when a fetch starts, and it does not refetch when only `country` changes.

## Model

| member | source | states |
|---|---|---|
| Text.TrimStart | src/components/Navbar.jsx:23 | the leading trim drops a prefix made only of white space and leaves a suffix of the term that is empty or starts with a non-white-space character |
| Text.TrimEnd | src/components/Navbar.jsx:23 | the trailing trim drops a suffix made only of white space and leaves a prefix of the term that is empty or ends with a non-white-space character |
| Text.Trim | src/components/Navbar.jsx:23 | `trim` leaves a result that neither starts nor ends with white space (the ECMAScript white-space and line-terminator set) and is no longer than the input |
| Text.TrimIsInfix | src/components/Navbar.jsx:23 | the trimmed term is a contiguous middle part of the term, with only white space on either side |
| Text.BlankIffAllWhitespace | src/components/Navbar.jsx:23 | a term trims to the empty, falsy string exactly when every character is white space |
| Text.IsBlank | src/components/Navbar.jsx:23 | the falsy case of `search.trim()` holds exactly when the term is all white space, the empty term included |
| Text.ToLowerChar | src/components/Navbar.jsx:58 | an upper-case ASCII letter becomes its lower-case letter, 32 code points on; every other character is kept |
| Text.ToUpperChar | src/pages/News.jsx:95 | a lower-case ASCII letter becomes its upper-case letter, 32 code points back; every other character is kept |
| Text.ToLower | src/components/Navbar.jsx:58 | lower-casing keeps the length and maps each character on its own |
| Navbar.LinkPath | src/components/Navbar.jsx:58 | a link's route is a slash followed by as many characters as the name, none of them an ASCII capital |
| Navbar.LinkRoutes | src/components/Navbar.jsx:8 | each of the seven category names leads to its route: `Business` to `/business`, …, `Technology` to `/technology` |
| Navbar.NavPaths | src/components/Navbar.jsx:56-58 | the menu links lead, in order, to exactly `/business`, `/entertainment`, `/general`, `/health`, `/science`, `/sports`, `/technology`, one per fixed category (the mobile menu at lines 113-116 derives the same list) |
| Navbar.Toggled | src/components/Navbar.jsx:34-40 | the new theme is `"dark"` exactly when the old one was `"light"`, and it is always one of the two |
| Navbar.ToggleTwice | src/components/Navbar.jsx:33-41 | toggling twice from `"light"` or `"dark"` gives back the start theme |
| Navbar.Searchable | src/components/Navbar.jsx:23 | the guard lets a term through exactly when it holds a character that is not white space |
| NewsCard.DisplayDescription | src/components/NewsCard.jsx:32 | a shown description is present exactly when the article's is, is at most 103 characters long and agrees with the original on its first min(length, 100) characters |
| NewsCard.LongDescriptionCut | src/components/NewsCard.jsx:32 | a description over 100 characters is shown as its first 100 characters followed by `"..."` |
| NewsCard.ShortDescriptionKept | src/components/NewsCard.jsx:32 | a description of at most 100 characters, or a missing one, is shown unchanged |
| NewsCard.DisplayDescriptionIdempotent | src/components/NewsCard.jsx:32 | cutting a shown description again changes nothing |
| NewsCard.Byline | src/components/NewsCard.jsx:37 | the author line is `"By "` followed by the author when it is non-empty, otherwise by `"Unknown"` |
| NewsCard.BylineFallback | src/components/NewsCard.jsx:37 | a missing and an empty author both give `"By Unknown"` |
| NewsCard.BylineInjective | src/components/NewsCard.jsx:37 | two non-empty authors with the same line are the same author |
| NewsCard.RenderCard | src/components/NewsCard.jsx:17-48 | the badge shows `source.name` and the source label is `"Source: "` followed by that same text; the description is the cut one, the author line is the byline, and the title, link and image are the article's own |
| News.Heading | src/pages/News.jsx:95 | the heading ends in `" News"`; for a non-empty category it starts with the upper-cased first character, then the rest unchanged; for a missing or empty one it is `"Latest News"` |
| News.HeadingOfSports | src/pages/News.jsx:95 | the sports category is headed `"Sports News"` |
| News.View | src/pages/News.jsx:31-123 | the loader shows exactly while `loading`; otherwise the heading and one card per article, in article order |
| Dispatch.Mount | src/pages/News.jsx:24-26 | mounting sends exactly one headlines request, for the initial props, raises `loading`, keeps the articles, props and theme as given, holds no timer handle and arms no timer |
| Dispatch.MountedFetchOnWire | src/pages/News.jsx:24-26 | right after mounting, the one request on the wire is the headlines request for the current props |
| Dispatch.HandleSearch | src/components/Navbar.jsx:15-22 | a keystroke leaves exactly one timer pending: a new handle that was not pending before, carrying this keystroke's term and the 500 ms delay; nothing is sent and nothing else changes |
| Dispatch.FireTimer | src/components/Navbar.jsx:22-26 | the fired timer is gone; a blank term changes nothing else; any other term is sent as typed, as a search, and nothing but the timers, the sent log and the wire changes |
| Dispatch.FetchAllNews | src/pages/News.jsx:10-13 | `loading` becomes true and one headlines request for the current country and category is sent; nothing else changes |
| Dispatch.ApplyResponse | src/pages/News.jsx:14-21 | the answered request leaves the wire; success replaces the articles wholesale, failure keeps them; a headlines request lowers `loading` either way; a search leaves it as it was |
| Dispatch.SetCategory | src/pages/News.jsx:24-26 | a different category starts a headlines fetch for it, for the current country, which raises `loading` and goes on the wire; nothing else changes; the same category changes nothing |
| Dispatch.SetCountry | src/pages/News.jsx:24-26 | a new country sends nothing and changes nothing but the country |
| Dispatch.ToggleTheme | src/components/Navbar.jsx:33-41 | the theme flips and the stored theme equals the new theme; nothing else changes |
| Dispatch.Step | src/components/Navbar.jsx:15-41 | every event keeps the session invariant (at most the held timer is pending, no blank search was ever sent) and only appends to the log of sent requests |
| Dispatch.Run | src/pages/News.jsx:10-26 | any sequence of events keeps the session invariant and only appends to the log of sent requests |
| Dispatch.AtMostOnePending | src/components/Navbar.jsx:18-22 | at most one search timer is ever pending, and when one is, it is the one the search box holds |
| Dispatch.BurstKeepsLastTerm | src/components/Navbar.jsx:18-22 | after any non-empty burst of keystrokes with no timer firing in between, the only pending timer carries the burst's last term, and nothing was sent |
| Dispatch.OnlyLastTermSearched | src/components/Navbar.jsx:18-26 | after a burst, whichever timer fires, nothing is sent or exactly one search for the burst's last term is sent (and only if that term is not blank); the articles are untouched |
| Dispatch.ClearingCancelsSearch | src/components/Navbar.jsx:18-23 | typing and then clearing the box before any timer fires sends nothing |
| Dispatch.ElectionExample | src/components/Navbar.jsx:15-30 | typing "elect" then "election" in one quiet period sends exactly one search, for "election"; the first timer never fires |
| Dispatch.RawTermSent | src/components/Navbar.jsx:23-25 | the term is sent with its surrounding spaces: the trim only feeds the guard |
| Dispatch.FailureKeepsPage | src/components/Navbar.jsx:24-29 | a failed search changes nothing but the list of requests on the wire; a failed fetch keeps the articles too |
| Dispatch.LastResponseWins | src/pages/News.jsx:15 | of two successful responses, the one that arrives second decides the articles, whichever requests they answer |
| Dispatch.StaleHeadlinesOverwrite | src/pages/News.jsx:10-26 | after a category switch during a fetch, an old-category response that arrives last leaves the old category's articles under the new category |
| Dispatch.LoaderHiddenEarly | src/pages/News.jsx:12-20 | when the older fetch fails before the newer one answers, the loader is hidden while the newer fetch is still on the wire |
| Dispatch.FetchUsesCurrentCountry | src/pages/News.jsx:13 | a fetch after a country change asks for the new country and the new category |
| Dispatch.ThemeClickedTwice | src/components/Navbar.jsx:33-41 | two clicks from `"light"` or `"dark"` restore the theme, and the store then holds it |
| Session.Session.Page | src/pages/News.jsx:31-111 | the object's page is the page `News.View` gives for its flag, category and articles: the loader exactly while `loading`, otherwise the heading and one rendered card per article |
| Session.Session.constructor | src/pages/News.jsx:6-26 | a new session is the mounted session: props and articles as given, one headlines fetch on the wire |
| Session.Session.FetchAllNews | src/pages/News.jsx:10-13 | the object moves as `Dispatch.FetchAllNews` says |
| Session.Session.HandleSearch | src/components/Navbar.jsx:15-22 | clearing the held handle and arming a new timer moves the object as `Dispatch.HandleSearch` says |
| Session.Session.FireTimer | src/components/Navbar.jsx:22-26 | the timer callback moves the object as `Dispatch.FireTimer` says |
| Session.Session.Resolve | src/pages/News.jsx:14-21 | a response moves the object as `Dispatch.ApplyResponse` says |
| Session.Session.SetCategory | src/pages/News.jsx:24-26 | a category prop change moves the object as `Dispatch.SetCategory` says |
| Session.Session.SetCountry | src/pages/News.jsx:6 | a country prop change moves the object as `Dispatch.SetCountry` says |
| Session.Session.ToggleTheme | src/components/Navbar.jsx:33-41 | a click moves the object as `Dispatch.ToggleTheme` says |
| Session.TypeThenClearState | src/components/Navbar.jsx:18-23 | on session values, after a term and then a cleared box the held timer is pending, and firing it sends nothing and keeps the articles |
| Session.TypeThenClear | src/components/Navbar.jsx:18-23 | on the object, typing a term and then clearing the box before the timer fires keeps the session invariant and leaves the sent log and the articles unchanged |

## Left out

- HTTP. The axios calls, the URLs, the query-string encoding and the API key from the environment are outside the model. A request is only its kind and parameters, and a response is success with an article list or failure.
- The shape of the response body. Success is assumed to carry an article list; a body without `articles` is not modelled. Each article is also assumed to carry a `source` object. `Source` cannot be null in the model, while `source.name` on a null source throws in the source (src/components/NewsCard.jsx:17, 48).
- Real time. The timer keeps its 500 ms delay as data, but expiry is the event `TimerFires`, and the host may deliver it at any moment.
- `console.log` and `console.error` (src/pages/News.jsx:16-18, src/components/Navbar.jsx:28). They only log.
- `localStorage` I/O. Only the stored value is kept, as the field `storedTheme`.
- The theme context, the router and the parent component are not part of this model. The initial articles, props and theme are parameters of `Mount`, and prop changes are events.
- React scheduling. Each handler's state updates apply together. For the updates after an `await`, this assumes React 18's automatic batching under `createRoot`; the entry point that would establish it is not part of this model.
- Dispatch.SetCategory and Dispatch.Mount: each folds the prop change and the effect's `setLoading(true)` into one step. In the source, the component first renders with the new `category` and the old `loading` before the effect runs (src/pages/News.jsx:24-26). On mount, that first render shows the grid, not the loader. The model does not capture that intermediate render.
- All JSX markup, Tailwind classes and decorations, including the background tiles at src/pages/News.jsx:104-106. They add no text.
- The random animation offsets (src/pages/News.jsx:40-43). They are random and floating point.
- The publication date (src/components/NewsCard.jsx:40). `toLocaleDateString` depends on locale and time zone.
- The mobile menu's `open` toggle (src/components/Navbar.jsx:97, 117). It is presentation only.
- Text.ToLowerChar: lower-cases only the ASCII letters A-Z. `toLowerCase` also maps other capitals, such as `'À'` to `'à'`, and the model keeps them unchanged.
- Text.ToUpperChar: upper-cases only the ASCII letters a-z. `toUpperCase` also maps other letters, such as `'é'` to `'É'`, or turns one into two (`'ß'` to `"SS"`), and the model keeps them unchanged.
- Text.ToLower: maps only the ASCII letters A-Z. The full Unicode mapping of `toLowerCase` is not modelled; the seven link names are ASCII.
- News.Heading: upper-cases the first character only if it is an ASCII letter. `toUpperCase` can change other characters, or turn one into two (`"ß"`), and the model does not capture that.
- Strings: a Dafny `char` stands for one UTF-16 code unit, and that is what `.length`, `.slice` and `.charAt` count. A character outside the Basic Multilingual Plane counts as one here but as two in the source.
