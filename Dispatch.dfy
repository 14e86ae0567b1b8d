/**
 * The reader's session as one value: the shared article list, the news
 * page's loading flag and props, the search box's timer handle, the host's
 * pending timers, the requests on the wire and the colour theme. Each
 * handler of the two components is a function from the old session to the
 * new one; `Step` and `Run` replay a sequence of events. Nothing orders the
 * responses or tags them: whichever arrives last decides the articles.
 */
module Dispatch {
  import opened Wrappers
  import opened Text
  import opened NewsCard
  import opened Navbar

  /** A timer the host holds: its delay and the term its callback captured. */
  datatype Timer = Timer(delay: nat, term: string)

  /** A request sent upstream: a free-text search, or the headlines of a country and category. */
  datatype Request = Search(term: string) | HeadlinesOf(country: string, category: Option<string>)

  /** How a request ends: with the `articles` of the response body, or with an exception. */
  datatype Outcome = Succeeded(articles: seq<Article>) | Failed

  datatype State = State(
    articles: seq<Article>,     // the list both components write, owned by their parent
    loading: bool,              // the news page's loading flag
    country: string,            // the news page's props
    category: Option<string>,
    typingTimeout: nat,         // the search box's timer handle; 0 stands for null
    timers: map<nat, Timer>,    // the host's pending timers, by handle
    nextHandle: nat,            // the handle the host gives the next timer
    inFlight: seq<Request>,     // requests sent and not yet answered
    sent: seq<Request>,         // every request sent, in order
    theme: string,
    storedTheme: Option<string>)

  /** What can happen to a session: the user acts, a timer fires, a response arrives. */
  datatype Event =
    | Keystroke(term: string)
    | TimerFires(handle: nat)
    | Responds(index: nat, outcome: Outcome)
    | CategoryChanges(category: Option<string>)
    | CountryChanges(country: string)
    | ThemeClicked

  /** No search request ever carries a blank term. */
  predicate NoBlankSearch(rs: seq<Request>) {
    forall r :: r in rs && r.Search? ==> Searchable(r.term)
  }

  /**
   * The session invariant: the held handle is below the host's next handle,
   * every pending timer is the non-zero held one with the 500 ms delay, every
   * request awaiting its response was sent, and no blank search was sent.
   */
  predicate Valid(s: State) {
    && s.nextHandle >= 1
    && s.typingTimeout < s.nextHandle
    && (forall h :: h in s.timers ==> h == s.typingTimeout && h != 0 && s.timers[h].delay == SearchDelay)
    && (forall r :: r in s.inFlight ==> r in s.sent)
    && NoBlankSearch(s.sent)
  }

  function Send(s: State, r: Request): State {
    s.(inFlight := s.inFlight + [r], sent := s.sent + [r])
  }

  /** The session right after the news page mounts: its effect has started the first fetch. */
  function Mount(country: string, category: Option<string>, articles: seq<Article>,
                 theme: string, storedTheme: Option<string>): (t: State)
    ensures Valid(t)
    ensures t.sent == [HeadlinesOf(country, category)] && t.inFlight == t.sent
    ensures t.loading && t.articles == articles && t.timers == map[]
    ensures t.country == country && t.category == category
    ensures t.theme == theme && t.storedTheme == storedTheme
    ensures t.typingTimeout == 0 && t.nextHandle == 1
  {
    FetchAllNews(State(articles, false, country, category, 0, map[], 1, [], [], theme, storedTheme))
  }

  /**
   * `handleSearch`: clear the timer the box holds, if any, and arm a fresh
   * one that captures this keystroke's term. Nothing is sent yet.
   */
  function HandleSearch(s: State, term: string): (t: State)
    requires Valid(s)
    ensures Valid(t)
    ensures t.typingTimeout !in s.timers
    ensures t.timers == map[t.typingTimeout := Timer(SearchDelay, term)]
    ensures t.(timers := s.timers, typingTimeout := s.typingTimeout, nextHandle := s.nextHandle) == s
  {
    var timers := if s.typingTimeout != 0 then s.timers - {s.typingTimeout} else s.timers;
    var h := s.nextHandle;
    assert timers == map[];
    s.(timers := timers[h := Timer(SearchDelay, term)], typingTimeout := h, nextHandle := h + 1)
  }

  /**
   * The callback of a pending timer: a blank term returns at once; any other
   * term, untrimmed, is sent as a search. The page is not touched here.
   */
  function FireTimer(s: State, h: nat): (t: State)
    requires Valid(s) && h in s.timers
    ensures Valid(t)
    ensures t.timers == s.timers - {h} && t.typingTimeout == s.typingTimeout
    ensures t.articles == s.articles && t.loading == s.loading
    ensures !Searchable(s.timers[h].term) ==> t == s.(timers := t.timers)
    ensures Searchable(s.timers[h].term) ==>
      t.sent == s.sent + [Search(s.timers[h].term)] && t.inFlight == s.inFlight + [Search(s.timers[h].term)]
    ensures Searchable(s.timers[h].term) ==> t.(timers := s.timers, sent := s.sent, inFlight := s.inFlight) == s
  {
    var term := s.timers[h].term;
    var s1 := s.(timers := s.timers - {h});
    if IsBlank(term) then s1 else Send(s1, Search(term))
  }

  /** `fetchAllNews`, up to its `await`: raise the flag and ask for the current country and category. */
  function FetchAllNews(s: State): (t: State)
    requires Valid(s)
    ensures Valid(t)
    ensures t.loading
    ensures t.sent == s.sent + [HeadlinesOf(s.country, s.category)]
    ensures t.inFlight == s.inFlight + [HeadlinesOf(s.country, s.category)]
    ensures t.(loading := s.loading, inFlight := s.inFlight, sent := s.sent) == s
  {
    Send(s.(loading := true), HeadlinesOf(s.country, s.category))
  }

  /**
   * The response to the `i`-th request on the wire. A success overwrites the
   * articles whoever asked; a failure is only logged. A headlines request
   * clears the loading flag either way (its `finally`); a search leaves it.
   */
  function ApplyResponse(s: State, i: nat, o: Outcome): (t: State)
    requires Valid(s) && i < |s.inFlight|
    ensures Valid(t)
    ensures t.inFlight == s.inFlight[..i] + s.inFlight[i + 1..]
    ensures t.articles == if o.Succeeded? then o.articles else s.articles
    ensures s.inFlight[i].HeadlinesOf? ==> !t.loading
    ensures s.inFlight[i].Search? ==> t.loading == s.loading
    ensures t.(articles := s.articles, loading := s.loading, inFlight := s.inFlight) == s
  {
    var rest := s.inFlight[..i] + s.inFlight[i + 1..];
    var articles := if o.Succeeded? then o.articles else s.articles;
    var loading := if s.inFlight[i].HeadlinesOf? then false else s.loading;
    s.(inFlight := rest, articles := articles, loading := loading)
  }

  /** A new `category` prop; the effect on `[category]` refetches only when it differs. */
  function SetCategory(s: State, c: Option<string>): (t: State)
    requires Valid(s)
    ensures Valid(t) && t.category == c
    ensures c == s.category ==> t == s
    ensures c != s.category ==>
      t.loading && t.sent == s.sent + [HeadlinesOf(s.country, c)] && t.articles == s.articles
    ensures c != s.category ==> t.inFlight == s.inFlight + [HeadlinesOf(s.country, c)]
    ensures c != s.category ==>
      t.(category := s.category, loading := s.loading, sent := s.sent, inFlight := s.inFlight) == s
  {
    if c == s.category then s else FetchAllNews(s.(category := c))
  }

  /** A new `country` prop: not a dependency of the effect, so nothing is fetched. */
  function SetCountry(s: State, country: string): (t: State)
    requires Valid(s)
    ensures Valid(t) && t.country == country
    ensures t.sent == s.sent && t.inFlight == s.inFlight && t.loading == s.loading
    ensures t.articles == s.articles
    ensures t.(country := s.country) == s
  {
    s.(country := country)
  }

  /** `toggleTheme`: flip the theme and store the new value. */
  function ToggleTheme(s: State): (t: State)
    requires Valid(s)
    ensures Valid(t)
    ensures t.theme == Toggled(s.theme) && t.storedTheme == Some(t.theme)
    ensures t.(theme := s.theme, storedTheme := s.storedTheme) == s
  {
    var theme := Toggled(s.theme);
    s.(theme := theme, storedTheme := Some(theme))
  }

  /** One event. A timer that is not pending does not fire; a response needs its request on the wire. */
  function Step(s: State, e: Event): (t: State)
    requires Valid(s)
    ensures Valid(t)
    ensures s.sent <= t.sent
  {
    match e
    case Keystroke(term) => HandleSearch(s, term)
    case TimerFires(h) => if h in s.timers then FireTimer(s, h) else s
    case Responds(i, o) => if i < |s.inFlight| then ApplyResponse(s, i, o) else s
    case CategoryChanges(c) => SetCategory(s, c)
    case CountryChanges(c) => SetCountry(s, c)
    case ThemeClicked => ToggleTheme(s)
  }

  /** The events in order, oldest first. The log of sent requests only grows. */
  function Run(s: State, es: seq<Event>): (t: State)
    requires Valid(s)
    ensures Valid(t)
    ensures s.sent <= t.sent
    decreases |es|
  {
    if es == [] then s else Step(Run(s, es[..|es| - 1]), es[|es| - 1])
  }

  function Keystrokes(terms: seq<string>): (es: seq<Event>)
    ensures |es| == |terms|
    ensures forall i :: 0 <= i < |terms| ==> es[i] == Keystroke(terms[i])
  {
    seq(|terms|, i requires 0 <= i < |terms| => Keystroke(terms[i]))
  }

  function Last<T>(xs: seq<T>): T
    requires xs != []
  {
    xs[|xs| - 1]
  }

  lemma RunSnoc(s: State, es: seq<Event>, e: Event)
    requires Valid(s)
    ensures Run(s, es + [e]) == Step(Run(s, es), e)
  {
    assert (es + [e])[..|es|] == es;
  }

  lemma RunOne(s: State, e: Event)
    requires Valid(s)
    ensures Run(s, [e]) == Step(s, e)
  {
    RunSnoc(s, [], e);
    assert [] + [e] == [e];
  }

  lemma RunTwo(s: State, e1: Event, e2: Event)
    requires Valid(s)
    ensures Run(s, [e1, e2]) == Step(Step(s, e1), e2)
  {
    RunSnoc(s, [e1], e2);
    assert [e1] + [e2] == [e1, e2];
    RunOne(s, e1);
  }

  lemma RunThree(s: State, e1: Event, e2: Event, e3: Event)
    requires Valid(s)
    ensures Run(s, [e1, e2, e3]) == Step(Step(Step(s, e1), e2), e3)
  {
    RunSnoc(s, [e1, e2], e3);
    assert [e1, e2] + [e3] == [e1, e2, e3];
    RunTwo(s, e1, e2);
  }

  /** However the session got here, at most one search timer is pending. */
  lemma AtMostOnePending(s: State)
    requires Valid(s)
    ensures |s.timers| <= 1
    ensures s.timers != map[] ==> s.timers.Keys == {s.typingTimeout}
  {
    assert s.timers.Keys <= {s.typingTimeout};
    if s.timers != map[] {
      var h :| h in s.timers;
      assert s.timers.Keys == {s.typingTimeout};
    }
  }

  /**
   * A burst of keystrokes with no timer firing in between leaves exactly one
   * timer pending, holding the burst's last term, and sends nothing.
   */
  lemma {:induction false} BurstKeepsLastTerm(s: State, terms: seq<string>)
    requires Valid(s) && terms != []
    ensures var t := Run(s, Keystrokes(terms));
      t.timers == map[t.typingTimeout := Timer(SearchDelay, Last(terms))]
      && t.sent == s.sent && t.inFlight == s.inFlight
      && t.articles == s.articles && t.loading == s.loading
  {
    var es := Keystrokes(terms);
    var init := terms[..|terms| - 1];
    assert es[..|es| - 1] == Keystrokes(init);
    if init != [] {
      BurstKeepsLastTerm(s, init);
    } else {
      assert Keystrokes(init) == [];
    }
  }

  /**
   * After a burst, whichever timer fires, the only request that can go out
   * is a search for the burst's last term; the earlier terms are never sent.
   */
  lemma OnlyLastTermSearched(s: State, terms: seq<string>, h: nat)
    requires Valid(s) && terms != []
    ensures var t := Step(Run(s, Keystrokes(terms)), TimerFires(h));
      t.articles == s.articles
      && (t.sent == s.sent || (Searchable(Last(terms)) && t.sent == s.sent + [Search(Last(terms))]))
  {
    BurstKeepsLastTerm(s, terms);
  }

  /** Typing and then clearing the box within the quiet period sends nothing. */
  lemma ClearingCancelsSearch(s: State, typed: seq<string>, cleared: string, h: nat)
    requires Valid(s) && IsBlank(cleared)
    ensures var t := Step(Run(s, Keystrokes(typed + [cleared])), TimerFires(h));
      t.sent == s.sent && t.inFlight == s.inFlight && t.articles == s.articles
  {
    BurstKeepsLastTerm(s, typed + [cleared]);
  }

  /** "elect" then "election" in one quiet period: one search, for "election", and "elect" is gone. */
  lemma ElectionExample(s: State)
    requires Valid(s)
    ensures var t := Run(s, [Keystroke("elect"), Keystroke("election"), TimerFires(s.nextHandle + 1)]);
      t.sent == s.sent + [Search("election")] && t.timers == map[]
    ensures Run(s, [Keystroke("elect"), Keystroke("election"), TimerFires(s.nextHandle)]).sent == s.sent
  {
    assert !IsWhitespace("election"[0]);
    RunThree(s, Keystroke("elect"), Keystroke("election"), TimerFires(s.nextHandle + 1));
    RunThree(s, Keystroke("elect"), Keystroke("election"), TimerFires(s.nextHandle));
    var s2 := HandleSearch(HandleSearch(s, "elect"), "election");
    assert s2.typingTimeout == s.nextHandle + 1;
  }

  /** The term is sent as typed: the trim only decides whether to send it. */
  lemma RawTermSent(s: State)
    requires Valid(s)
    ensures Run(s, [Keystroke(" covid "), TimerFires(s.nextHandle)]).sent == s.sent + [Search(" covid ")]
  {
    assert !IsWhitespace(" covid "[1]);
    RunTwo(s, Keystroke(" covid "), TimerFires(s.nextHandle));
  }

  /** A failed request changes nothing but the set of requests on the wire (and the flag, for headlines). */
  lemma FailureKeepsPage(s: State, i: nat)
    requires Valid(s) && i < |s.inFlight|
    ensures var t := ApplyResponse(s, i, Failed);
      t.articles == s.articles && t.sent == s.sent && t.timers == s.timers
      && (s.inFlight[i].Search? ==> t == s.(inFlight := t.inFlight))
  {
  }

  /** Of two successful responses, the one that arrives second decides the articles. */
  lemma LastResponseWins(s: State, i: nat, j: nat, a: seq<Article>, b: seq<Article>)
    requires Valid(s) && i < |s.inFlight| && j < |s.inFlight| - 1
    ensures Run(s, [Responds(i, Succeeded(a)), Responds(j, Succeeded(b))]).articles == b
  {
    RunTwo(s, Responds(i, Succeeded(a)), Responds(j, Succeeded(b)));
  }

  lemma RunSwitchAndTwoResponses(s: State, c: Option<string>, o1: Outcome, o0: Outcome)
    requires Valid(s) && |s.inFlight| == 1 && c != s.category
    ensures var s1 := SetCategory(s, c);
      |s1.inFlight| == 2 &&
      Run(s, [CategoryChanges(c), Responds(1, o1), Responds(0, o0)]) == ApplyResponse(ApplyResponse(s1, 1, o1), 0, o0)
  {
    RunThree(s, CategoryChanges(c), Responds(1, o1), Responds(0, o0));
  }

  /**
   * Switching category while the previous fetch is on the wire (as right
   * after mounting): if the new category's response comes first, the page
   * ends up showing the old category's articles under the new category.
   */
  lemma StaleHeadlinesOverwrite(s: State, c: Option<string>, older: seq<Article>, newer: seq<Article>)
    requires Valid(s) && s.inFlight == [HeadlinesOf(s.country, s.category)] && c != s.category
    ensures var t := Run(s, [CategoryChanges(c), Responds(1, Succeeded(newer)), Responds(0, Succeeded(older))]);
      t.category == c && t.articles == older && !t.loading && t.inFlight == []
  {
    RunSwitchAndTwoResponses(s, c, Succeeded(newer), Succeeded(older));
    var s1 := SetCategory(s, c);
    assert s1.inFlight == [HeadlinesOf(s.country, s.category), HeadlinesOf(s.country, c)];
    var s2 := ApplyResponse(s1, 1, Succeeded(newer));
    assert s2.inFlight == [HeadlinesOf(s.country, s.category)] by {
      assert s2.inFlight == s1.inFlight[..1];
    }
  }

  /**
   * One flag for all fetches: when the earlier fetch fails after a category
   * change, the loader goes away while the new category's fetch is still on the wire.
   */
  lemma LoaderHiddenEarly(s: State, c: Option<string>)
    requires Valid(s) && s.inFlight == [HeadlinesOf(s.country, s.category)] && c != s.category
    ensures var t := Run(s, [CategoryChanges(c), Responds(0, Failed)]);
      !t.loading && t.inFlight == [HeadlinesOf(s.country, c)] && t.articles == s.articles
  {
    var s1 := SetCategory(s, c);
    assert s1.inFlight == [HeadlinesOf(s.country, s.category), HeadlinesOf(s.country, c)];
    assert s1.inFlight[1..] == [HeadlinesOf(s.country, c)];
    assert Run(s, [CategoryChanges(c), Responds(0, Failed)]) == ApplyResponse(s1, 0, Failed) by {
      RunTwo(s, CategoryChanges(c), Responds(0, Failed));
    }
  }

  /** Right after mounting, the first fetch is the one on the wire, as the two lemmas above assume. */
  lemma MountedFetchOnWire(country: string, category: Option<string>, articles: seq<Article>,
                           theme: string, storedTheme: Option<string>)
    ensures var s := Mount(country, category, articles, theme, storedTheme);
      s.inFlight == [HeadlinesOf(s.country, s.category)]
  {
  }

  /** The fetch a category change starts asks for the country as it is at that moment. */
  lemma FetchUsesCurrentCountry(s: State, country: string, c: Option<string>)
    requires Valid(s) && c != s.category
    ensures var t := Run(s, [CountryChanges(country), CategoryChanges(c)]);
      t.sent == s.sent + [HeadlinesOf(country, c)] && t.loading
  {
    assert Run(s, [CountryChanges(country), CategoryChanges(c)]) == SetCategory(SetCountry(s, country), c) by {
      RunTwo(s, CountryChanges(country), CategoryChanges(c));
    }
  }

  /** Two clicks from "light" or "dark" restore the theme, and the store then holds it. */
  lemma ThemeClickedTwice(s: State)
    requires Valid(s) && (s.theme == Light || s.theme == Dark)
    ensures var t := Step(Step(s, ThemeClicked), ThemeClicked);
      t.theme == s.theme && t.storedTheme == Some(s.theme)
  {
    var s1 := ToggleTheme(s);
    assert Step(s, ThemeClicked) == s1;
    assert Step(s1, ThemeClicked) == ToggleTheme(s1);
    ToggleTwice(s.theme);
  }
}
