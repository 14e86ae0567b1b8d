/**
 * The running reader as an object: the fields the two components and their
 * parent update in place, and one method per handler. Each method is proved
 * to leave the session exactly where the matching function of `Dispatch`
 * says, so every lemma proved there holds of the object too.
 */
module Session {
  import opened Wrappers
  import opened Text
  import opened NewsCard
  import opened Navbar
  import Dispatch
  import News

  class Session {
    var articles: seq<Article>
    var loading: bool
    var country: string
    var category: Option<string>
    var typingTimeout: nat
    var timers: map<nat, Dispatch.Timer>
    var nextHandle: nat
    var inFlight: seq<Dispatch.Request>
    var sent: seq<Dispatch.Request>
    var theme: string
    var storedTheme: Option<string>

    /** The fields as one value. */
    function Snapshot(): Dispatch.State
      reads this
    {
      Dispatch.State(articles, loading, country, category, typingTimeout, timers, nextHandle,
                     inFlight, sent, theme, storedTheme)
    }

    predicate Valid()
      reads this
    {
      Dispatch.Valid(Snapshot())
    }

    /** What the page shows now: the page `News.View` gives for these fields, whose contract carries the loader, heading and card promises. */
    function Page(): (p: News.Page)
      reads this
      ensures p.Loader? <==> loading
      ensures p.Grid? ==> |p.cards| == |articles|
      ensures p == News.View(loading, category, articles)
    {
      News.View(loading, category, articles)
    }

    /** The news page mounts with its props and the parent's articles; its effect fetches at once. */
    constructor (country: string, category: Option<string>, articles: seq<Article>,
                 theme: string, storedTheme: Option<string>)
      ensures Valid()
      ensures Snapshot() == Dispatch.Mount(country, category, articles, theme, storedTheme)
    {
      this.articles := articles;
      this.loading := false;
      this.country := country;
      this.category := category;
      this.typingTimeout := 0;
      this.timers := map[];
      this.nextHandle := 1;
      this.inFlight := [];
      this.sent := [];
      this.theme := theme;
      this.storedTheme := storedTheme;
      new;
      FetchAllNews();
    }

    /** The first half of `fetchAllNews`: raise the flag, then send the headlines request. */
    method FetchAllNews()
      requires Valid()
      modifies this
      ensures Valid()
      ensures Snapshot() == Dispatch.FetchAllNews(old(Snapshot()))
    {
      loading := true;
      var request := Dispatch.HeadlinesOf(country, category);
      inFlight := inFlight + [request];
      sent := sent + [request];
    }

    /** `handleSearch`: clear the held timer if there is one, then arm a new one for this term. */
    method HandleSearch(term: string)
      requires Valid()
      modifies this
      ensures Valid()
      ensures Snapshot() == Dispatch.HandleSearch(old(Snapshot()), term)
    {
      if typingTimeout != 0 {
        timers := timers - {typingTimeout};
      }
      var handle := nextHandle;
      nextHandle := nextHandle + 1;
      timers := timers[handle := Dispatch.Timer(SearchDelay, term)];
      typingTimeout := handle;
    }

    /** The host runs the callback of timer `h`: return on a blank term, else send the search. */
    method FireTimer(h: nat)
      requires Valid() && h in timers
      modifies this
      ensures Valid()
      ensures Snapshot() == Dispatch.FireTimer(old(Snapshot()), h)
    {
      var search := timers[h].term;
      timers := timers - {h};
      if IsBlank(search) {
        return;
      }
      var request := Dispatch.Search(search);
      inFlight := inFlight + [request];
      sent := sent + [request];
    }

    /**
     * The `i`-th request on the wire answers. On success its articles go into
     * the shared list; a headlines request then lowers the flag in any case.
     */
    method Resolve(i: nat, outcome: Dispatch.Outcome)
      requires Valid() && i < |inFlight|
      modifies this
      ensures Valid()
      ensures Snapshot() == Dispatch.ApplyResponse(old(Snapshot()), i, outcome)
    {
      ghost var after := Dispatch.ApplyResponse(Snapshot(), i, outcome);
      var request := inFlight[i];
      inFlight := inFlight[..i] + inFlight[i + 1..];
      if outcome.Succeeded? {
        articles := outcome.articles;
      }
      if request.HeadlinesOf? {
        loading := false;
      }
      assert Snapshot() == after;
    }

    /** The parent passes a new `category`; the effect runs only if it changed. */
    method SetCategory(c: Option<string>)
      requires Valid()
      modifies this
      ensures Valid()
      ensures Snapshot() == Dispatch.SetCategory(old(Snapshot()), c)
    {
      if c != category {
        category := c;
        FetchAllNews();
      }
    }

    /** The parent passes a new `country`; no effect depends on it. */
    method SetCountry(c: string)
      requires Valid()
      modifies this
      ensures Valid()
      ensures Snapshot() == Dispatch.SetCountry(old(Snapshot()), c)
    {
      country := c;
    }

    /** `toggleTheme`: the new theme goes to both the context and the store. */
    method ToggleTheme()
      requires Valid()
      modifies this
      ensures Valid()
      ensures Snapshot() == Dispatch.ToggleTheme(old(Snapshot()))
    {
      if theme == Light {
        theme := Dark;
        storedTheme := Some(Dark);
      } else {
        theme := Light;
        storedTheme := Some(Light);
      }
    }
  }

  /** On values: after a term and then a cleared box, the held timer is pending and firing it sends nothing. */
  lemma TypeThenClearState(s0: Dispatch.State, typed: string)
    requires Dispatch.Valid(s0)
    ensures var s2 := Dispatch.HandleSearch(Dispatch.HandleSearch(s0, typed), "");
      s2.typingTimeout in s2.timers
      && Dispatch.FireTimer(s2, s2.typingTimeout).sent == s0.sent
      && Dispatch.FireTimer(s2, s2.typingTimeout).articles == s0.articles
  {
    assert !Searchable("") by {
      assert Trim("") == [];
    }
  }

  /** Typing a term and clearing the box before the timer fires: no request goes out. */
  method TypeThenClear(s: Session, typed: string)
    requires s.Valid()
    modifies s
    ensures s.Valid()
    ensures s.sent == old(s.sent) && s.articles == old(s.articles)
  {
    TypeThenClearState(s.Snapshot(), typed);
    s.HandleSearch(typed);
    s.HandleSearch("");
    s.FireTimer(s.typingTimeout);
  }
}
