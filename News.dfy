/** What the news page renders: the loader, or the category heading over one card per article. */
module News {
  import opened Wrappers
  import opened Text
  import opened NewsCard

  const HeadingSuffix := " News"
  const DefaultHeading := "Latest"

  /** The page: the spinner while a fetch runs, otherwise the heading and the grid of cards. */
  datatype Page = Loader | Grid(heading: string, cards: seq<Card>)

  /**
   * The category with its first character in upper case and the rest as
   * given, followed by " News"; a missing or empty category reads "Latest News".
   */
  function Heading(category: Option<string>): (h: string)
    ensures |h| >= |HeadingSuffix| && h[|h| - |HeadingSuffix|..] == HeadingSuffix
    ensures category.None? || category.value == [] ==> h == DefaultHeading + HeadingSuffix
    ensures category.Some? && category.value != [] ==>
      |h| == |category.value| + |HeadingSuffix|
      && h[0] == ToUpperChar(category.value[0])
      && h[1..|category.value|] == category.value[1..]
  {
    match category
    case Some(c) =>
      if c != [] then [ToUpperChar(c[0])] + c[1..] + HeadingSuffix
      else DefaultHeading + HeadingSuffix
    case None => DefaultHeading + HeadingSuffix
  }

  /** `loading ? <Loader/> : <grid>` with `articles.map(article => <NewsCard article={article}/>)`. */
  function View(loading: bool, category: Option<string>, articles: seq<Article>): (p: Page)
    ensures p.Loader? <==> loading
    ensures p.Grid? ==> p.heading == Heading(category) && |p.cards| == |articles|
    ensures p.Grid? ==> forall i :: 0 <= i < |articles| ==> p.cards[i] == RenderCard(articles[i])
  {
    if loading then Loader
    else Grid(Heading(category), seq(|articles|, i requires 0 <= i < |articles| => RenderCard(articles[i])))
  }

  /** The heading of a category route, for instance "sports", is "Sports News". */
  lemma HeadingOfSports()
    ensures Heading(Some("sports")) == "Sports News"
  {
    assert ToUpperChar('s') == 'S';
  }
}
