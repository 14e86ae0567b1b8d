/**
 * The text a news card shows for one article: the source badge, the
 * shortened description, the author line and the source label.
 */
module NewsCard {
  import opened Wrappers

  /** Descriptions longer than this many characters are cut. */
  const DescriptionLimit := 100
  const Ellipsis := "..."
  const AuthorPrefix := "By "
  const UnknownAuthor := "Unknown"
  const SourcePrefix := "Source: "

  /** The `source` object of an article; only its `name` is shown. */
  datatype Source = Source(name: Option<string>)

  /** One article as the search and headline endpoints deliver it; any text field may be null. */
  datatype Article = Article(
    source: Source,
    author: Option<string>,
    title: Option<string>,
    description: Option<string>,
    url: Option<string>,
    urlToImage: Option<string>,
    publishedAt: Option<string>)

  /** The texts of one rendered card. `null` and `undefined` render as nothing. */
  datatype Card = Card(
    badge: string,
    title: Option<string>,
    description: Option<string>,
    byline: string,
    sourceLabel: string,
    link: Option<string>,
    image: Option<string>)

  function Min(a: int, b: int): int {
    if a <= b then a else b
  }

  /** What JSX prints for a possibly missing string. */
  function Shown(s: Option<string>): string {
    s.GetOr("")
  }

  /**
   * `description?.length > 100 ? description.slice(0, 100) + "..." : description`.
   * A missing description makes the comparison false and stays missing.
   */
  function DisplayDescription(d: Option<string>): (r: Option<string>)
    ensures r.Some? <==> d.Some?
    ensures r.Some? ==> |r.value| <= DescriptionLimit + |Ellipsis|
    ensures r.Some? ==> var n := Min(|d.value|, DescriptionLimit);
      n <= |r.value| && r.value[..n] == d.value[..n]
  {
    if d.Some? && |d.value| > DescriptionLimit then Some(d.value[..DescriptionLimit] + Ellipsis) else d
  }

  /** `By {author || "Unknown"}`: an empty author is as falsy as a missing one. */
  function Byline(author: Option<string>): (r: string)
    ensures |r| >= |AuthorPrefix| && r[..|AuthorPrefix|] == AuthorPrefix
    ensures author.Some? && author.value != [] ==> r[|AuthorPrefix|..] == author.value
    ensures author.None? || author.value == [] ==> r[|AuthorPrefix|..] == UnknownAuthor
  {
    AuthorPrefix + if author.Some? && author.value != [] then author.value else UnknownAuthor
  }

  /** The card for one article. */
  function RenderCard(a: Article): (c: Card)
    ensures c.sourceLabel == SourcePrefix + c.badge
    ensures c.badge == Shown(a.source.name)
    ensures c.description == DisplayDescription(a.description) && c.byline == Byline(a.author)
    ensures c.title == a.title && c.link == a.url && c.image == a.urlToImage
  {
    var badge := Shown(a.source.name);
    Card(badge, a.title, DisplayDescription(a.description), Byline(a.author),
         SourcePrefix + badge, a.url, a.urlToImage)
  }

  /** A description over the limit is its first 100 characters and an ellipsis. */
  lemma LongDescriptionCut(d: string)
    requires |d| > DescriptionLimit
    ensures DisplayDescription(Some(d)) == Some(d[..DescriptionLimit] + "...")
  {
  }

  /** A description within the limit is shown unchanged, and so is a missing one. */
  lemma ShortDescriptionKept(d: Option<string>)
    requires d.None? || |d.value| <= DescriptionLimit
    ensures DisplayDescription(d) == d
  {
  }

  /** Shortening a shown description again changes nothing. */
  lemma DisplayDescriptionIdempotent(d: Option<string>)
    ensures DisplayDescription(DisplayDescription(d)) == DisplayDescription(d)
  {
    if d.Some? && |d.value| > DescriptionLimit {
      var r := d.value[..DescriptionLimit] + Ellipsis;
      assert r[..DescriptionLimit] == d.value[..DescriptionLimit];
    }
  }

  /** A missing and an empty author both give the fallback line. */
  lemma BylineFallback()
    ensures Byline(None) == "By Unknown"
    ensures Byline(Some("")) == "By Unknown"
  {
  }

  /** Distinct authors give distinct lines, so the line never loses who wrote the article. */
  lemma BylineInjective(a: string, b: string)
    requires a != [] && b != [] && Byline(Some(a)) == Byline(Some(b))
    ensures a == b
  {
    assert a == Byline(Some(a))[|AuthorPrefix|..];
  }
}
