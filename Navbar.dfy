/**
 * The pure parts of the navigation bar: the fixed category links, the path
 * each one leads to, the colour-theme flip and the guard that decides
 * whether a typed term is worth searching for.
 */
module Navbar {
  import opened Text

  /** The seven categories, in the order the bar lists them. */
  const Links: seq<string> :=
    ["Business", "Entertainment", "General", "Health", "Science", "Sports", "Technology"]

  /** The quiet period, in milliseconds, after the last keystroke before a search starts. */
  const SearchDelay := 500

  const Light := "light"
  const Dark := "dark"

  /** The route of one link: a slash and the name in lower case. */
  function LinkPath(link: string): (p: string)
    ensures |p| == |link| + 1 && p[0] == '/'
    ensures forall i :: 1 <= i < |p| ==> !('A' <= p[i] <= 'Z')
  {
    "/" + ToLower(link)
  }

  /** A route is the path of a link when it is a slash and the link's letters lower-cased one by one. */
  lemma PathOf(link: string, route: string)
    requires |route| == |link| + 1 && route[0] == '/'
    requires forall i :: 0 <= i < |link| ==> ToLowerChar(link[i]) == route[i + 1]
    ensures LinkPath(link) == route
  {
    assert LinkPath(link) == "/" + ToLower(link);
  }

  /** The route of each of the seven links, spelled out. */
  lemma LinkRoutes()
    ensures LinkPath("Business") == "/business"
    ensures LinkPath("Entertainment") == "/entertainment"
    ensures LinkPath("General") == "/general"
    ensures LinkPath("Health") == "/health"
    ensures LinkPath("Science") == "/science"
    ensures LinkPath("Sports") == "/sports"
    ensures LinkPath("Technology") == "/technology"
  {
    PathOf("Business", "/business");
    PathOf("Entertainment", "/entertainment");
    PathOf("General", "/general");
    PathOf("Health", "/health");
    PathOf("Science", "/science");
    PathOf("Sports", "/sports");
    PathOf("Technology", "/technology");
  }

  /** The routes of the desktop and the mobile menu, one per link, in list order. */
  function NavPaths(): (ps: seq<string>)
    ensures |ps| == |Links|
    ensures ps == ["/business", "/entertainment", "/general", "/health", "/science", "/sports", "/technology"]
  {
    LinkRoutes();
    seq(|Links|, i requires 0 <= i < |Links| => LinkPath(Links[i]))
  }

  /** The theme after a click: "light" becomes "dark", any other value becomes "light". */
  function Toggled(theme: string): (t: string)
    ensures t == Dark <==> theme == Light
    ensures t == Light || t == Dark
  {
    if theme == Light then Dark else Light
  }

  /** Two clicks from either of the two themes return to it. */
  lemma ToggleTwice(theme: string)
    requires theme == Light || theme == Dark
    ensures Toggled(Toggled(theme)) == theme
  {
  }

  /** The `!search.trim()` guard, in the positive: the term has something besides white space. */
  predicate Searchable(term: string)
    ensures Searchable(term) <==> exists i :: 0 <= i < |term| && !IsWhitespace(term[i])
  {
    !IsBlank(term)
  }
}
