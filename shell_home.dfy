/**
 * The shell app's landing page hero search: a non-blank text opens the
 * marketplace with the trimmed text as `q`, and the marketplace copies it
 * into its own search box.
 */
module ShellHome {
  import opened Common
  import Uri
  import ShellMarketplace

  const MarketplacePath := "/courses"

  /** `handleHeroSearch`'s navigation. */
  function HeroNavigation(heroSearch: string): Option<string> {
    Uri.SearchTarget(MarketplacePath, heroSearch)
  }

  /** A blank hero search goes nowhere; otherwise the marketplace URL carries the trimmed text as `q`. */
  lemma HeroNavigationSpec(heroSearch: string)
    ensures HeroNavigation(heroSearch).None? <==> Trim(heroSearch) == ""
    ensures Trim(heroSearch) != "" ==>
      && StartsWith(HeroNavigation(heroSearch).value, MarketplacePath + "?q=")
      && Uri.SearchParam(HeroNavigation(heroSearch).value, "q") == Some(Trim(heroSearch))
  {
    if Trim(heroSearch) != "" {
      assert '?' !in MarketplacePath && '#' !in MarketplacePath;
      Uri.SearchTargetRoundTrip(MarketplacePath, heroSearch);
    }
  }

  /** Whatever the marketplace's search box held, after the hero search it holds the trimmed hero text. */
  lemma HeroSearchFillsMarketplace(heroSearch: string, previous: string)
    requires Trim(heroSearch) != ""
    ensures ShellMarketplace.QueryFromUrl(true, HeroNavigation(heroSearch).value, previous) == Trim(heroSearch)
  {
    HeroNavigationSpec(heroSearch);
  }

  class Hero {
    var heroSearch: string

    constructor ()
      ensures heroSearch == ""
    {
      heroSearch := "";
    }

    method SetHeroSearch(text: string)
      modifies this
      ensures heroSearch == text
    {
      heroSearch := text;
    }

    /** `handleHeroSearch`: navigate and clear the box, or do nothing when the text is blank. */
    method HandleHeroSearch() returns (navigate: Option<string>)
      modifies this
      ensures navigate == HeroNavigation(old(heroSearch))
      ensures heroSearch == if navigate.Some? then "" else old(heroSearch)
    {
      navigate := HeroNavigation(heroSearch);
      if navigate.Some? {
        heroSearch := "";
      }
    }
  }
}
