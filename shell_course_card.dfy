/**
 * The shell app's course card. Its props fall back to fixed defaults when they
 * are undefined (a null or empty value is kept as it is); a click asks for the
 * session first and sends a visitor without one to the central signup page with
 * the current URL as the return target.
 */
module ShellCourseCard {
  import opened Common
  import opened Uri
  import ShellMarketplace

  /**
   * The props as the card receives them: `None` is an undefined prop. Numbers the
   * card only prints (`price`, `rating`) are carried as the text they print as.
   */
  datatype Props = Props(
    id: Option<string>,
    title: Option<string>,
    instructor: Option<string>,
    price: Option<string>,
    rating: Option<string>,
    reviewsCount: Option<nat>,
    lessonsCount: Option<nat>,
    level: Option<string>,
    thumbnail: Option<string>,
    category: Option<string>,
    thumbnailUrl: Option<string>)

  /** The values the card works with once the defaults are applied. */
  datatype Shown = Shown(
    id: string,
    title: string,
    instructor: string,
    price: string,
    rating: string,
    reviewsCount: nat,
    lessonsCount: nat,
    level: string,
    thumbnail: string,
    category: string)

  const DefaultThumbnail := "https://images.unsplash.com/photo-1498050108023-c5249f4df085?auto=format&fit=crop&q=80&w=800"

  /** A destructuring default: it replaces an undefined value only. */
  function Default<T>(o: Option<T>, d: T): T {
    if o.Some? then o.value else d
  }

  function Apply(p: Props): (s: Shown) {
    Shown(
      Default(p.id, "1"),
      Default(p.title, "Premium Course Title"),
      Default(p.instructor, "Expert Instructor"),
      Default(p.price, "49.99"),
      Default(p.rating, "4.8"),
      Default(p.reviewsCount, 1240),
      Default(p.lessonsCount, 24),
      Default(p.level, "Intermediate"),
      Default(p.thumbnail, DefaultThumbnail),
      Default(p.category, "Development"))
  }

  /** A given prop is shown unchanged, even when empty; only an undefined one takes the default. */
  lemma ApplySpec(p: Props)
    ensures p.id.Some? ==> Apply(p).id == p.id.value
    ensures p.id.None? ==> Apply(p).id == "1"
    ensures p.thumbnail.Some? ==> Apply(p).thumbnail == p.thumbnail.value
    ensures p.thumbnail.None? ==> Apply(p).thumbnail == DefaultThumbnail
    ensures p.price.None? ==> Apply(p).price == "49.99"
    ensures p.title.None? ==> Apply(p).title == "Premium Course Title"
    ensures p.instructor.None? ==> Apply(p).instructor == "Expert Instructor"
    ensures p.category.None? ==> Apply(p).category == "Development"
    ensures p.level.None? ==> Apply(p).level == "Intermediate"
    ensures p.rating.None? ==> Apply(p).rating == "4.8"
    ensures p.reviewsCount.None? ==> Apply(p).reviewsCount == 1240
    ensures p.lessonsCount.None? ==> Apply(p).lessonsCount == 24
    ensures p == Props(None, None, None, None, None, None, None, None, None, None, None) ==>
      Apply(p) == Shown("1", "Premium Course Title", "Expert Instructor", "49.99", "4.8", 1240, 24,
                        "Intermediate", DefaultThumbnail, "Development")
  {
  }

  /** The image: the (defaulted) `thumbnail`, else `thumbnail_url`, else the stock photo for the id. */
  function ImageSrc(p: Props): string {
    var s := Apply(p);
    if s.thumbnail != "" then s.thumbnail
    else if Truthy(p.thumbnailUrl) then p.thumbnailUrl.value
    else StockImageUrl(s.id, "800")
  }

  /** The fallback order, and the stock photo is reached only when both thumbnails are empty. */
  lemma ImageSrcSpec(p: Props)
    ensures p.thumbnail.None? ==> ImageSrc(p) == DefaultThumbnail
    ensures Truthy(p.thumbnail) ==> ImageSrc(p) == p.thumbnail.value
    ensures p.thumbnail == Some("") && Truthy(p.thumbnailUrl) ==> ImageSrc(p) == p.thumbnailUrl.value
    ensures p.thumbnail == Some("") && !Truthy(p.thumbnailUrl) ==> ImageSrc(p) == StockImageUrl(Apply(p).id, "800")
    ensures StockImageIndex(Apply(p).id) < 8
  {
  }

  /** The marketplace's cards always carry a non-empty thumbnail, so the card shows that one. */
  lemma MarketplaceCardsShowTheirThumbnail(rows: seq<ShellMarketplace.CourseRow>, c: ShellMarketplace.CardCourse, p: Props)
    requires c in ShellMarketplace.Listing(rows)
    requires p.thumbnail == Some(c.thumbnail)
    ensures ImageSrc(p) == c.thumbnail
    ensures c.thumbnail != ""
  {
    ShellMarketplace.ListingSpec(rows);
    var r :| r in rows && ShellMarketplace.IsApproved(r) && c == ShellMarketplace.ToCard(r);
    ShellMarketplace.ToCardSpec(r);
  }

  /** The central signup form, where a visitor without a session is sent. */
  const CentralSignup: string := "http://localhost:3001/signup"

  /** Where a click leads. */
  datatype ClickResult = SignupRedirect(url: string, alertText: string) | OpenCourse(path: string)

  /** `handleCardClick`, given whether `getSession` returned a session and the page's current URL. */
  function HandleCardClick(p: Props, hasSession: bool, currentUrl: string): ClickResult {
    if !hasSession then SignupRedirect(WithParam(CentralSignup, "redirect", currentUrl), "Please login to view course details.")
    else OpenCourse("/courses/" + Apply(p).id)
  }

  /** Without a session the visitor goes to signup, which reads back the current URL; with one, to the course. */
  lemma ClickSpec(p: Props, hasSession: bool, currentUrl: string)
    ensures HandleCardClick(p, hasSession, currentUrl).OpenCourse? <==> hasSession
    ensures !hasSession ==>
      && StartsWith(HandleCardClick(p, hasSession, currentUrl).url, CentralSignup + "?" + "redirect" + "=")
      && SearchParam(HandleCardClick(p, hasSession, currentUrl).url, "redirect") == Some(currentUrl)
    ensures hasSession ==> HandleCardClick(p, hasSession, currentUrl).path == "/courses/" + Default(p.id, "1")
  {
    if !hasSession {
      CentralSignupIsPlain();
      SearchParamRoundTrip(CentralSignup, "redirect", currentUrl);
      WithParamPrefix(CentralSignup, "redirect", currentUrl);
    }
  }

  lemma CentralSignupIsPlain()
    ensures '?' !in CentralSignup && '#' !in CentralSignup
  {
  }
}
