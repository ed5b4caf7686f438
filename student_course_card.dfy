/**
 * The student app's course card: a link to the course page showing the promo
 * video (muted autoplay) when there is one, otherwise the thumbnail or a stock
 * photo, and labels with fallbacks for instructor, category, rating and price.
 */
module StudentCourseCard {
  import opened Common
  import opened Uri

  /**
   * A course as the listing hands it to the card. `rating` and `reviews` are
   * the columns the card reads (absent when the row has none); `price` is a
   * whole number.
   */
  datatype CardCourse = CardCourse(
    id: string,
    title: string,
    level: string,
    promoVideoUrl: Option<string>,
    thumbnail: Option<string>,
    thumbnailUrl: Option<string>,
    instructorName: Option<string>,
    categoryName: Option<string>,
    rating: Option<int>,
    reviews: Option<seq<string>>,
    price: int)

  /** The player parameters the card appends to the promo video: autoplay, muted, no controls, looping. */
  const AutoplayParams := "autoplay=1&mute=1&controls=0&showinfo=0&loop=1"

  /** The top of the card: video first, then `thumbnail`, then `thumbnail_url`, then the stock photo. */
  function Media(c: CardCourse): Common.Media {
    if Truthy(c.promoVideoUrl) then Video(AppendParams(c.promoVideoUrl.value, AutoplayParams))
    else if Truthy(c.thumbnail) then Picture(c.thumbnail.value)
    else if Truthy(c.thumbnailUrl) then Picture(c.thumbnailUrl.value)
    else Picture(StockImageUrl(c.id, "800"))
  }

  /** The precedence of the four sources, and the stock photo is one of the eight. */
  lemma MediaPrecedence(c: CardCourse)
    ensures Media(c).Video? <==> Truthy(c.promoVideoUrl)
    ensures !Truthy(c.promoVideoUrl) && Truthy(c.thumbnail) ==> Media(c) == Picture(c.thumbnail.value)
    ensures !Truthy(c.promoVideoUrl) && !Truthy(c.thumbnail) && Truthy(c.thumbnailUrl) ==>
      Media(c) == Picture(c.thumbnailUrl.value)
    ensures !Truthy(c.promoVideoUrl) && !Truthy(c.thumbnail) && !Truthy(c.thumbnailUrl) ==>
      exists k :: 0 <= k < 8 && Media(c) == Picture(
        "https://images.unsplash.com/photo-" + StockPhotoIds[k] + "?auto=format&fit=crop&q=80&w=800")
  {
    if !Truthy(c.promoVideoUrl) && !Truthy(c.thumbnail) && !Truthy(c.thumbnailUrl) {
      var k := StockImageIndex(c.id);
      assert Media(c) == Picture(
        "https://images.unsplash.com/photo-" + StockPhotoIds[k] + "?auto=format&fit=crop&q=80&w=800");
    }
  }

  lemma AutoplayParamsHaveNoFragment()
    ensures '#' !in AutoplayParams
  {
    assert '#' !in "autoplay=1" && '#' !in "&mute=1" && '#' !in "&controls=0";
    assert '#' !in "&showinfo=0" && '#' !in "&loop=1";
  }

  /** The video's query is the promo URL's own query followed by the autoplay parameters. */
  lemma VideoAutoplays(c: CardCourse)
    requires Truthy(c.promoVideoUrl) && '#' !in c.promoVideoUrl.value
    ensures var url := c.promoVideoUrl.value;
      QueryOf(Media(c).src) == if '?' in url then QueryOf(url) + "&" + AutoplayParams else AutoplayParams
  {
    var url := c.promoVideoUrl.value;
    AutoplayParamsHaveNoFragment();
    AppendParamsQuery(url, AutoplayParams);
    assert Media(c).src == AppendParams(url, AutoplayParams);
  }

  function InstructorLabel(c: CardCourse): string {
    OrElse(c.instructorName, "Instructor")
  }

  function CategoryLabel(c: CardCourse): string {
    OrElse(c.categoryName, "General")
  }

  /** A rating label: the number itself, or a text. */
  datatype Label = Number(value: int) | Text(text: string)

  /** `course.rating || 'New'`: a missing or zero rating shows "New". */
  function RatingLabel(c: CardCourse): Label {
    if c.rating.Some? && c.rating.value != 0 then Number(c.rating.value) else Text("New")
  }

  /** `course.price > 0 ? '$' + price : 'Free'`. */
  function PriceLabel(c: CardCourse): string {
    if c.price > 0 then "$" + DecimalString(c.price) else "Free"
  }

  /** `({course.reviews?.length || 0})`: the number of reviews in parentheses, 0 when the list is absent. */
  function ReviewsLabel(c: CardCourse): string {
    "(" + DecimalString(if c.reviews.Some? then |c.reviews.value| else 0) + ")"
  }

  /** The labels and their fallbacks; a paid price and the review count read back as numbers. */
  lemma LabelsSpec(c: CardCourse)
    ensures Truthy(c.instructorName) ==> InstructorLabel(c) == c.instructorName.value
    ensures !Truthy(c.instructorName) ==> InstructorLabel(c) == "Instructor"
    ensures Truthy(c.categoryName) ==> CategoryLabel(c) == c.categoryName.value
    ensures !Truthy(c.categoryName) ==> CategoryLabel(c) == "General"
    ensures RatingLabel(c) == Text("New") <==> c.rating.None? || c.rating.value == 0
    ensures PriceLabel(c) == "Free" <==> c.price <= 0
    ensures var l := ReviewsLabel(c);
      && |l| >= 3 && l[0] == '(' && l[|l| - 1] == ')' && IsDigits(l[1..|l| - 1])
      && DecimalValue(l[1..|l| - 1]) == if c.reviews.Some? then |c.reviews.value| else 0
    ensures c.price > 0 ==>
      && PriceLabel(c)[0] == '$' && IsDigits(PriceLabel(c)[1..])
      && DecimalValue(PriceLabel(c)[1..]) == c.price
  {
    if c.price > 0 {
      DecimalRoundTrip(c.price);
      assert PriceLabel(c)[1..] == DecimalString(c.price);
    }
    var n := if c.reviews.Some? then |c.reviews.value| else 0;
    DecimalRoundTrip(n);
    var l := ReviewsLabel(c);
    assert l[1..|l| - 1] == DecimalString(n);
  }
}
