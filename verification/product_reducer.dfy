/**
 * The `product` slice of the frontend store: a top-level product list and four
 * sub-states (reviewsState, productDetail, topWeek, bestSelling), each with a
 * loading flag and an error. Every reducer assigns a fixed set of fields of the
 * state in place; each method below states the whole new state as the old one
 * with exactly those fields replaced.
 */
module ProductReducer {
  import opened Wrappers
  import opened Sequences

  /** A JSON value as it arrives in an action payload. */
  datatype Json = JNull | JBool(b: bool) | JNum(n: real) | JStr(s: string) | JArr(elems: seq<Json>) | JObj(fields: map<string, Json>)

  /** JavaScript truthiness of a JSON value (null and undefined are both JNull). */
  predicate Truthy(j: Json)
  {
    match j
    case JNull => false
    case JBool(b) => b
    case JNum(n) => n != 0.0
    case JStr(s) => s != ""
    case JArr(_) => true
    case JObj(_) => true
  }

  /** A review of the list: the user_id the reducer compares, and the rest of the review. */
  datatype Review = Review(userId: string, content: map<string, Json>)

  datatype ReviewsState = ReviewsState(loading: bool, error: Json, reviews: seq<Review>, newReviewProcessing: bool)
  datatype ProductDetail = ProductDetail(product: map<string, Json>, loading: bool, error: Json)
  /** topWeek and bestSelling share this shape. */
  datatype ProductList = ProductList(loading: bool, error: Json, products: seq<Json>)

  datatype SliceState = SliceState(
    countProducts: Json,
    currentPage: Json,
    loading: bool,
    error: Json,
    products: seq<Json>,
    reviewsState: ReviewsState,
    productDetail: ProductDetail,
    topWeek: ProductList,
    bestSelling: ProductList)

  const InitialState := SliceState(
    JNum(0.0), JNum(1.0), false, JNull, [],
    ReviewsState(false, JNull, [], false),
    ProductDetail(map[], false, JNull),
    ProductList(false, JNull, []),
    ProductList(false, JNull, []))

  /** Payloads of the actions. */
  datatype FailPayload = FailPayload(error: Json)
  datatype ProductsPayload = ProductsPayload(products: seq<Json>, countProducts: Json, currentPage: Json)
  datatype ListPayload = ListPayload(products: seq<Json>)
  datatype ProductPayload = ProductPayload(product: map<string, Json>)
  datatype ReviewsPayload = ReviewsPayload(reviews: seq<Review>)
  datatype NewReviewPayload = NewReviewPayload(newReview: Review, newAverageRating: Json, newCountReview: Json)

  /** The filter callback of newReviewSuccess: reviews by someone else. */
  function ByOtherUser(userId: string): Review -> bool
  {
    (r: Review) => r.userId != userId
  }

  /** The old reviews whose user_id differs, in their order. */
  function WithoutUser(reviews: seq<Review>, userId: string): seq<Review>
  {
    Filter(reviews, ByOtherUser(userId))
  }

  /** [newReview, ...update_reviews]: the new review first, then every other user's old review. */
  function MergeNewReview(reviews: seq<Review>, newReview: Review): (r: seq<Review>)
    ensures |r| >= 1 && r[0] == newReview
    ensures |r| <= |reviews| + 1
    ensures forall k :: 1 <= k < |r| ==> r[k].userId != newReview.userId
    ensures forall x :: x in r[1..] <==> x in reviews && x.userId != newReview.userId
    ensures IsSubsequence(r[1..], reviews)
    ensures forall x :: multiset(r[1..])[x] == if x.userId != newReview.userId then multiset(reviews)[x] else 0
  {
    var rest := WithoutUser(reviews, newReview.userId);
    assert ([newReview] + rest)[1..] == rest;
    forall x
      ensures multiset(rest)[x] == if x.userId != newReview.userId then multiset(reviews)[x] else 0
    {
      FilterMultiplicity(reviews, ByOtherUser(newReview.userId), x);
    }
    forall k | 0 <= k < |rest|
      ensures rest[k].userId != newReview.userId
    {
      assert rest[k] in rest;
    }
    assert forall k :: 1 <= k < |[newReview] + rest| ==> ([newReview] + rest)[k] == rest[k - 1];
    [newReview] + rest
  }

  /** Submitting the same review twice leaves the list as submitting it once. */
  lemma MergeNewReviewIdempotent(reviews: seq<Review>, newReview: Review)
    ensures MergeNewReview(MergeNewReview(reviews, newReview), newReview) == MergeNewReview(reviews, newReview)
  {
    var once := MergeNewReview(reviews, newReview);
    var rest := WithoutUser(reviews, newReview.userId);
    assert once == [newReview] + rest;
    assert once[1..] == rest;
    FilterIdempotent(reviews, ByOtherUser(newReview.userId));
    assert WithoutUser(once, newReview.userId) == WithoutUser(rest, newReview.userId);
  }

  /** No two reviews of the list are by the same user. */
  ghost predicate OneReviewPerUser(reviews: seq<Review>)
  {
    forall i, j :: 0 <= i < j < |reviews| ==> reviews[i].userId != reviews[j].userId
  }

  /** A list with one review per user keeps that property when a review is merged in. */
  lemma MergeKeepsOneReviewPerUser(reviews: seq<Review>, newReview: Review)
    requires OneReviewPerUser(reviews)
    ensures OneReviewPerUser(MergeNewReview(reviews, newReview))
  {
    var userOf := (r: Review) => r.userId;
    assert Distinct(reviews, userOf);
    FilterKeepsDistinct(reviews, ByOtherUser(newReview.userId), userOf);
    var rest := WithoutUser(reviews, newReview.userId);
    DistinctCons(newReview, rest, userOf);
    assert MergeNewReview(reviews, newReview) == [newReview] + rest;
  }

  /** product.review when it is an object; spreading anything else contributes no keys. */
  function CurrentReview(product: map<string, Json>): map<string, Json>
  {
    if "review" in product && product["review"].JObj? then product["review"].fields else map[]
  }

  /** { ...current_review, average_rating, count_reviews } stored back as product.review. */
  function WithRatings(product: map<string, Json>, averageRating: Json, countReviews: Json): (p: map<string, Json>)
    ensures p.Keys == product.Keys + {"review"}
    ensures forall k :: k in product && k != "review" ==> p[k] == product[k]
    ensures p["review"].JObj?
    ensures var review := p["review"].fields;
      && review.Keys == CurrentReview(product).Keys + {"average_rating", "count_reviews"}
      && review["average_rating"] == averageRating
      && review["count_reviews"] == countReviews
      && forall k :: k in CurrentReview(product) && k != "average_rating" && k != "count_reviews" ==>
           review[k] == CurrentReview(product)[k]
  {
    product["review" := JObj(CurrentReview(product)["average_rating" := averageRating]["count_reviews" := countReviews])]
  }

  class ProductsSlice {
    var countProducts: Json
    var currentPage: Json
    var loading: bool
    var error: Json
    var products: seq<Json>
    var reviewsState: ReviewsState
    var productDetail: ProductDetail
    var topWeek: ProductList
    var bestSelling: ProductList

    /** The whole slice as one value. */
    function State(): SliceState
      reads this
    {
      SliceState(countProducts, currentPage, loading, error, products,
                 reviewsState, productDetail, topWeek, bestSelling)
    }

    constructor ()
      ensures State() == InitialState
    {
      countProducts, currentPage, loading, error, products := JNum(0.0), JNum(1.0), false, JNull, [];
      reviewsState := ReviewsState(false, JNull, [], false);
      productDetail := ProductDetail(map[], false, JNull);
      topWeek := ProductList(false, JNull, []);
      bestSelling := ProductList(false, JNull, []);
    }

    method CreateNewProductRequest()
      modifies this
      ensures State() == old(State()).(productDetail := old(productDetail).(loading := true, error := JNull))
    {
      productDetail := productDetail.(loading := true, error := JNull);
    }

    method CreateNewProductSuccess()
      modifies this
      ensures State() == old(State()).(productDetail := old(productDetail).(loading := false))
    {
      productDetail := productDetail.(loading := false);
    }

    method CreateNewProductFail(payload: FailPayload)
      modifies this
      ensures State() == old(State()).(productDetail := old(productDetail).(loading := false, error := payload.error))
    {
      productDetail := productDetail.(loading := false, error := payload.error);
    }

    method UpdateProductRequest()
      modifies this
      ensures State() == old(State()).(productDetail := old(productDetail).(loading := true, error := JNull))
    {
      productDetail := productDetail.(loading := true, error := JNull);
    }

    method UpdateProductSuccess()
      modifies this
      ensures State() == old(State()).(productDetail := old(productDetail).(loading := false))
    {
      productDetail := productDetail.(loading := false);
    }

    method UpdateProductFail(payload: FailPayload)
      modifies this
      ensures State() == old(State()).(productDetail := old(productDetail).(loading := false, error := payload.error))
    {
      productDetail := productDetail.(loading := false, error := payload.error);
    }

    method DeleteProductRequest()
      modifies this
      ensures State() == old(State()).(productDetail := old(productDetail).(loading := true, error := JNull))
    {
      productDetail := productDetail.(loading := true, error := JNull);
    }

    method DeleteProductSuccess()
      modifies this
      ensures State() == old(State()).(productDetail := old(productDetail).(loading := false))
    {
      productDetail := productDetail.(loading := false);
    }

    /** The one Fail reducer that tolerates a missing payload and keeps the error unless a truthy one arrives. */
    method DeleteProductFail(payload: Option<FailPayload>)
      modifies this
      ensures payload.Some? && Truthy(payload.value.error) ==>
        State() == old(State()).(productDetail := old(productDetail).(loading := false, error := payload.value.error))
      ensures !(payload.Some? && Truthy(payload.value.error)) ==>
        State() == old(State()).(productDetail := old(productDetail).(loading := false))
    {
      productDetail := productDetail.(loading := false);
      if payload.Some? && Truthy(payload.value.error) {
        productDetail := productDetail.(error := payload.value.error);
      }
    }

    method GetProductsRequest()
      modifies this
      ensures State() == old(State()).(error := JNull, loading := true)
    {
      error := JNull;
      loading := true;
    }

    method GetProductsSuccess(payload: ProductsPayload)
      modifies this
      ensures State() == old(State()).(products := payload.products, countProducts := payload.countProducts,
                                       currentPage := payload.currentPage, loading := false)
    {
      products := payload.products;
      countProducts := payload.countProducts;
      currentPage := payload.currentPage;
      loading := false;
    }

    method GetProductsFail(payload: FailPayload)
      modifies this
      ensures State() == old(State()).(error := payload.error, loading := false)
    {
      error := payload.error;
      loading := false;
    }

    method GetTopWeekRequest()
      modifies this
      ensures State() == old(State()).(topWeek := old(topWeek).(error := JNull, loading := true))
    {
      topWeek := topWeek.(error := JNull, loading := true);
    }

    method GetTopWeekSuccess(payload: ListPayload)
      modifies this
      ensures State() == old(State()).(topWeek := old(topWeek).(products := payload.products, loading := false))
    {
      topWeek := topWeek.(products := payload.products, loading := false);
    }

    method GetTopWeekFail(payload: FailPayload)
      modifies this
      ensures State() == old(State()).(topWeek := old(topWeek).(error := payload.error, loading := false))
    {
      topWeek := topWeek.(error := payload.error, loading := false);
    }

    method GetBestSellingRequest()
      modifies this
      ensures State() == old(State()).(bestSelling := old(bestSelling).(error := JNull, loading := true))
    {
      bestSelling := bestSelling.(error := JNull, loading := true);
    }

    method GetBestSellingSuccess(payload: ListPayload)
      modifies this
      ensures State() == old(State()).(bestSelling := old(bestSelling).(products := payload.products, loading := false))
    {
      bestSelling := bestSelling.(products := payload.products, loading := false);
    }

    method GetBestSellingFail(payload: FailPayload)
      modifies this
      ensures State() == old(State()).(bestSelling := old(bestSelling).(error := payload.error, loading := false))
    {
      bestSelling := bestSelling.(error := payload.error, loading := false);
    }

    /** Loading a product also ends any pending review submission. */
    method GetProductRequest()
      modifies this
      ensures State() == old(State()).(productDetail := old(productDetail).(error := JNull, loading := true),
                                       reviewsState := old(reviewsState).(newReviewProcessing := false))
    {
      productDetail := productDetail.(error := JNull);
      reviewsState := reviewsState.(newReviewProcessing := false);
      productDetail := productDetail.(loading := true);
    }

    method GetProductSuccess(payload: ProductPayload)
      modifies this
      ensures State() == old(State()).(productDetail := old(productDetail).(product := payload.product, loading := false))
    {
      productDetail := productDetail.(product := payload.product, loading := false);
    }

    method GetProductFail(payload: FailPayload)
      modifies this
      ensures State() == old(State()).(productDetail := old(productDetail).(error := payload.error, loading := false))
    {
      productDetail := productDetail.(error := payload.error, loading := false);
    }

    method GetReviewsRequest()
      modifies this
      ensures State() == old(State()).(reviewsState := old(reviewsState).(error := JNull, loading := true))
    {
      reviewsState := reviewsState.(error := JNull, loading := true);
    }

    method GetReviewsSuccess(payload: ReviewsPayload)
      modifies this
      ensures State() == old(State()).(reviewsState := old(reviewsState).(reviews := payload.reviews, loading := false))
    {
      reviewsState := reviewsState.(reviews := payload.reviews, loading := false);
    }

    method GetReviewsFail(payload: FailPayload)
      modifies this
      ensures State() == old(State()).(reviewsState := old(reviewsState).(error := payload.error, loading := false))
    {
      reviewsState := reviewsState.(error := payload.error, loading := false);
    }

    method NewReviewRequest()
      modifies this
      ensures State() == old(State()).(reviewsState := old(reviewsState).(newReviewProcessing := true, error := JNull))
    {
      reviewsState := reviewsState.(newReviewProcessing := true, error := JNull);
    }

    /** Put the new review first, drop the user's earlier one, and merge the new rating statistics. */
    method NewReviewSuccess(payload: NewReviewPayload)
      modifies this
      ensures State() == old(State()).(
        reviewsState := old(reviewsState).(newReviewProcessing := false,
                                           reviews := MergeNewReview(old(reviewsState.reviews), payload.newReview)),
        productDetail := old(productDetail).(product := WithRatings(old(productDetail.product),
                                                                    payload.newAverageRating, payload.newCountReview)))
    {
      var updateReviews := WithoutUser(reviewsState.reviews, payload.newReview.userId);
      reviewsState := reviewsState.(newReviewProcessing := false);
      reviewsState := reviewsState.(reviews := [payload.newReview] + updateReviews);
      var currentReview := CurrentReview(productDetail.product);
      var review := currentReview["average_rating" := payload.newAverageRating]["count_reviews" := payload.newCountReview];
      productDetail := productDetail.(product := productDetail.product["review" := JObj(review)]);
    }

    method NewReviewFail(payload: FailPayload)
      modifies this
      ensures State() == old(State()).(reviewsState := old(reviewsState).(newReviewProcessing := false, error := payload.error))
    {
      reviewsState := reviewsState.(newReviewProcessing := false, error := payload.error);
    }
  }
}
