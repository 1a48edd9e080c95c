/**
 * controllers/reviewController.ts: the catalog lookup that guards three of the
 * review operations, in front of the review store.  The lookup
 * (getProductByModel) is read as membership of the model in the catalog.
 */
module ReviewController {
  import opened Wrappers
  import opened ProductErrors
  import opened Failures
  import opened Schema
  import opened Db
  import ReviewDao

  /** The product guard: ProductNotFound when the catalog has no such model. */
  function ProductGuard(products: map<string, Product>, model: string): (e: Option<Failure>)
    ensures e.None? <==> model in products
    ensures e.Some? ==> e.value == ProductFailure(ProductNotFound)
  {
    if model in products then None else Some(ProductFailure(ProductNotFound))
  }

  /** An unknown product is refused before the reviews are touched; otherwise the store adds the review. */
  method AddReview(db: Database, model: string, user: User, score: int, comment: string, today: string)
    returns (r: Outcome<()>)
    requires 1 <= score <= 5
    modifies db`reviews
    ensures model !in old(db.products) ==> r == Fail(ProductFailure(ProductNotFound))
    ensures model in old(db.products) ==>
      (r == Fail(ExistingReview) <==> ReviewDao.CountReviews(old(db.reviews), model, user.username) > 0)
    ensures r.Ok? <==> model in old(db.products) && ReviewDao.CountReviews(old(db.reviews), model, user.username) == 0
    ensures r.Fail? ==> unchanged(db)
    ensures r.Ok? ==> db.reviews == old(db.reviews) + [Review(model, user.username, score, today, comment)]
    ensures r.Ok? ==> ReviewDao.ProductReviews(db.reviews, model) == ReviewDao.ProductReviews(old(db.reviews), model) + [db.reviews[|db.reviews| - 1]]
    ensures ReviewDao.OneReviewEach(old(db.reviews)) ==> ReviewDao.OneReviewEach(db.reviews)
  {
    var guard := ProductGuard(db.products, model);
    if guard.Some? {
      return Fail(guard.value);
    }
    r := ReviewDao.AddReview(db, model, user, score, comment, today);
    if r.Ok? {
      ReviewDao.AddedReviewIsListedLast(old(db.reviews), Review(model, user.username, score, today, comment));
    }
  }

  /** The reviews of a known product, exactly as the store lists them. */
  method GetProductReviews(db: Database, model: string) returns (r: Outcome<seq<Review>>)
    ensures model !in db.products <==> r == Fail(ProductFailure(ProductNotFound))
    ensures r.Ok? <==> model in db.products
    ensures r.Ok? ==> r.value == ReviewDao.ProductReviews(db.reviews, model)
  {
    var guard := ProductGuard(db.products, model);
    if guard.Some? {
      return Fail(guard.value);
    }
    r := Ok(ReviewDao.ProductReviews(db.reviews, model));
  }

  /** Passed straight to the store, which does its own product and review checks. */
  method DeleteReview(db: Database, model: string, user: User) returns (r: Outcome<()>)
    modifies db`reviews
    ensures model !in old(db.products) ==> r == Fail(ProductFailure(ProductNotFound))
    ensures model in old(db.products) ==>
      (r == Fail(NoReviewProduct) <==> ReviewDao.CountReviews(old(db.reviews), model, user.username) == 0)
    ensures r.Ok? <==> model in old(db.products) && ReviewDao.CountReviews(old(db.reviews), model, user.username) > 0
    ensures r.Fail? ==> unchanged(db)
    ensures r.Ok? ==> db.reviews == ReviewDao.WithoutReview(old(db.reviews), model, user.username)
  {
    r := ReviewDao.DeleteReview(db, model, user);
  }

  /** An unknown product is refused before anything is deleted; otherwise all its reviews go. */
  method DeleteReviewsOfProduct(db: Database, model: string) returns (r: Outcome<()>)
    modifies db`reviews
    ensures model !in old(db.products) <==> r == Fail(ProductFailure(ProductNotFound))
    ensures r.Ok? <==> model in old(db.products)
    ensures r.Fail? ==> unchanged(db)
    ensures r.Ok? ==> db.reviews == ReviewDao.WithoutProduct(old(db.reviews), model)
    ensures r.Ok? ==> ReviewDao.ProductReviews(db.reviews, model) == []
  {
    var guard := ProductGuard(db.products, model);
    if guard.Some? {
      return Fail(guard.value);
    }
    r := ReviewDao.DeleteReviewsOfProduct(db, model);
  }

  /** Passed straight to the store. */
  method DeleteAllReviews(db: Database) returns (r: Outcome<()>)
    modifies db`reviews
    ensures r.Ok? && db.reviews == []
  {
    r := ReviewDao.DeleteAllReviews(db);
  }
}
