/**
 * The review store of dao/reviewDAO.ts: at most one review per product and
 * user, added, listed and deleted on the `reviews` table.
 */
module ReviewDao {
  import opened Sequences
  import opened ProductErrors
  import opened Failures
  import opened Schema
  import opened Db

  /** Whether review `rv` is the one `user` wrote about `model`. */
  predicate IsReviewBy(rv: Review, model: string, user: string)
  {
    rv.model == model && rv.user == user
  }

  /** `SELECT COUNT(*) ... WHERE product_model = ? AND user = ?`. */
  function CountReviews(reviews: seq<Review>, model: string, user: string): (n: nat)
    ensures n <= |reviews|
    ensures n > 0 <==> exists i :: 0 <= i < |reviews| && IsReviewBy(reviews[i], model, user)
  {
    if reviews == [] then 0
    else
      var last := reviews[|reviews| - 1];
      var pre := reviews[..|reviews| - 1];
      assert forall i :: 0 <= i < |pre| ==> pre[i] == reviews[i];
      CountReviews(pre, model, user) + if IsReviewBy(last, model, user) then 1 else 0
  }

  /** The rule the store keeps: no user reviews the same product twice. */
  ghost predicate OneReviewEach(reviews: seq<Review>)
  {
    forall i, j :: 0 <= i < j < |reviews| ==> !IsReviewBy(reviews[j], reviews[i].model, reviews[i].user)
  }

  /** While the rule holds, a product and user have at most one review between them. */
  lemma {:induction false} AtMostOneReview(reviews: seq<Review>, model: string, user: string)
    requires OneReviewEach(reviews)
    ensures CountReviews(reviews, model, user) <= 1
  {
    if reviews != [] {
      var pre := reviews[..|reviews| - 1];
      assert OneReviewEach(pre) by {
        assert forall i :: 0 <= i < |pre| ==> pre[i] == reviews[i];
      }
      AtMostOneReview(pre, model, user);
    }
  }

  /** `SELECT * FROM reviews WHERE model = ?`, mapped row by row. */
  function ProductReviews(reviews: seq<Review>, model: string): (r: seq<Review>)
    ensures |r| <= |reviews|
    ensures forall i :: 0 <= i < |r| ==> r[i] in reviews && r[i].model == model
    ensures forall i :: 0 <= i < |reviews| && reviews[i].model == model ==> reviews[i] in r
  {
    Filter(reviews, (rv: Review) => rv.model == model)
  }

  /** `DELETE FROM reviews WHERE model = ? AND user = ?`. */
  function WithoutReview(reviews: seq<Review>, model: string, user: string): (r: seq<Review>)
    ensures forall i :: 0 <= i < |r| ==> r[i] in reviews && !IsReviewBy(r[i], model, user)
    ensures forall i :: 0 <= i < |reviews| && !IsReviewBy(reviews[i], model, user) ==> reviews[i] in r
  {
    Filter(reviews, (rv: Review) => !IsReviewBy(rv, model, user))
  }

  /** `DELETE FROM reviews WHERE model = ?`. */
  function WithoutProduct(reviews: seq<Review>, model: string): (r: seq<Review>)
    ensures forall i :: 0 <= i < |r| ==> r[i] in reviews && r[i].model != model
    ensures forall i :: 0 <= i < |reviews| && reviews[i].model != model ==> reviews[i] in r
  {
    Filter(reviews, (rv: Review) => rv.model != model)
  }

  /** Deleting one user's review keeps the one-review rule. */
  lemma DeletionKeepsOneReviewEach(reviews: seq<Review>, model: string, user: string)
    requires OneReviewEach(reviews)
    ensures OneReviewEach(WithoutReview(reviews, model, user))
  {
    FilterUniqueBy(reviews, (rv: Review) => !IsReviewBy(rv, model, user), (rv: Review) => (rv.model, rv.user));
  }

  /** Deleting every review of a product keeps the one-review rule. */
  lemma ProductDeletionKeepsOneReviewEach(reviews: seq<Review>, model: string)
    requires OneReviewEach(reviews)
    ensures OneReviewEach(WithoutProduct(reviews, model))
  {
    FilterUniqueBy(reviews, (rv: Review) => rv.model != model, (rv: Review) => (rv.model, rv.user));
  }

  /** Adding a review for a product and user with none keeps the one-review rule. */
  lemma AddingKeepsOneReviewEach(reviews: seq<Review>, rv: Review)
    requires OneReviewEach(reviews)
    requires CountReviews(reviews, rv.model, rv.user) == 0
    ensures OneReviewEach(reviews + [rv])
  {
    var r := reviews + [rv];
    forall i, j | 0 <= i < j < |r| ensures !IsReviewBy(r[j], r[i].model, r[i].user) {
      if j == |reviews| {
        assert !IsReviewBy(reviews[i], rv.model, rv.user);
      }
    }
  }

  /**
   * Stores `user`'s review of `model`, dated `today`; a second review of the
   * same product by the same user is refused.  The product itself is not
   * looked up here.
   */
  method AddReview(db: Database, model: string, user: User, score: int, comment: string, today: string)
    returns (r: Outcome<()>)
    requires 1 <= score <= 5
    modifies db`reviews
    ensures r.Fail? <==> exists i :: 0 <= i < |old(db.reviews)| && IsReviewBy(old(db.reviews)[i], model, user.username)
    ensures r.Fail? ==> r.failure == ExistingReview && unchanged(db)
    ensures r.Ok? ==> db.reviews == old(db.reviews) + [Review(model, user.username, score, today, comment)]
    ensures OneReviewEach(old(db.reviews)) ==> OneReviewEach(db.reviews)
  {
    if CountReviews(db.reviews, model, user.username) > 0 {
      return Fail(ExistingReview);
    }
    var review := Review(model, user.username, score, today, comment);
    if OneReviewEach(db.reviews) {
      AddingKeepsOneReviewEach(db.reviews, review);
    }
    db.reviews := db.reviews + [review];
    r := Ok(());
  }

  /** After a review is added, the product's reviews are those it had, then the new one. */
  lemma AddedReviewIsListedLast(reviews: seq<Review>, rv: Review)
    ensures ProductReviews(reviews + [rv], rv.model) == ProductReviews(reviews, rv.model) + [rv]
  {
    assert (reviews + [rv])[..|reviews|] == reviews;
  }

  /** Deletes `user`'s review of `model`; a missing product, then a missing review, is refused. */
  method DeleteReview(db: Database, model: string, user: User) returns (r: Outcome<()>)
    modifies db`reviews
    ensures model !in old(db.products) ==> r == Fail(ProductFailure(ProductNotFound))
    ensures model in old(db.products) ==>
      (r == Fail(NoReviewProduct) <==> forall i :: 0 <= i < |old(db.reviews)| ==> !IsReviewBy(old(db.reviews)[i], model, user.username))
    ensures r.Ok? <==> model in old(db.products) && CountReviews(old(db.reviews), model, user.username) > 0
    ensures r.Fail? ==> unchanged(db)
    ensures r.Ok? ==> db.reviews == WithoutReview(old(db.reviews), model, user.username)
    ensures r.Ok? ==> CountReviews(db.reviews, model, user.username) == 0
    ensures OneReviewEach(old(db.reviews)) ==> OneReviewEach(db.reviews)
  {
    if model !in db.products {
      return Fail(ProductFailure(ProductNotFound));
    }
    if CountReviews(db.reviews, model, user.username) == 0 {
      return Fail(NoReviewProduct);
    }
    if OneReviewEach(db.reviews) {
      DeletionKeepsOneReviewEach(db.reviews, model, user.username);
    }
    db.reviews := WithoutReview(db.reviews, model, user.username);
    r := Ok(());
  }

  /** Deletes every review of `model`; a missing product is refused. */
  method DeleteReviewsOfProduct(db: Database, model: string) returns (r: Outcome<()>)
    modifies db`reviews
    ensures model !in old(db.products) <==> r == Fail(ProductFailure(ProductNotFound))
    ensures r.Ok? <==> model in old(db.products)
    ensures r.Fail? ==> unchanged(db)
    ensures r.Ok? ==> db.reviews == WithoutProduct(old(db.reviews), model)
    ensures r.Ok? ==> ProductReviews(db.reviews, model) == []
    ensures OneReviewEach(old(db.reviews)) ==> OneReviewEach(db.reviews)
  {
    if model !in db.products {
      return Fail(ProductFailure(ProductNotFound));
    }
    if OneReviewEach(db.reviews) {
      ProductDeletionKeepsOneReviewEach(db.reviews, model);
    }
    db.reviews := WithoutProduct(db.reviews, model);
    NoReviewsLeft(db.reviews, model);
    r := Ok(());
  }

  /** A product none of whose reviews is left has an empty review list. */
  lemma {:induction false} NoReviewsLeft(reviews: seq<Review>, model: string)
    requires forall i :: 0 <= i < |reviews| ==> reviews[i].model != model
    ensures ProductReviews(reviews, model) == []
  {
    if reviews != [] {
      NoReviewsLeft(reviews[..|reviews| - 1], model);
    }
  }

  /** Deletes every review. */
  method DeleteAllReviews(db: Database) returns (r: Outcome<()>)
    modifies db`reviews
    ensures r.Ok? && db.reviews == []
  {
    db.reviews := [];
    r := Ok(());
  }
}
