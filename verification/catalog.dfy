/**
  The nested review and comment viewsets of api/views.py: how they resolve
  the parent named in the URL (`get_queryset`) and what they store when a
  row is created (`perform_create`).
*/
module Catalog {
  import opened Wrappers
  import opened Permissions

  datatype Review = Review(titleId: nat, author: nat, text: string, score: int)
  datatype Comment = Comment(reviewId: nat, author: nat, text: string)

  class Catalogue {
    var titles: set<nat>
    var reviews: map<nat, Review>
    var comments: map<nat, Comment>
    var nextReviewId: nat
    var nextCommentId: nat

    /** Keys were handed out before, and every review and comment points at a stored parent. */
    ghost predicate Valid()
      reads this
    {
      (forall id :: id in reviews ==> id < nextReviewId && reviews[id].titleId in titles) &&
      (forall id :: id in comments ==> id < nextCommentId && comments[id].reviewId in reviews)
    }

    constructor (titles: set<nat>)
      ensures Valid()
      ensures this.titles == titles && reviews == map[] && comments == map[]
    {
      this.titles := titles;
      reviews, comments := map[], map[];
      nextReviewId, nextCommentId := 1, 1;
    }

    /** `ReviewViewSet.get_queryset`: the reviews of the title in the URL, or not found when there is no such title. */
    function ReviewQueryset(titleId: nat): (r: Option<set<nat>>)
      reads this
      ensures r.Some? <==> titleId in titles
      ensures r.Some? ==> forall id :: id in r.value <==> id in reviews && reviews[id].titleId == titleId
    {
      if titleId !in titles then None
      else Some(set id | id in reviews && reviews[id].titleId == titleId)
    }

    /**
      `CommentViewSet.get_queryset`: the comments of the review in the URL.
      Only the review is looked up; the title in the URL is not consulted, so
      a review is listed under any title.
    */
    function CommentQueryset(titleId: nat, reviewId: nat): (r: Option<set<nat>>)
      reads this
      ensures r.Some? <==> reviewId in reviews
      ensures r.Some? ==> forall id :: id in r.value <==> id in comments && comments[id].reviewId == reviewId
    {
      if reviewId !in reviews then None
      else Some(set id | id in comments && comments[id].reviewId == reviewId)
    }

    /**
      `ReviewViewSet.perform_create`: not found unless the title exists;
      otherwise a new review under that title, authored by the requester, who
      the permission check has already found signed in.
    */
    method CreateReview(titleId: nat, a: Actor, text: string, score: int) returns (r: Option<nat>)
      requires Valid() && a.Member?
      modifies this
      ensures Valid()
      ensures r.None? <==> titleId !in old(titles)
      ensures r.None? ==> reviews == old(reviews) && nextReviewId == old(nextReviewId)
      ensures r.Some? ==>
        r.value == old(nextReviewId) && r.value !in old(reviews) &&
        reviews == old(reviews)[r.value := Review(titleId, a.id, text, score)] &&
        nextReviewId == old(nextReviewId) + 1
      ensures r.Some? ==> ReviewQueryset(titleId) == Some(old(ReviewQueryset(titleId)).value + {r.value})
      ensures titles == old(titles) && comments == old(comments) && nextCommentId == old(nextCommentId)
    {
      if titleId !in titles {
        return None;
      }
      ghost var listed := ReviewQueryset(titleId).value;
      var id := nextReviewId;
      reviews := reviews[id := Review(titleId, a.id, text, score)];
      nextReviewId := nextReviewId + 1;
      r := Some(id);
      assert ReviewQueryset(titleId).value == listed + {id};
    }

    /**
      `CommentViewSet.perform_create`: not found unless the review in the URL
      exists and belongs to the title in the URL; otherwise a new comment on
      that review, authored by the requester.
    */
    method CreateComment(titleId: nat, reviewId: nat, a: Actor, text: string) returns (r: Option<nat>)
      requires Valid() && a.Member?
      modifies this
      ensures Valid()
      ensures r.None? <==> !(reviewId in old(reviews) && old(reviews)[reviewId].titleId == titleId)
      ensures r.None? ==> comments == old(comments) && nextCommentId == old(nextCommentId)
      ensures r.Some? ==>
        r.value == old(nextCommentId) && r.value !in old(comments) &&
        comments == old(comments)[r.value := Comment(reviewId, a.id, text)] &&
        nextCommentId == old(nextCommentId) + 1
      ensures r.Some? ==> CommentQueryset(titleId, reviewId) == Some(old(CommentQueryset(titleId, reviewId)).value + {r.value})
      ensures titles == old(titles) && reviews == old(reviews) && nextReviewId == old(nextReviewId)
    {
      if !(reviewId in reviews && reviews[reviewId].titleId == titleId) {
        return None;
      }
      ghost var listed := CommentQueryset(titleId, reviewId).value;
      var id := nextCommentId;
      comments := comments[id := Comment(reviewId, a.id, text)];
      nextCommentId := nextCommentId + 1;
      r := Some(id);
      assert CommentQueryset(titleId, reviewId).value == listed + {id};
    }
  }
}
