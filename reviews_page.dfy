/** The reviews page (src/components/legal/ReviewsPage.tsx): the review list a submission
    prepends to, the draft form it then resets, and the five-star rendering. */
module ReviewsPage {
  datatype Review = Review(id: int, name: string, rating: int, title: string, content: string, date: string)

  /** The form's `newReview` state. */
  datatype Draft = Draft(name: string, rating: int, title: string, content: string)

  const EmptyDraft := Draft("", 5, "", "")

  const InitialReviews: seq<Review> := [
    Review(1, "Sarah Chen", 5, "Game-changing platform",
      "This platform has revolutionized how I conduct stock research. The AI summaries alone save me 10+ hours per week.", "2025-01-15"),
    Review(2, "Michael Rodriguez", 5, "Brilliant template system",
      "The template system is brilliant. I can standardize my research process and catch details I used to miss.", "2025-01-12"),
    Review(3, "Emma Thompson", 5, "Finally, a tool that gets it",
      "Finally, a tool that understands how investment professionals actually work. Intuitive and powerful.", "2025-01-10")]

  /** The form's `required` name, title and review fields: the browser fires the submit event
      only when none of them is empty. */
  predicate Submittable(d: Draft) {
    d.name != "" && d.title != "" && d.content != ""
  }

  /** The ids of a list are exactly 1, ..., n, each once. */
  predicate IdsAreOneToN(rs: seq<Review>) {
    (forall i :: 0 <= i < |rs| ==> 1 <= rs[i].id <= |rs|) &&
    (forall i, j :: 0 <= i < j < |rs| ==> rs[i].id != rs[j].id)
  }

  /** The review a submission creates: id length + 1, the draft's fields, today's date. */
  function NewReview(reviews: seq<Review>, draft: Draft, today: string): (r: Review)
    ensures r.id == |reviews| + 1 && r.date == today
    ensures r.name == draft.name && r.rating == draft.rating && r.title == draft.title && r.content == draft.content
  {
    Review(|reviews| + 1, draft.name, draft.rating, draft.title, draft.content, today)
  }

  /** The initial list holds three reviews with ids 1, 2, 3. */
  lemma InitialIds()
    ensures |InitialReviews| == 3
    ensures forall i :: 0 <= i < 3 ==> InitialReviews[i].id == i + 1
    ensures IdsAreOneToN(InitialReviews)
  {
  }

  /** Prepending the new review keeps the ids exactly 1, ..., n + 1, so no two reviews share
      an id however many are submitted. */
  lemma {:induction false} PrependKeepsIds(reviews: seq<Review>, draft: Draft, today: string)
    requires IdsAreOneToN(reviews)
    ensures IdsAreOneToN([NewReview(reviews, draft, today)] + reviews)
  {
    var rs := [NewReview(reviews, draft, today)] + reviews;
    forall i | 1 <= i < |rs| ensures rs[i] == reviews[i - 1] && rs[i].id <= |reviews| { }
  }

  /** The page's state. */
  class ReviewsPageState {
    var reviews: seq<Review>
    var newReview: Draft

    predicate Valid()
      reads this
    {
      IdsAreOneToN(reviews)
    }

    constructor ()
      ensures Valid() && reviews == InitialReviews && newReview == EmptyDraft
    {
      reviews := InitialReviews;
      newReview := EmptyDraft;
    }

    /** Submitting the form: a draft with an empty required field is held back by the browser
        and nothing changes; otherwise `handleSubmitReview` runs, the new review goes first, the
        earlier ones follow in their order and the form resets. `today` is the date part of
        the current time. */
    method HandleSubmitReview(today: string)
      requires Valid()
      modifies this
      ensures Valid()
      ensures !Submittable(old(newReview)) ==> reviews == old(reviews) && newReview == old(newReview)
      ensures Submittable(old(newReview)) ==>
        reviews == [NewReview(old(reviews), old(newReview), today)] + old(reviews) &&
        newReview == EmptyDraft
    {
      if !Submittable(newReview) {
        return;
      }
      PrependKeepsIds(reviews, newReview, today);
      var review := Review(|reviews| + 1, newReview.name, newReview.rating, newReview.title, newReview.content, today);
      reviews := [review] + reviews;
      newReview := EmptyDraft;
    }

    /** Clicking a star of the form's rating control. */
    method SetRating(star: int)
      modifies this
      ensures newReview == old(newReview).(rating := star) && reviews == old(reviews)
    {
      newReview := newReview.(rating := star);
    }
  }

  // ---------------------------------------------------------------------------
  // Stars

  /** `renderStars`: whether each of the stars 1 to 5 is drawn filled. */
  function Stars(rating: int): (r: seq<bool>)
    ensures |r| == 5
  {
    seq(5, (k: int) => k + 1 <= rating)
  }

  /** The number of true entries. */
  function CountFilled(stars: seq<bool>): (n: nat)
    ensures n <= |stars|
  {
    if stars == [] then 0 else (if stars[0] then 1 else 0) + CountFilled(stars[1..])
  }

  /** Star k (from 1) is filled exactly when k is at most the rating; so the filled stars come
      first, and their number is the rating held between 0 and 5. */
  lemma StarsFacts(rating: int)
    ensures forall i :: 0 <= i < 5 ==> (Stars(rating)[i] <==> i + 1 <= rating)
    ensures forall i, j :: 0 <= i < j < 5 && Stars(rating)[j] ==> Stars(rating)[i]
    ensures CountFilled(Stars(rating)) == if rating < 0 then 0 else if rating > 5 then 5 else rating
  {
    var st := Stars(rating);
    assert CountFilled(st[4..]) == (if st[4] then 1 else 0) by { assert st[4..][1..] == []; }
    assert CountFilled(st[3..]) == (if st[3] then 1 else 0) + CountFilled(st[4..]) by { assert st[3..][1..] == st[4..]; }
    assert CountFilled(st[2..]) == (if st[2] then 1 else 0) + CountFilled(st[3..]) by { assert st[2..][1..] == st[3..]; }
    assert CountFilled(st[1..]) == (if st[1] then 1 else 0) + CountFilled(st[2..]) by { assert st[1..][1..] == st[2..]; }
    assert CountFilled(st) == (if st[0] then 1 else 0) + CountFilled(st[1..]);
  }
}
