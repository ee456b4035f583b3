/** The reviews list: an imperative fetch keyed by the bound boat id, with its start, resolve, reject and finally steps. */
module Reviews {
  import opened Common

  datatype Review = Review(Id: string, Comment: string, Rating: int)

  /** The rejection value of a getAllReviews call. */
  datatype ReviewError = ReviewError(message: string)

  /** What the `boatReviews` field holds: undefined, the promise chain of a getAllReviews call keyed by `boatId`,
      or a resolved list. */
  datatype ReviewsValue = Unset | PromiseOf(boatId: string) | Loaded(reviews: seq<Review>)

  /** One getAllReviews call: the boat id it was keyed by and whether its promise has settled. */
  datatype Fetch = Fetch(boatId: string, settled: bool)

  /** The BoatReviews component. */
  class BoatReviews {
    var boatId: Option<string>
    var error: Option<ReviewError>
    var boatReviews: ReviewsValue
    var isLoading: bool
    /** getAllReviews calls issued so far, in order. */
    ghost var fetches: seq<Fetch>

    /** `boatReviews` is undefined until the first fetch, and a stored promise is the latest fetch's; every fetch had
        a non-empty id; the spinner shows only while some fetch is unsettled. */
    ghost predicate Valid()
      reads this
    {
      && (boatReviews == Unset <==> fetches == [])
      && (boatReviews.PromiseOf? ==> fetches != [] && boatReviews.boatId == fetches[|fetches| - 1].boatId)
      && (forall k :: 0 <= k < |fetches| ==> fetches[k].boatId != "")
      && (isLoading ==> exists k :: 0 <= k < |fetches| && !fetches[k].settled)
    }

    /** Undeclared initial values: every field undefined (the loading flag reads as false). */
    constructor ()
      ensures Valid()
      ensures boatId == None && error == None && boatReviews == Unset && !isLoading && fetches == []
    {
      boatId := None;
      error := None;
      boatReviews := Unset;
      isLoading := false;
      fetches := [];
    }

    /** The `recordId` getter: the bound boat id, undefined until the setter has run. */
    function RecordId(): (r: Option<string>)
      reads this
      ensures r == boatId
    {
      boatId
    }

    /** The effect of `getReviews` run when the bound id is `id`: with a truthy id, the spinner is on and exactly
        one fetch keyed by the id is issued, whose promise is stored; otherwise nothing changes. */
    twostate predicate GetReviewsStep(id: Option<string>)
      reads this
    {
      if Truthy(id) then
        && isLoading
        && fetches == old(fetches) + [Fetch(id.value, false)]
        && boatReviews == PromiseOf(id.value)
      else
        && isLoading == old(isLoading)
        && fetches == old(fetches)
        && boatReviews == old(boatReviews)
    }

    /** The `recordId` setter: binds the id and fetches, on every call, even when the id is unchanged. */
    method SetRecordId(value: Option<string>)
      requires Valid()
      modifies this`boatId, this`isLoading, this`boatReviews, this`fetches
      ensures Valid()
      ensures boatId == value && RecordId() == value
      ensures GetReviewsStep(value)
    {
      boatId := value;
      GetReviews();
    }

    /** The public refresh: exactly a getReviews call. */
    method Refresh()
      requires Valid()
      modifies this`isLoading, this`boatReviews, this`fetches
      ensures Valid()
      ensures GetReviewsStep(boatId)
    {
      GetReviews();
    }

    /** Starts a fetch when the bound id is truthy and returns at once otherwise. */
    method GetReviews()
      requires Valid()
      modifies this`isLoading, this`boatReviews, this`fetches
      ensures Valid()
      ensures GetReviewsStep(boatId)
    {
      if Truthy(boatId) {
        isLoading := true;
        fetches := fetches + [Fetch(boatId.value, false)];
        boatReviews := PromiseOf(boatId.value);
      } else {
        return;
      }
    }

    /** The `then` and `finally` handlers of fetch number `fetch`: the result replaces `boatReviews`,
        whichever fetch it belongs to. */
    method OnReviewsResolved(ghost fetch: nat, result: seq<Review>)
      requires Valid()
      requires fetch < |fetches| && !fetches[fetch].settled
      modifies this`boatReviews, this`error, this`isLoading, this`fetches
      ensures Valid()
      ensures boatReviews == Loaded(result) && error == None && !isLoading
      ensures fetches == old(fetches)[fetch := Fetch(old(fetches)[fetch].boatId, true)]
    {
      boatReviews := Loaded(result);
      error := None;
      isLoading := false;
      fetches := fetches[fetch := fetches[fetch].(settled := true)];
    }

    /** The `catch` and `finally` handlers of fetch number `fetch`: `boatReviews` keeps the settled promise. */
    method OnReviewsRejected(ghost fetch: nat, reason: ReviewError)
      requires Valid()
      requires fetch < |fetches| && !fetches[fetch].settled
      modifies this`error, this`isLoading, this`fetches
      ensures Valid()
      ensures error == Some(reason) && !isLoading
      ensures fetches == old(fetches)[fetch := Fetch(old(fetches)[fetch].boatId, true)]
    {
      error := Some(reason);
      isLoading := false;
      fetches := fetches[fetch := fetches[fetch].(settled := true)];
    }

    /** There are reviews to show as soon as one fetch has been issued: already while it loads and even after it failed. */
    function ReviewsToShow(): (r: bool)
      reads this
      requires Valid()
      ensures r <==> fetches != []
      ensures isLoading ==> r
    {
      !boatReviews.Unset?
    }
  }

  /** Setting the same id twice issues two fetches, both keyed by that id. */
  method SameIdFetchesTwice(id: string)
    returns (bound: Option<string>, stored: ReviewsValue, loading: bool, ghost fetches: seq<Fetch>)
    requires id != ""
    ensures bound == Some(id) && stored == PromiseOf(id) && loading
    ensures fetches == [Fetch(id, false), Fetch(id, false)]
  {
    var c := new BoatReviews();
    c.SetRecordId(Some(id));
    c.SetRecordId(Some(id));
    bound, stored, loading, fetches := c.boatId, c.boatReviews, c.isLoading, c.fetches;
  }

  /** A late answer to an earlier id is shown for the newer id, and clears the spinner while the newer fetch is in flight. */
  method StaleAnswerWins(first: string, second: string, firstReviews: seq<Review>)
    returns (bound: Option<string>, stored: ReviewsValue, loading: bool, ghost fetches: seq<Fetch>)
    requires first != "" && second != ""
    ensures bound == Some(second) && stored == Loaded(firstReviews) && !loading
    ensures fetches == [Fetch(first, true), Fetch(second, false)]
  {
    var c := new BoatReviews();
    c.SetRecordId(Some(first));
    c.SetRecordId(Some(second));
    c.OnReviewsResolved(0, firstReviews);
    bound, stored, loading, fetches := c.boatId, c.boatReviews, c.isLoading, c.fetches;
  }

  /** Answers arriving out of order: the newer id's answer comes first, the older id's last, and the older id's list
      is what stays shown while the newer id is bound. */
  method OutOfOrderAnswers(first: string, second: string, firstReviews: seq<Review>, secondReviews: seq<Review>)
    returns (bound: Option<string>, stored: ReviewsValue, loading: bool, ghost fetches: seq<Fetch>)
    requires first != "" && second != ""
    ensures bound == Some(second) && stored == Loaded(firstReviews) && !loading
    ensures fetches == [Fetch(first, true), Fetch(second, true)]
  {
    var c := new BoatReviews();
    c.SetRecordId(Some(first));
    c.SetRecordId(Some(second));
    c.OnReviewsResolved(1, secondReviews);
    c.OnReviewsResolved(0, firstReviews);
    bound, stored, loading, fetches := c.boatId, c.boatReviews, c.isLoading, c.fetches;
  }

  /** A rejection does not touch the list: after the older id's answer and the newer id's rejection,
      the older id's list is shown next to the newer id's error. */
  method RejectionKeepsOlderList(first: string, second: string, firstReviews: seq<Review>, reason: ReviewError)
    returns (bound: Option<string>, stored: ReviewsValue, failure: Option<ReviewError>, loading: bool)
    requires first != "" && second != ""
    ensures bound == Some(second) && stored == Loaded(firstReviews) && failure == Some(reason) && !loading
  {
    var c := new BoatReviews();
    c.SetRecordId(Some(first));
    c.SetRecordId(Some(second));
    c.OnReviewsResolved(0, firstReviews);
    c.OnReviewsRejected(1, reason);
    bound, stored, failure, loading := c.boatId, c.boatReviews, c.error, c.isLoading;
  }

  /** An empty id neither loads nor fetches. */
  method EmptyIdDoesNothing() returns (show: bool, loading: bool)
    ensures !show && !loading
  {
    var c := new BoatReviews();
    c.SetRecordId(Some(""));
    c.SetRecordId(None);
    c.Refresh();
    show, loading := c.ReviewsToShow(), c.isLoading;
  }
}
