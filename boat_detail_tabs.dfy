/** The detail tabs: a one-time subscription to the boat message channel binds the shown boat id. */
module DetailTabs {
  import opened Common
  import Reviews

  const ICON_ANCHOR := "utility:anchor"
  const BOAT_MESSAGE_CHANNEL := "boatMessageChannel__c"
  const REVIEWS_TAB := "reviews"

  datatype Scope = ApplicationScope

  /** The opaque handle the message service's `subscribe` returns. */
  datatype Subscription = Subscription(handle: nat)

  /** One call to the message service's `subscribe`. */
  datatype SubscribeCall = SubscribeCall(channel: string, scope: Scope)

  /** A message on the boat channel. */
  datatype BoatMessage = BoatMessage(recordId: string)

  /** The boat record fields the tabs ask for. */
  datatype BoatRecord = BoatRecord(Id: string, Name: string)

  /** The object the getRecord wire assigns to `wiredRecord`. */
  datatype WiredRecord = WiredRecord(data: Option<BoatRecord>, error: Option<string>)

  /** The lightning-tabset child, of which only the active tab is modelled. */
  class Tabset {
    var activeTabValue: Option<string>

    constructor ()
      ensures activeTabValue == None
    {
      activeTabValue := None;
    }
  }

  /** The BoatDetailTabs component. */
  class BoatDetailTabs {
    var boatId: Option<string>
    var wiredRecord: Option<WiredRecord>
    var subscription: Option<Subscription>
    /** Calls made to `subscribe` so far. */
    ghost var subscribeCalls: seq<SubscribeCall>

    /** At most one subscription is ever made, on the boat channel with application scope, and it is the one held. */
    ghost predicate Valid()
      reads this
    {
      && |subscribeCalls| <= 1
      && (subscription.Some? <==> |subscribeCalls| == 1)
      && forall c :: c in subscribeCalls ==> c == SubscribeCall(BOAT_MESSAGE_CHANNEL, ApplicationScope)
    }

    /** The framework gives the wired property its default object, with data and error undefined, at construction. */
    constructor ()
      ensures Valid()
      ensures boatId == None && subscription == None && subscribeCalls == []
      ensures wiredRecord == Some(WiredRecord(None, None))
      ensures DetailsTabIconName() == Some(ICON_ANCHOR)
    {
      boatId := None;
      wiredRecord := Some(WiredRecord(None, None));
      subscription := None;
      subscribeCalls := [];
    }

    /** The tab icon shows exactly when the record wire has provided a value. */
    function DetailsTabIconName(): (r: Option<string>)
      reads this
      ensures r == Some(ICON_ANCHOR) <==> wiredRecord.Some?
      ensures r == None <==> wiredRecord.None?
    {
      if wiredRecord.Some? then Some(ICON_ANCHOR) else None
    }

    /** The getRecord wire assigning its current value. */
    method ReceiveRecord(value: Option<WiredRecord>)
      requires Valid()
      modifies this`wiredRecord
      ensures Valid()
      ensures wiredRecord == value
    {
      wiredRecord := value;
    }

    /** Subscribes unless already subscribed or already bound to a boat; `handle` is what `subscribe` returns. */
    method SubscribeMC(handle: Subscription)
      requires Valid()
      modifies this`subscription, this`subscribeCalls
      ensures Valid()
      ensures if old(subscription).Some? || Truthy(boatId) then
          subscription == old(subscription) && subscribeCalls == old(subscribeCalls)
        else
          subscription == Some(handle) && subscribeCalls == old(subscribeCalls) + [SubscribeCall(BOAT_MESSAGE_CHANNEL, ApplicationScope)]
    {
      if subscription.Some? || Truthy(boatId) {
        return;
      }
      subscribeCalls := subscribeCalls + [SubscribeCall(BOAT_MESSAGE_CHANNEL, ApplicationScope)];
      subscription := Some(handle);
    }

    method ConnectedCallback(handle: Subscription)
      requires Valid()
      modifies this`subscription, this`subscribeCalls
      ensures Valid()
      ensures if old(subscription).Some? || Truthy(boatId) then
          subscription == old(subscription) && subscribeCalls == old(subscribeCalls)
        else
          subscription == Some(handle) && subscribeCalls == old(subscribeCalls) + [SubscribeCall(BOAT_MESSAGE_CHANNEL, ApplicationScope)]
    {
      SubscribeMC(handle);
    }

    /** The subscription's message handler: binds the message's record id. */
    method OnMessage(message: BoatMessage)
      requires Valid() && subscription.Some?
      modifies this`boatId
      ensures Valid()
      ensures boatId == Some(message.recordId)
    {
      boatId := Some(message.recordId);
    }

    /** Switches the tabset to the reviews tab and refreshes the reviews child once;
        `tabset` and `reviews` are the children the template lookup finds. */
    method HandleReviewCreated(tabset: Tabset, reviews: Reviews.BoatReviews)
      requires reviews.Valid()
      modifies tabset, reviews
      ensures tabset.activeTabValue == Some(REVIEWS_TAB)
      ensures reviews.Valid() && reviews.boatId == old(reviews.boatId) && reviews.error == old(reviews.error)
      ensures reviews.GetReviewsStep(reviews.boatId)
    {
      tabset.activeTabValue := Some(REVIEWS_TAB);
      reviews.Refresh();
    }
  }

  /** Connecting three times makes one subscribe call, and the first handle is held. */
  method ConnectThreeTimes(h1: Subscription, h2: Subscription, h3: Subscription)
    returns (held: Option<Subscription>, ghost calls: seq<SubscribeCall>)
    ensures held == Some(h1)
    ensures calls == [SubscribeCall(BOAT_MESSAGE_CHANNEL, ApplicationScope)]
  {
    var tabs := new BoatDetailTabs();
    tabs.ConnectedCallback(h1);
    tabs.ConnectedCallback(h2);
    tabs.ConnectedCallback(h3);
    held, calls := tabs.subscription, tabs.subscribeCalls;
  }

  /** The last message received decides the bound boat. */
  method LastMessageWins(handle: Subscription, first: BoatMessage, second: BoatMessage) returns (bound: Option<string>)
    ensures bound == Some(second.recordId)
  {
    var tabs := new BoatDetailTabs();
    tabs.ConnectedCallback(handle);
    tabs.OnMessage(first);
    tabs.OnMessage(second);
    bound := tabs.boatId;
  }
}
