/**
  The booking summary card (frontend/components/BookingSummaryCard.tsx):
  the activities of a confirmed itinerary as a removable list, its total,
  the collapsed three-item view, and the Stripe and PayPal checkout flows
  with their loading flag and error text.

  Activities are compared by object identity in the card; `Activity.id`
  stands for that identity. Payment requests are recorded in the state, and
  their outcomes are inputs.
*/
module BookingSummary {
  import opened Wrappers
  import opened Types
  import Text

  // -----------------------------------------------------------------------
  // The list and its derived values
  // -----------------------------------------------------------------------

  /** `itinerary.flatMap(day => day.activities)`. */
  function Flatten(days: seq<ItineraryDay>): seq<Activity>
    decreases |days|
  {
    if |days| == 0 then [] else days[0].activities + Flatten(days[1..])
  }

  /** Flattening a concatenation concatenates the flattenings: itinerary order is kept. */
  lemma {:induction false} FlattenAppend(a: seq<ItineraryDay>, b: seq<ItineraryDay>)
    ensures Flatten(a + b) == Flatten(a) + Flatten(b)
    decreases |a|
  {
    if |a| == 0 {
      assert a + b == b;
    } else {
      assert (a + b)[1..] == a[1..] + b;
      FlattenAppend(a[1..], b);
    }
  }

  /** Every activity of every day is in the flattened list, and nothing else is. */
  lemma {:induction false} FlattenMembers(days: seq<ItineraryDay>, x: Activity)
    ensures x in Flatten(days) <==> exists k :: 0 <= k < |days| && x in days[k].activities
    decreases |days|
  {
    if |days| > 0 {
      FlattenMembers(days[1..], x);
      if x in Flatten(days[1..]) {
        var k :| 0 <= k < |days[1..]| && x in days[1..][k].activities;
        assert x in days[k + 1].activities;
      }
      if exists k :: 0 <= k < |days| && x in days[k].activities {
        var k :| 0 <= k < |days| && x in days[k].activities;
        if k > 0 { assert x in days[1..][k - 1].activities; }
      }
    }
  }

  /** `activities.reduce((sum, a) => sum + a.price, 0)`. */
  function Total(acts: seq<Activity>): int
    decreases |acts|
  {
    if |acts| == 0 then 0 else acts[0].price + Total(acts[1..])
  }

  lemma {:induction false} TotalAppend(a: seq<Activity>, b: seq<Activity>)
    ensures Total(a + b) == Total(a) + Total(b)
    decreases |a|
  {
    if |a| == 0 {
      assert a + b == b;
    } else {
      assert (a + b)[1..] == a[1..] + b;
      TotalAppend(a[1..], b);
    }
  }

  predicate DistinctIds(acts: seq<Activity>) {
    forall i, j :: 0 <= i < j < |acts| ==> acts[i].id != acts[j].id
  }

  /** `filter(a => a !== activityToRemove)`: drop every entry with the chosen identity. */
  function Remove(acts: seq<Activity>, x: Activity): (r: seq<Activity>)
    ensures forall a :: a in r <==> a in acts && a.id != x.id
    ensures |r| <= |acts|
    decreases |acts|
  {
    if |acts| == 0 then []
    else
      var rest := Remove(acts[1..], x);
      assert acts == [acts[0]] + acts[1..];
      if acts[0].id == x.id then rest else [acts[0]] + rest
  }

  /** Removal keeps the survivors' relative order: it distributes over concatenation. */
  lemma {:induction false} RemoveAppend(a: seq<Activity>, b: seq<Activity>, x: Activity)
    ensures Remove(a + b, x) == Remove(a, x) + Remove(b, x)
    decreases |a|
  {
    if |a| == 0 {
      assert a + b == b;
    } else {
      assert (a + b)[1..] == a[1..] + b;
      RemoveAppend(a[1..], b, x);
    }
  }

  /** Removing an identity that is not in the list changes nothing. */
  lemma {:induction false} RemoveAbsent(acts: seq<Activity>, x: Activity)
    requires forall i :: 0 <= i < |acts| ==> acts[i].id != x.id
    ensures Remove(acts, x) == acts
    decreases |acts|
  {
    if |acts| > 0 {
      RemoveAbsent(acts[1..], x);
      assert acts == [acts[0]] + acts[1..];
    }
  }

  lemma SplitAround<T>(s: seq<T>, k: nat)
    requires k < |s|
    ensures s == s[..k] + ([s[k]] + s[k + 1..])
  {
    assert s[k..] == [s[k]] + s[k + 1..];
    assert s == s[..k] + s[k..];
  }

  /** Removal keeps identities distinct: what is left is part of the list it came from. */
  lemma {:induction false} RemoveKeepsDistinct(acts: seq<Activity>, x: Activity)
    requires DistinctIds(acts)
    ensures DistinctIds(Remove(acts, x))
    decreases |acts|
  {
    if |acts| > 0 {
      var rest := acts[1..];
      assert DistinctIds(rest) by {
        forall i, j | 0 <= i < j < |rest| ensures rest[i].id != rest[j].id {
          assert rest[i] == acts[i + 1] && rest[j] == acts[j + 1];
        }
      }
      RemoveKeepsDistinct(rest, x);
      forall a | a in Remove(rest, x) ensures a.id != acts[0].id {
        var j :| 0 <= j < |rest| && rest[j] == a;
        assert acts[j + 1] == a;
      }
    }
  }

  /** With distinct identities, removing the item at position k leaves exactly the others, in order. */
  lemma RemoveOne(acts: seq<Activity>, k: nat)
    requires DistinctIds(acts) && k < |acts|
    ensures Remove(acts, acts[k]) == acts[..k] + acts[k + 1..]
  {
    var x, pre, post := acts[k], acts[..k], acts[k + 1..];
    SplitAround(acts, k);
    assert forall i :: 0 <= i < |pre| ==> pre[i].id != x.id by {
      forall i | 0 <= i < |pre| ensures pre[i].id != x.id {
        assert pre[i] == acts[i];
      }
    }
    assert forall i :: 0 <= i < |post| ==> post[i].id != x.id by {
      forall i | 0 <= i < |post| ensures post[i].id != x.id {
        assert post[i] == acts[k + 1 + i];
      }
    }
    RemoveAbsent(pre, x);
    RemoveAbsent(post, x);
    RemoveAppend(pre, [x] + post, x);
    RemoveAppend([x], post, x);
    assert Remove([x], x) == [] by { assert [x][1..] == []; }
  }

  /** Removing an item lowers the total by exactly that item's price. */
  lemma RemoveOneTotal(acts: seq<Activity>, k: nat)
    requires DistinctIds(acts) && k < |acts|
    ensures Total(Remove(acts, acts[k])) == Total(acts) - acts[k].price
  {
    var x, pre, post := acts[k], acts[..k], acts[k + 1..];
    RemoveOne(acts, k);
    SplitAround(acts, k);
    TotalAppend(pre, [x] + post);
    TotalAppend([x], post);
    TotalAppend(pre, post);
    assert [x][1..] == [];
  }

  function Min(a: int, b: int): int {
    if a <= b then a else b
  }

  const CollapsedCount := 3

  /** The rows shown: all of them when expanded, else the first three. */
  function Displayed(acts: seq<Activity>, expanded: bool): (r: seq<Activity>)
    ensures r <= acts
    ensures |r| == if expanded then |acts| else Min(CollapsedCount, |acts|)
  {
    if expanded then acts else acts[..Min(CollapsedCount, |acts|)]
  }

  /** The toggle link: absent up to three items, else "Show Less" or "+ k more items" with k = n - 3. */
  function ToggleLabel(acts: seq<Activity>, expanded: bool): (r: Option<string>)
    ensures r.Some? <==> |acts| > CollapsedCount
    ensures r.Some? && !expanded ==> r.value == "+ " + Text.IntToString(|acts| - CollapsedCount) + " more items"
    ensures r.Some? && expanded ==> r.value == "Show Less"
  {
    if |acts| > CollapsedCount then
      Some(if expanded then "Show Less" else "+ " + Text.IntToString(|acts| - CollapsedCount) + " more items")
    else None
  }

  /** Collapsed, the shown rows and the "more" count account for every item. */
  lemma CollapsedAccountsForAll(acts: seq<Activity>)
    requires |acts| > CollapsedCount
    ensures |Displayed(acts, false)| + (|acts| - CollapsedCount) == |acts|
    ensures Displayed(acts, false) + acts[CollapsedCount..] == acts
  {
  }

  // -----------------------------------------------------------------------
  // Stripe line items and the PayPal amount
  // -----------------------------------------------------------------------

  datatype LineItem = LineItem(name: string, amount: int, quantity: nat)

  /** One line per activity, in order: its description, its price in cents, quantity 1. */
  function LineItems(acts: seq<Activity>): (r: seq<LineItem>)
    ensures |r| == |acts|
    ensures forall i :: 0 <= i < |acts| ==> r[i].name == acts[i].description && r[i].quantity == 1
    ensures forall i :: 0 <= i < |acts| ==> r[i].amount == acts[i].price * 100
    decreases |acts|
  {
    if |acts| == 0 then []
    else [LineItem(acts[0].description, acts[0].price * 100, 1)] + LineItems(acts[1..])
  }

  function Charged(items: seq<LineItem>): int
    decreases |items|
  {
    if |items| == 0 then 0 else items[0].amount * items[0].quantity + Charged(items[1..])
  }

  /** Stripe is asked to charge exactly the card total, in cents. */
  lemma {:induction false} LineItemsCharge(acts: seq<Activity>)
    ensures Charged(LineItems(acts)) == 100 * Total(acts)
    decreases |acts|
  {
    if |acts| > 0 {
      LineItemsCharge(acts[1..]);
      assert LineItems(acts)[1..] == LineItems(acts[1..]);
    }
  }

  /** `totalCost.toFixed(2)` for a whole-franc total. */
  function ToFixed2(n: int): string {
    Text.IntToString(n) + ".00"
  }

  // -----------------------------------------------------------------------
  // The card
  // -----------------------------------------------------------------------

  datatype Provider = Stripe | PayPal

  datatype PaymentRequest =
    | CheckoutSession(lineItems: seq<LineItem>)
    | CreateOrder(totalAmount: string, currency: string)
    | CaptureOrder(orderId: string)

  const StripeError := "Failed to initiate Stripe payment."
  const CreateOrderError := "Failed to create PayPal order."
  const CaptureError := "Failed to capture PayPal payment."
  const PayPalError := "An error occurred with the PayPal payment."

  /** Both payment buttons are disabled while a payment is loading or when the list is empty. */
  predicate PaymentDisabled(loading: Option<Provider>, acts: seq<Activity>) {
    loading.Some? || |acts| == 0
  }

  class BookingCard {
    var itinerary: seq<ItineraryDay>
    var expanded: bool
    var activities: seq<Activity>
    var loading: Option<Provider>
    var error: Option<string>
    var lastRequest: Option<PaymentRequest>
    var redirectedTo: Option<string>
    var paymentConfirmed: bool

    /**
      Every listed activity comes from the itinerary, and the identities of
      the list are distinct whenever those of the itinerary are.
    */
    ghost predicate Valid()
      reads this
    {
      && (forall a :: a in activities ==> a in Flatten(itinerary))
      && (DistinctIds(Flatten(itinerary)) ==> DistinctIds(activities))
    }

    /** Mounting runs the effect that loads the activities. */
    constructor (itinerary: seq<ItineraryDay>)
      ensures Valid()
      ensures this.itinerary == itinerary && activities == Flatten(itinerary)
      ensures !expanded && loading.None? && error.None? && lastRequest.None? && redirectedTo.None? && !paymentConfirmed
    {
      this.itinerary := itinerary;
      expanded := false;
      activities := Flatten(itinerary);
      loading, error, lastRequest, redirectedTo, paymentConfirmed := None, None, None, None, false;
    }

    /** The effect on a new itinerary prop: the list is rebuilt from it, removals are forgotten. */
    method OnItineraryChanged(newItinerary: seq<ItineraryDay>)
      modifies this`itinerary, this`activities
      ensures Valid() && itinerary == newItinerary && activities == Flatten(newItinerary)
    {
      itinerary := newItinerary;
      activities := Flatten(newItinerary);
    }

    /** With distinct identities, removing a listed item drops exactly it and its price from the total. */
    method HandleRemoveActivity(x: Activity)
      requires Valid()
      modifies this`activities
      ensures Valid() && activities == Remove(old(activities), x)
      ensures DistinctIds(Flatten(itinerary)) ==>
                forall k :: 0 <= k < |old(activities)| && old(activities)[k] == x ==>
                  && activities == old(activities)[..k] + old(activities)[k + 1..]
                  && Total(activities) == Total(old(activities)) - x.price
    {
      ghost var before := activities;
      activities := Remove(activities, x);
      if DistinctIds(Flatten(itinerary)) {
        RemoveKeepsDistinct(before, x);
        forall k | 0 <= k < |before| && before[k] == x
          ensures activities == before[..k] + before[k + 1..]
          ensures Total(activities) == Total(before) - x.price
        {
          RemoveOne(before, k);
          RemoveOneTotal(before, k);
        }
      }
    }

    /** The toggle link exists only with more than three items. */
    method ToggleExpanded()
      requires |activities| > CollapsedCount
      modifies this`expanded
      ensures expanded == !old(expanded)
    {
      expanded := !expanded;
    }

    method HandleStripeCheckout()
      requires !PaymentDisabled(loading, activities)
      modifies this`loading, this`error, this`lastRequest
      ensures loading == Some(Stripe) && error.None? && lastRequest == Some(CheckoutSession(LineItems(activities)))
      ensures PaymentDisabled(loading, activities)
    {
      loading := Some(Stripe);
      error := None;
      lastRequest := Some(CheckoutSession(LineItems(activities)));
    }

    /** The checkout-session response: a non-empty url redirects (loading stays on); anything else is an error. */
    method OnStripeResolved(url: Option<string>)
      modifies this`loading, this`error, this`redirectedTo
      ensures url.Some? && url.value != "" ==>
                redirectedTo == url && loading == old(loading) && error == old(error)
      ensures !(url.Some? && url.value != "") ==>
                redirectedTo == old(redirectedTo) && loading.None? && error == Some(StripeError)
    {
      if url.Some? && url.value != "" {
        redirectedTo := url;
      } else {
        error := Some(StripeError);
        loading := None;
      }
    }

    /** PayPal's createOrder callback. */
    method CreatePayPalOrder()
      requires !PaymentDisabled(loading, activities)
      modifies this`loading, this`error, this`lastRequest
      ensures loading == Some(PayPal) && error.None?
      ensures lastRequest == Some(CreateOrder(ToFixed2(Total(activities)), "CHF"))
    {
      loading := Some(PayPal);
      error := None;
      lastRequest := Some(CreateOrder(ToFixed2(Total(activities)), "CHF"));
    }

    /** The create-order request failed: the error is shown and loading stays on. */
    method OnCreateOrderFailed()
      modifies this`error
      ensures error == Some(CreateOrderError)
    {
      error := Some(CreateOrderError);
    }

    /** onApprove: capture the order; loading ends whatever the capture's outcome. */
    method OnApprove(orderId: string, captured: bool)
      modifies this`loading, this`error, this`lastRequest, this`paymentConfirmed
      ensures lastRequest == Some(CaptureOrder(orderId)) && loading.None?
      ensures captured ==> paymentConfirmed && error == old(error)
      ensures !captured ==> paymentConfirmed == old(paymentConfirmed) && error == Some(CaptureError)
    {
      lastRequest := Some(CaptureOrder(orderId));
      if captured {
        paymentConfirmed := true;
      } else {
        error := Some(CaptureError);
      }
      loading := None;
    }

    method OnPayPalError()
      modifies this`loading, this`error
      ensures error == Some(PayPalError) && loading.None?
    {
      error := Some(PayPalError);
      loading := None;
    }

    method OnPayPalCancel()
      modifies this`loading
      ensures loading.None?
    {
      loading := None;
    }
  }
}
