/**
 * Package tracking (components/TrackPackagePage.tsx): the tracking-number
 * form, and the simulated lookup that a 1.5 s timer performs in a table of
 * tracking histories. The mock order and the table are given to the page;
 * the timer's callback is a step of its own.
 */
module TrackPackage {
  import opened Types
  import opened Ascii

  const BlankMessage: string := "Please enter a tracking number."
  const InvalidMessage: string := "Invalid tracking number. Please check and try again."
  /** The simulated network delay, in milliseconds. */
  const LookupDelayMs: nat := 1500

  datatype Order = Order(id: Id, trackingNumber: string, status: string)
  datatype TrackingEvent = TrackingEvent(status: string, location: string, timestamp: string)
  /** The `{ order, events }` pair the result panel renders. */
  datatype Tracked = Tracked(order: Order, events: seq<TrackingEvent>)

  datatype Lookup = Found(tracked: Tracked) | Invalid

  /**
   * The timer callback's decision. Any history stored under the key counts as
   * found, even an empty one: an empty array is truthy.
   */
  function LookUp(data: map<string, seq<TrackingEvent>>, order: Order, key: string): (r: Lookup)
    ensures r.Found? <==> key in data
    ensures r.Found? ==> r.tracked.order == order && r.tracked.events == data[key]
  {
    if key in data then Found(Tracked(order, data[key])) else Invalid
  }

  /** Surrounding white space never changes what a typed tracking number finds. */
  lemma LookUpIgnoresPadding(data: map<string, seq<TrackingEvent>>, order: Order, pre: string, typed: string, post: string)
    requires IsBlank(pre) && IsBlank(post)
    ensures LookUp(data, order, Trim(pre + typed + post)) == LookUp(data, order, Trim(typed))
  {
    TrimPadded(pre, typed, post);
  }

  class TrackPackagePage {
    const mockOrder: Order
    const trackingData: map<string, seq<TrackingEvent>>
    var trackingNumber: string
    var isLoading: bool
    var error: Option<string>
    var result: Option<Tracked>

    /** The field starts out holding the mock order's tracking number. */
    constructor(mockOrder: Order, trackingData: map<string, seq<TrackingEvent>>)
      ensures this.mockOrder == mockOrder && this.trackingData == trackingData
      ensures trackingNumber == mockOrder.trackingNumber
      ensures !isLoading && error.None? && result.None?
    {
      this.mockOrder := mockOrder;
      this.trackingData := trackingData;
      trackingNumber := mockOrder.trackingNumber;
      isLoading := false;
      error := None;
      result := None;
    }

    method TypeNumber(text: string)
      modifies this
      ensures trackingNumber == text
      ensures isLoading == old(isLoading) && error == old(error) && result == old(result)
    {
      trackingNumber := text;
    }

    /**
     * `handleTrackPackage` up to `setTimeout`: a number that trims to nothing
     * (see `TrimEmptyIffBlank`: a blank one) only sets the
     * error; otherwise loading starts with error and result cleared, and
     * `key` is the trimmed number the timer will look up.
     */
    method Submit() returns (key: Option<string>)
      modifies this
      ensures key.None? <==> Trim(old(trackingNumber)) == []
      ensures key.None? ==>
        error == Some(BlankMessage) && isLoading == old(isLoading) && result == old(result)
      ensures key.Some? ==> key.value == Trim(old(trackingNumber)) && key.value != []
      ensures key.Some? ==> isLoading && error.None? && result.None?
      ensures trackingNumber == old(trackingNumber)
    {
      var trimmed := Trim(trackingNumber);
      if trimmed == [] {
        key := None;
        error := Some(BlankMessage);
      } else {
        key := Some(trimmed);
        isLoading := true;
        error := None;
        result := None;
      }
    }

    /** The timer's callback: the history if the key is known, the error otherwise; loading ends. */
    method TimerFired(key: string)
      modifies this
      ensures !isLoading
      ensures LookUp(trackingData, mockOrder, key).Found? ==>
        result == Some(LookUp(trackingData, mockOrder, key).tracked) && error == old(error)
      ensures LookUp(trackingData, mockOrder, key).Invalid? ==>
        error == Some(InvalidMessage) && result == old(result)
      ensures trackingNumber == old(trackingNumber)
    {
      if key in trackingData {
        result := Some(Tracked(mockOrder, trackingData[key]));
      } else {
        error := Some(InvalidMessage);
      }
      isLoading := false;
    }

    /** A submission followed by its timer, with nothing typed in between. */
    method Track()
      modifies this
      ensures Trim(old(trackingNumber)) == [] ==>
        error == Some(BlankMessage) && isLoading == old(isLoading) && result == old(result)
      ensures Trim(old(trackingNumber)) != [] ==>
        !isLoading &&
        (Trim(old(trackingNumber)) in trackingData ==>
          result == Some(Tracked(mockOrder, trackingData[Trim(old(trackingNumber))])) && error.None?) &&
        (Trim(old(trackingNumber)) !in trackingData ==>
          result.None? && error == Some(InvalidMessage))
      ensures trackingNumber == old(trackingNumber)
    {
      var key := Submit();
      if key.Some? {
        TimerFired(key.value);
      }
    }

    /** The tracking result is rendered once loading has ended. */
    predicate ResultShown()
      reads this
    {
      !isLoading && result.Some?
    }
  }
}
