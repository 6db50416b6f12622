/** The Conversion.ai pixel helpers of frontend/lib/conversion-tracking.ts:
    events go to the pixel's `track` when the pixel is loaded, and wait in a
    FIFO queue otherwise; a per-campaign on/off flag lives in one
    `localStorage` entry. The browser globals (`window`, the pixel object,
    the storage entry) are fields of a `Tracker`; clock readings are
    parameters and the one-second flush timer is an explicit step. */
module ConversionTracking {
  import opened Wrappers
  import opened Json

  datatype EventType = PageView | AdView | AdClick | RemixCreated | RemixShared | AdEngagement

  /** A `ConversionEventData`; an absent optional field is `None`. */
  datatype EventData = EventData(
    eventType: EventType,
    userId: Option<string>,
    campaignId: Option<string>,
    adId: Option<string>,
    adTitle: Option<string>,
    promptContent: Option<string>,
    metadata: Option<seq<(string, JVal)>>)

  /** An object literal whose properties may hold `undefined` (`None`). */
  type Props = seq<(string, Option<JVal>)>

  function OptStr(s: Option<string>): Option<JVal> {
    match s
    case Some(v) => Some(JStr(v))
    case None => None
  }

  /** `{ ...target, ...source }` for the keys of `source`, in order. */
  function Spread(target: Props, source: seq<(string, JVal)>): Props
    decreases |source|
  {
    if |source| == 0 then target
    else Spread(Assign(target, source[0].0, Some(source[0].1)), source[1..])
  }

  predicate DistinctKeys(entries: seq<(string, JVal)>) {
    forall i, j :: 0 <= i < j < |entries| ==> entries[i].0 != entries[j].0
  }

  /** Spreading an object sets each of its keys to its value and leaves the
      other keys of the target as they were. */
  lemma {:induction false} SpreadLookup(target: Props, source: seq<(string, JVal)>, k: string)
    requires DistinctKeys(source)
    ensures Lookup(source, k).Some? ==> Lookup(Spread(target, source), k) == Some(Some(Lookup(source, k).value))
    ensures Lookup(source, k).None? ==> Lookup(Spread(target, source), k) == Lookup(target, k)
    decreases |source|
  {
    if |source| > 0 {
      var t' := Assign(target, source[0].0, Some(source[0].1));
      assert DistinctKeys(source[1..]) by {
        forall i, j | 0 <= i < j < |source[1..]| ensures source[1..][i].0 != source[1..][j].0 {
          assert source[1..][i] == source[i + 1] && source[1..][j] == source[j + 1];
        }
      }
      SpreadLookup(t', source[1..], k);
      if source[0].0 == k {
        assert Lookup(source[1..], k).None? by {
          forall i | 0 <= i < |source[1..]| ensures source[1..][i].0 != k {
            assert source[1..][i] == source[i + 1];
          }
          LookupFinds(source[1..], k);
        }
      }
    }
  }

  /** The standard fields of the payload, with the timestamp. */
  function Standard(data: EventData, now: string): Props {
    [("user_id", OptStr(data.userId)),
     ("campaign_id", OptStr(data.campaignId)),
     ("ad_id", OptStr(data.adId)),
     ("ad_title", OptStr(data.adTitle)),
     ("prompt_content", OptStr(data.promptContent)),
     ("timestamp", Some(JStr(now)))]
  }

  /** The object handed to `conversion.track`: the standard fields, the
      timestamp, then the metadata spread over them. */
  function Payload(data: EventData, now: string): Props {
    match data.metadata
    case Some(m) => Spread(Standard(data, now), m)
    case None => Standard(data, now)
  }

  /** The keys of the payload before metadata is spread over it. */
  const StandardKeys: set<string> := {"user_id", "campaign_id", "ad_id", "ad_title", "prompt_content", "timestamp"}

  /** Metadata keys override the standard fields, and a standard field that
      the metadata does not name keeps the event's value. */
  lemma PayloadFields(data: EventData, now: string, k: string)
    requires data.metadata.Some? ==> DistinctKeys(data.metadata.value)
    ensures data.metadata.Some? && Lookup(data.metadata.value, k).Some? ==>
              Lookup(Payload(data, now), k) == Some(Some(Lookup(data.metadata.value, k).value))
    ensures (data.metadata.None? || Lookup(data.metadata.value, k).None?) ==>
              (k == "user_id" ==> Lookup(Payload(data, now), k) == Some(OptStr(data.userId))) &&
              (k == "prompt_content" ==> Lookup(Payload(data, now), k) == Some(OptStr(data.promptContent))) &&
              (k == "timestamp" ==> Lookup(Payload(data, now), k) == Some(Some(JStr(now)))) &&
              (k !in StandardKeys ==> Lookup(Payload(data, now), k).None?)
  {
    var standard := Standard(data, now);
    assert forall i :: 0 <= i < |standard| ==> standard[i].0 in StandardKeys;
    LookupFinds(standard, k);
    LookupAt(standard, 0);
    LookupAt(standard, 4);
    LookupAt(standard, 5);
    if data.metadata.Some? {
      SpreadLookup(standard, data.metadata.value, k);
    }
  }

  /** One call of `conversion.track(eventType, payload)`. */
  datatype Sent = Sent(eventType: EventType, payload: Props)

  /** The calls that sending the events in order makes. */
  function Deliveries(events: seq<EventData>, now: string): (r: seq<Sent>)
    ensures |r| == |events|
  {
    seq(|events|, i requires 0 <= i < |events| => Sent(events[i].eventType, Payload(events[i], now)))
  }

  /** `trackRemixCreated`: the event with the remix time and the prompt's
      length as metadata. */
  function RemixCreatedEvent(adId: string, adTitle: string, promptContent: string,
                             userId: Option<string>, campaignId: Option<string>, now: string): EventData {
    EventData(RemixCreated, userId, campaignId, Some(adId), Some(adTitle), Some(promptContent),
              Some([("remix_created_at", JStr(now)), ("prompt_length", JNum(|promptContent|))]))
  }

  /** Each metadata entry is in the payload, whatever the standard fields
      held. */
  lemma MetadataEntry(data: EventData, now: string, i: nat)
    requires data.metadata.Some? && DistinctKeys(data.metadata.value) && i < |data.metadata.value|
    ensures Lookup(Payload(data, now), data.metadata.value[i].0) == Some(Some(data.metadata.value[i].1))
  {
    var meta := data.metadata.value;
    assert forall j :: 0 <= j < i ==> meta[j].0 != meta[i].0;
    LookupAt(meta, i);
    SpreadLookup(Standard(data, now), meta, meta[i].0);
  }

  /** The payload of a remix event carries `prompt_length` equal to the
      prompt's length, the remix time and the prompt itself. */
  lemma RemixCreatedPayload(adId: string, adTitle: string, promptContent: string,
                            userId: Option<string>, campaignId: Option<string>, now: string)
    ensures var p := Payload(RemixCreatedEvent(adId, adTitle, promptContent, userId, campaignId, now), now);
            Lookup(p, "prompt_length") == Some(Some(JNum(|promptContent|))) &&
            Lookup(p, "prompt_content") == Some(Some(JStr(promptContent))) &&
            Lookup(p, "remix_created_at") == Some(Some(JStr(now)))
  {
    var data := RemixCreatedEvent(adId, adTitle, promptContent, userId, campaignId, now);
    assert DistinctKeys(data.metadata.value);
    MetadataEntry(data, now, 0);
    MetadataEntry(data, now, 1);
    LookupFinds(data.metadata.value, "prompt_content");
    PayloadFields(data, now, "prompt_content");
  }

  // ------------------------------------------------- campaign settings

  /** The text stored under `conversion_campaign_tracking`, as far as the
      helpers can tell: empty (falsy), not JSON (`JSON.parse` throws), or
      a JSON value. */
  datatype SettingsText = EmptyText | NotJson | JsonOf(value: JVal)

  /** `settings[campaignId] === true` for the stored settings; reading a
      property of `null` throws, which is caught and gives `false`. */
  function Enabled(stored: Option<SettingsText>, campaignId: string): (r: bool)
    ensures r <==> stored.Some? && stored.value.JsonOf? && stored.value.value.JObj? &&
                   Lookup(stored.value.value.entries, campaignId) == Some(JBool(true))
  {
    match stored
    case Some(JsonOf(JObj(entries))) => Lookup(entries, campaignId) == Some(JBool(true))
    case _ => false
  }

  /** What `setCampaignTracking` leaves stored: the parsed object (or `{}`
      when nothing is stored) with `campaignId` set. Text that does not
      parse, and a JSON value that is not an object or array, make the
      helper throw before writing. A stored array is kept as it is here,
      and so reads as disabled; the source writes a non-index id as a
      property that `JSON.stringify` drops, but an index-like id such as
      `"1"` as an array element that it then reads back. */
  function AfterSet(stored: Option<SettingsText>, campaignId: string, enabled: bool): (r: Option<SettingsText>)
    ensures Writable(stored) ==> r.Some? && r.value.JsonOf? && r.value.value.JObj?
    ensures !Writable(stored) ==> r == stored
  {
    match stored
    case None => Some(JsonOf(JObj([(campaignId, JBool(enabled))])))
    case Some(EmptyText) => Some(JsonOf(JObj([(campaignId, JBool(enabled))])))
    case Some(JsonOf(JObj(entries))) => Some(JsonOf(JObj(Assign(entries, campaignId, JBool(enabled)))))
    case _ => stored
  }

  /** Whether a write of the settings goes through. */
  predicate Writable(stored: Option<SettingsText>) {
    stored.None? || stored == Some(EmptyText) || (stored.value.JsonOf? && stored.value.value.JObj?)
  }

  /** After setting a campaign's flag it reads back as set, and every other
      campaign reads as before; when the stored text cannot be written,
      nothing changes. */
  lemma SetThenEnabled(stored: Option<SettingsText>, campaignId: string, enabled: bool, other: string)
    requires other != campaignId
    ensures Writable(stored) ==> Enabled(AfterSet(stored, campaignId, enabled), campaignId) == enabled
    ensures Enabled(AfterSet(stored, campaignId, enabled), other) == Enabled(stored, other)
    ensures !Writable(stored) ==> AfterSet(stored, campaignId, enabled) == stored
  {
    var single := [(campaignId, JBool(enabled))];
    assert Lookup(single, other) == Lookup(single[1..], other);
  }

  /** The pixel helpers with the browser state they read and write. */
  class Tracker {
    /** `typeof window !== 'undefined'`. */
    var inBrowser: bool
    /** `window.conversion` is defined. */
    var pixelLoaded: bool
    /** `typeof conversion.track === 'function'`. */
    var trackIsFunction: bool
    /** The module-level `eventQueue`. */
    var queue: seq<EventData>
    /** Flush timers set by `setTimeout` that have not fired yet. */
    var pendingTimers: nat
    /** The calls made to `conversion.track`, oldest first. */
    var sent: seq<Sent>
    /** The `localStorage` entry `conversion_campaign_tracking`. */
    var stored: Option<SettingsText>

    constructor(inBrowser: bool, stored: Option<SettingsText>)
      ensures this.inBrowser == inBrowser && this.stored == stored
      ensures !pixelLoaded && !trackIsFunction
      ensures queue == [] && sent == [] && pendingTimers == 0
    {
      this.inBrowser := inBrowser;
      this.stored := stored;
      pixelLoaded, trackIsFunction := false, false;
      queue, sent, pendingTimers := [], [], 0;
    }

    /** `isConversionLoaded()`. */
    predicate Loaded()
      reads this
    {
      inBrowser && pixelLoaded
    }

    /** The pixel script runs and defines `window.conversion`, with or
        without a `track` function. */
    method LoadPixel(hasTrack: bool)
      modifies this
      ensures pixelLoaded && trackIsFunction == hasTrack
      ensures inBrowser == old(inBrowser) && queue == old(queue) && pendingTimers == old(pendingTimers)
      ensures sent == old(sent) && stored == old(stored)
    {
      pixelLoaded, trackIsFunction := true, hasTrack;
    }

    /** `queueEvent(data)`: append and set a flush timer. */
    method QueueEvent(data: EventData)
      modifies this
      ensures queue == old(queue) + [data] && pendingTimers == old(pendingTimers) + 1
      ensures inBrowser == old(inBrowser) && pixelLoaded == old(pixelLoaded) && trackIsFunction == old(trackIsFunction)
      ensures sent == old(sent) && stored == old(stored)
    {
      queue := queue + [data];
      pendingTimers := pendingTimers + 1;
    }

    /** `trackConversionEvent(data)`: queue the event while the pixel is
        missing; otherwise send it, or drop it when `track` is not a
        function. Nothing is thrown to the caller. */
    method TrackConversionEvent(data: EventData, now: string)
      modifies this
      ensures !old(Loaded()) ==> queue == old(queue) + [data] && pendingTimers == old(pendingTimers) + 1 && sent == old(sent)
      ensures old(Loaded()) ==> (queue == old(queue) && pendingTimers == old(pendingTimers) &&
              sent == old(sent) + (if trackIsFunction then [Sent(data.eventType, Payload(data, now))] else []))
      ensures inBrowser == old(inBrowser) && pixelLoaded == old(pixelLoaded) && trackIsFunction == old(trackIsFunction)
      ensures stored == old(stored)
    {
      if !Loaded() {
        QueueEvent(data);
        return;
      }
      if trackIsFunction {
        sent := sent + [Sent(data.eventType, Payload(data, now))];
      }
    }

    /** `flushEventQueue()`: with the pixel loaded, drain the queue from the
        front, tracking each event in turn. */
    method FlushEventQueue(now: string)
      modifies this
      ensures !old(Loaded()) ==> queue == old(queue) && sent == old(sent)
      ensures old(Loaded()) ==> (queue == [] &&
              sent == old(sent) + (if trackIsFunction then Deliveries(old(queue), now) else []))
      ensures inBrowser == old(inBrowser) && pixelLoaded == old(pixelLoaded) && trackIsFunction == old(trackIsFunction)
      ensures pendingTimers == old(pendingTimers) && stored == old(stored)
    {
      if !Loaded() || |queue| == 0 {
        return;
      }
      ghost var q0 := queue;
      ghost var s0 := sent;
      ghost var k := 0;
      while |queue| > 0
        invariant Loaded() && inBrowser == old(inBrowser) && pixelLoaded == old(pixelLoaded)
        invariant trackIsFunction == old(trackIsFunction)
        invariant pendingTimers == old(pendingTimers) && stored == old(stored)
        invariant 0 <= k <= |q0| && queue == q0[k..]
        invariant sent == s0 + (if trackIsFunction then Deliveries(q0[..k], now) else [])
        decreases |queue|
      {
        var event := queue[0];
        queue := queue[1..];
        TrackConversionEvent(event, now);
        assert q0[..k + 1] == q0[..k] + [event];
        assert Deliveries(q0[..k + 1], now) == Deliveries(q0[..k], now) + [Sent(event.eventType, Payload(event, now))];
        k := k + 1;
      }
      assert q0[..k] == q0;
    }

    /** One pending flush timer fires. */
    method FlushTimerFires(now: string)
      requires pendingTimers > 0
      modifies this
      ensures pendingTimers == old(pendingTimers) - 1
      ensures !old(Loaded()) ==> queue == old(queue) && sent == old(sent)
      ensures old(Loaded()) ==> (queue == [] &&
              sent == old(sent) + (if trackIsFunction then Deliveries(old(queue), now) else []))
      ensures inBrowser == old(inBrowser) && pixelLoaded == old(pixelLoaded) && trackIsFunction == old(trackIsFunction)
      ensures stored == old(stored)
    {
      pendingTimers := pendingTimers - 1;
      FlushEventQueue(now);
    }

    /** `trackRemixCreated(...)`. */
    method TrackRemixCreated(adId: string, adTitle: string, promptContent: string,
                             userId: Option<string>, campaignId: Option<string>, now: string)
      modifies this
      ensures var data := RemixCreatedEvent(adId, adTitle, promptContent, userId, campaignId, now);
              (!old(Loaded()) ==> queue == old(queue) + [data] && sent == old(sent)) &&
              (old(Loaded()) ==> (queue == old(queue) &&
                sent == old(sent) + (if trackIsFunction then [Sent(RemixCreated, Payload(data, now))] else [])))
      ensures inBrowser == old(inBrowser) && pixelLoaded == old(pixelLoaded) && trackIsFunction == old(trackIsFunction)
      ensures stored == old(stored)
    {
      TrackConversionEvent(RemixCreatedEvent(adId, adTitle, promptContent, userId, campaignId, now), now);
    }

    /** `isCampaignTrackingEnabled(campaignId)`. */
    function IsCampaignTrackingEnabled(campaignId: string): (r: bool)
      reads this
      ensures r ==> inBrowser && stored.Some? && stored.value.JsonOf?
      ensures r <==> inBrowser && Enabled(stored, campaignId)
    {
      inBrowser && Enabled(stored, campaignId)
    }

    /** `setCampaignTracking(campaignId, enabled)`. */
    method SetCampaignTracking(campaignId: string, enabled: bool)
      modifies this
      ensures stored == (if old(inBrowser) then AfterSet(old(stored), campaignId, enabled) else old(stored))
      ensures inBrowser == old(inBrowser) && pixelLoaded == old(pixelLoaded) && trackIsFunction == old(trackIsFunction)
      ensures queue == old(queue) && sent == old(sent) && pendingTimers == old(pendingTimers)
    {
      if !inBrowser {
        return;
      }
      stored := AfterSet(stored, campaignId, enabled);
    }
  }

  /** Events tracked before the pixel loads reach it once it has loaded and
      the flush timer fires, in the order they were tracked. */
  method QueuedEventsArriveInOrder(e1: EventData, e2: EventData, t1: string, t2: string, now: string)
    returns (sent: seq<Sent>)
    ensures sent == [Sent(e1.eventType, Payload(e1, now)), Sent(e2.eventType, Payload(e2, now))]
  {
    var tracker := new Tracker(true, None);
    tracker.TrackConversionEvent(e1, t1);
    tracker.TrackConversionEvent(e2, t2);
    tracker.LoadPixel(true);
    tracker.FlushTimerFires(now);
    assert tracker.queue == [] ;
    sent := tracker.sent;
  }
}
