/**
 * The `MeshComGateway` object and the host it reports to: the `last_*`
 * values its sensors read, the `meshcom_message` events it fires and the
 * listener jobs it schedules.
 */
module Gateway {
  import opened Wrappers
  import opened Text
  import opened Identity
  import opened Packet
  import opened Registry

  type byte = b: int | 0 <= b < 256

  const EventType: string := "meshcom_message"

  datatype BusEvent = BusEvent(eventType: string, data: EventData)

  /** The host as far as the gateway uses it: its event bus and its job queue. */
  class Hass {
    var fired: seq<BusEvent>
    var jobs: seq<Listener>

    constructor ()
      ensures fired == [] && jobs == []
    {
      fired, jobs := [], [];
    }

    /** `hass.bus.fire(event_type, data)`. */
    method Fire(eventType: string, data: EventData)
      modifies this
      ensures fired == old(fired) + [BusEvent(eventType, data)] && jobs == old(jobs)
    {
      fired := fired + [BusEvent(eventType, data)];
    }

    /** `hass.add_job(job)`: the job is queued, not run here. */
    method AddJob(job: Listener)
      modifies this
      ensures jobs == old(jobs) + [job] && fired == old(fired)
    {
      jobs := jobs + [job];
    }
  }

  /** The gateway's `last_*` fields, `None` until a value is observed. */
  datatype LastValues = LastValues(
    message: Option<string>, source: Option<string>, destination: Option<string>,
    messageId: Option<string>, timestamp: Option<string>, rawJson: Option<Payload>,
    rawBytes: Option<seq<byte>>)

  const NothingObserved := LastValues(None, None, None, None, None, None, None)

  /** The `last_*` fields after one datagram whose outcome is `o`. */
  function Apply(v: LastValues, data: seq<byte>, o: Outcome): (w: LastValues)
    ensures w.rawBytes == Some(data)
    ensures o.Discarded? ==> w == v.(rawBytes := Some(data))
    ensures o.Accepted? ==>
              && w.source == Some(o.update.source) && w.destination == Some(o.update.destination)
              && w.messageId == Some(o.update.messageId) && w.timestamp == Some(o.update.timestamp)
              && w.rawJson == Some(o.update.rawJson) && w.message == o.update.message
  {
    match o
    case Discarded(_) => v.(rawBytes := Some(data))
    case Accepted(u, _) =>
      LastValues(u.message, Some(u.source), Some(u.destination), Some(u.messageId),
                 Some(u.timestamp), Some(u.rawJson), Some(data))
  }

  /** Receiving the same datagram again leaves the `last_*` fields where the first time put them. */
  lemma ApplyIdempotent(v: LastValues, data: seq<byte>, o: Outcome)
    ensures Apply(Apply(v, data, o), data, o) == Apply(v, data, o)
  {
  }

  /** An accepted datagram overwrites all `last_*` fields: what was there before does not matter. */
  lemma AcceptedForgetsPast(v: LastValues, v': LastValues, data: seq<byte>, o: Outcome)
    requires o.Accepted?
    ensures Apply(v, data, o) == Apply(v', data, o)
  {
  }

  /**
   * Receiving the same datagram twice with the same clock reading, in a gateway
   * with the same identity, ends in the state one delivery gives.
   */
  lemma RedeliveryIdempotent(v: LastValues, myCall: Option<string>, groups: seq<string>,
                             data: seq<byte>, decoded: string, parsed: Json, now: string)
    ensures var o := Process(myCall, groups, decoded, parsed, now);
      Apply(Apply(v, data, o), data, o) == Apply(v, data, o)
  {
    ApplyIdempotent(v, data, Process(myCall, groups, decoded, parsed, now));
  }

  /** Removal handle returned by `register_listener`: the `_remove` closure and what it captured. */
  datatype Remover = Remover(listener: Listener)

  class MeshComGateway {
    const hass: Hass
    const myCall: Option<string>
    const groups: seq<string>
    var listeners: seq<Listener>

    var lastMessage: Option<string>
    var lastSource: Option<string>
    var lastDestination: Option<string>
    var lastMessageId: Option<string>
    var lastTimestamp: Option<string>
    var lastRawJson: Option<Payload>
    var lastRawBytes: Option<seq<byte>>

    /** All `last_*` fields at once. */
    function Last(): LastValues
      reads this
    {
      LastValues(lastMessage, lastSource, lastDestination, lastMessageId, lastTimestamp,
                 lastRawJson, lastRawBytes)
    }

    /** `MeshComGateway.__init__`: normalised identity, no listeners, nothing observed. */
    constructor (hass: Hass, myCall: Option<string>, groups: seq<string>)
      ensures this.hass == hass
      ensures this.myCall == NormalizeCall(myCall) && this.groups == NormalizeGroups(groups)
      ensures listeners == [] && Last() == NothingObserved
    {
      this.hass := hass;
      this.myCall := NormalizeCall(myCall);
      this.groups := NormalizeGroups(groups);
      listeners := [];
      lastMessage, lastSource, lastDestination, lastMessageId := None, None, None, None;
      lastTimestamp, lastRawJson, lastRawBytes := None, None, None;
    }

    /**
     * `datagram_received`: `decoded` is the lossy UTF-8 decoding of `data`,
     * `parsed` what `json.loads` makes of its stripped text and `now` the
     * current time in ISO form.
     */
    method DatagramReceived(data: seq<byte>, decoded: string, parsed: Json, now: string)
      modifies this, hass
      ensures listeners == old(listeners)
      ensures Last() == Apply(old(Last()), data, Process(myCall, groups, decoded, parsed, now))
      ensures var o := Process(myCall, groups, decoded, parsed, now);
        if o.Accepted? then
          hass.fired == old(hass.fired) + [BusEvent(EventType, o.event)]
          && hass.jobs == old(hass.jobs) + listeners
        else
          hass.fired == old(hass.fired) && hass.jobs == old(hass.jobs)
    {
      lastRawBytes := Some(data);

      var text := Strip(decoded);
      if text == "" {
        assert Process(myCall, groups, decoded, parsed, now).Discarded?;
        return;
      }
      if !parsed.Object? {
        assert Process(myCall, groups, decoded, parsed, now).Discarded?;
        return;
      }
      assert Process(myCall, groups, decoded, parsed, now) == ProcessObject(myCall, groups, parsed.payload, now);
      HandlePayload(parsed.payload, now);
    }

    /**
     * The rest of `datagram_received`, once the datagram is a JSON object:
     * field defaults, the text check, the destination filter, the text
     * normalisation, the state update, the event and the listener jobs.
     */
    method HandlePayload(payload: Payload, now: string)
      modifies this, hass
      ensures listeners == old(listeners) && lastRawBytes == old(lastRawBytes)
      ensures var o := ProcessObject(myCall, groups, payload, now);
        if o.Accepted? then
          && lastSource == Some(o.update.source) && lastDestination == Some(o.update.destination)
          && lastMessageId == Some(o.update.messageId) && lastTimestamp == Some(o.update.timestamp)
          && lastRawJson == Some(o.update.rawJson) && lastMessage == o.update.message
          && hass.fired == old(hass.fired) + [BusEvent(EventType, o.event)]
          && hass.jobs == old(hass.jobs) + listeners
        else
          Last() == old(Last()) && hass.fired == old(hass.fired) && hass.jobs == old(hass.jobs)
    {
      var srcCall := Upper(Get(payload, "src", "Unknown"));
      var dstCall := Upper(Get(payload, "dst", "*"));
      var rawMsgText := Get(payload, "msg", "");
      if Strip(rawMsgText) == "" {
        assert ProcessObject(myCall, groups, payload, now) == Discarded(NoText);
        return;
      }
      var messageId := Get(payload, "msg_id", "");

      var allowed := false;
      if myCall.Some? && myCall.value != "" && dstCall == myCall.value {
        allowed := true;
      } else if dstCall in groups {
        allowed := true;
      }
      if !allowed {
        assert ProcessObject(myCall, groups, payload, now) == Discarded(NotAddressed);
        return;
      }

      var cleanMsgText := StripSeqNumber(rawMsgText);
      var isTimeBeacon := IsTimeBeacon(cleanMsgText);
      var message: Option<string>;
      if isTimeBeacon {
        message := None;
      } else {
        message := Some(Sanitize(cleanMsgText));
      }
      var update := Update(srcCall, dstCall, messageId, now, payload, message);
      var eventData := EventData(srcCall, dstCall, cleanMsgText, rawMsgText, messageId, isTimeBeacon,
                                 Lookup(payload, "src_type"), Lookup(payload, "firmware"),
                                 Lookup(payload, "fw_sub"), payload);
      assert ProcessObject(myCall, groups, payload, now) == Accepted(update, eventData);
      Record(update, eventData);
    }

    /**
     * The accepting tail of `datagram_received`: overwrite the `last_*`
     * fields from one packet, fire one `meshcom_message` event, then
     * schedule every listener.
     */
    method Record(update: Update, eventData: EventData)
      modifies this, hass
      ensures listeners == old(listeners) && lastRawBytes == old(lastRawBytes)
      ensures lastSource == Some(update.source) && lastDestination == Some(update.destination)
      ensures lastMessageId == Some(update.messageId) && lastTimestamp == Some(update.timestamp)
      ensures lastRawJson == Some(update.rawJson) && lastMessage == update.message
      ensures hass.fired == old(hass.fired) + [BusEvent(EventType, eventData)]
      ensures hass.jobs == old(hass.jobs) + listeners
    {
      lastSource := Some(update.source);
      lastDestination := Some(update.destination);
      lastMessageId := Some(update.messageId);
      lastTimestamp := Some(update.timestamp);
      lastRawJson := Some(update.rawJson);
      lastMessage := update.message;
      hass.Fire(EventType, eventData);
      NotifyListeners();
    }

    /** `for listener in list(self._listeners): self.hass.add_job(listener)`. */
    method NotifyListeners()
      modifies hass
      ensures hass.jobs == old(hass.jobs) + listeners && hass.fired == old(hass.fired)
    {
      var snapshot := listeners;
      for i := 0 to |snapshot|
        invariant hass.jobs == old(hass.jobs) + snapshot[..i]
        invariant hass.fired == old(hass.fired)
      {
        assert snapshot[..i + 1] == snapshot[..i] + [snapshot[i]];
        hass.AddJob(snapshot[i]);
      }
      assert snapshot[..|snapshot|] == snapshot;
    }

    /** `register_listener`: append the callback and hand back its remover. */
    method RegisterListener(listener: Listener) returns (remove: Remover)
      modifies this`listeners
      ensures listeners == old(listeners) + [listener]
      ensures remove == Remover(listener)
    {
      listeners := listeners + [listener];
      remove := Remover(listener);
    }

    /** Calling the `_remove` closure: the first occurrence goes, an absent listener is a no-op. */
    method Remove(remove: Remover)
      modifies this`listeners
      ensures listeners == RemoveFirst(old(listeners), remove.listener)
    {
      if remove.listener in listeners {
        listeners := RemoveFirst(listeners, remove.listener);
      }
    }
  }

  /**
   * `async_setup_entry` as far as the gateway goes: the optional `my_call`
   * and `groups` settings of the entry become the gateway's identity.
   */
  method SetupEntry(hass: Hass, myCall: Option<string>, groupsRaw: Option<string>)
    returns (gateway: MeshComGateway)
    ensures fresh(gateway) && gateway.hass == hass
    ensures gateway.myCall == NormalizeCall(myCall)
    ensures gateway.groups == NormalizeGroups(ParseGroups(groupsRaw.GetOr("")))
    ensures gateway.listeners == [] && gateway.Last() == NothingObserved
  {
    var groups := ParseGroups(groupsRaw.GetOr(""));
    gateway := new MeshComGateway(hass, myCall, groups);
  }

  /**
   * A listener removed before a datagram arrives is not scheduled for it,
   * provided it was registered once.
   */
  method RemovedListenerNotScheduled(gateway: MeshComGateway, listener: Listener, data: seq<byte>,
                                     decoded: string, parsed: Json, now: string)
    requires multiset(gateway.listeners)[listener] == 1
    modifies gateway, gateway.hass
    ensures multiset(gateway.hass.jobs)[listener] == multiset(old(gateway.hass.jobs))[listener]
  {
    gateway.Remove(Remover(listener));
    RemovedOnceRegistered(old(gateway.listeners), listener);
    gateway.DatagramReceived(data, decoded, parsed, now);
  }

  /**
   * `_remove` drops one occurrence only: a listener registered twice and
   * removed once is still scheduled, once, for an accepted datagram.
   */
  method TwiceRegisteredStillScheduled(gateway: MeshComGateway, listener: Listener, data: seq<byte>,
                                       decoded: string, parsed: Json, now: string)
    requires multiset(gateway.listeners)[listener] == 2
    requires Process(gateway.myCall, gateway.groups, decoded, parsed, now).Accepted?
    modifies gateway, gateway.hass
    ensures multiset(gateway.hass.jobs)[listener] == multiset(old(gateway.hass.jobs))[listener] + 1
  {
    gateway.Remove(Remover(listener));
    RemoveFirstCount(old(gateway.listeners), listener);
    gateway.DatagramReceived(data, decoded, parsed, now);
  }
}
