/**
 * What `MeshComGateway.datagram_received` decides about one datagram:
 * discard it (and why), or accept it with the values it stores and the
 * `meshcom_message` event it fires. Pure; the gateway class applies it.
 */
module Packet {
  import opened Wrappers
  import opened Text
  import opened Identity

  /** A decoded JSON object, its values already in their string form. */
  type Payload = map<string, string>

  /** The outcome of `json.loads` on the stripped packet text. */
  datatype Json = Malformed | NonObject | Object(payload: Payload)

  /** Why a datagram was dropped. */
  datatype Discard = EmptyPayload | InvalidJson | NotAnObject | NoText | NotAddressed

  /** The `last_*` values an accepted packet writes (`last_raw_bytes` aside). */
  datatype Update = Update(source: string, destination: string, messageId: string,
                           timestamp: string, rawJson: Payload, message: Option<string>)

  /** The data of the `meshcom_message` event. */
  datatype EventData = EventData(src: string, dst: string, msg: string, rawMsg: string,
                                 msgId: string, isTimeBeacon: bool, srcType: Option<string>,
                                 firmware: Option<string>, fwSub: Option<string>, raw: Payload)

  datatype Outcome = Discarded(reason: Discard) | Accepted(update: Update, event: EventData)

  /** `payload.get(key, default)`. */
  function Get(p: Payload, key: string, default: string): (v: string)
    ensures key in p ==> v == p[key]
    ensures key !in p ==> v == default
  {
    if key in p then p[key] else default
  }

  /** `payload.get(key)`. */
  function Lookup(p: Payload, key: string): (v: Option<string>)
    ensures v.Some? <==> key in p
    ensures v.Some? ==> v.value == p[key]
  {
    if key in p then Some(p[key]) else None
  }

  /**
   * The destination filter: an (upper-cased) destination is admitted when it
   * is the own callsign, which must be set and non-empty, or one of the groups.
   * `*` is an ordinary group name here.
   */
  predicate Admits(myCall: Option<string>, groups: seq<string>, dst: string) {
    (myCall.Some? && myCall.value != "" && dst == myCall.value) || dst in groups
  }

  /** `re.search(r"\{\d{1,4}$", s)` matches starting at index `p`. */
  predicate SeqNumberAt(s: string, p: int) {
    0 <= p < |s| && s[p] == '{' && 1 <= |s| - 1 - p <= 4
    && forall i | p < i < |s| :: IsDigit(s[i])
  }

  /** Length of the longest all-digit suffix. */
  function TrailingDigits(s: string): (n: nat)
    ensures n <= |s|
    ensures forall i | |s| - n <= i < |s| :: IsDigit(s[i])
    ensures n < |s| ==> !IsDigit(s[|s| - 1 - n])
  {
    if s == [] || !IsDigit(s[|s| - 1]) then 0 else 1 + TrailingDigits(s[..|s| - 1])
  }

  /**
   * `re.sub(r"\{\d{1,4}$", "", s)`: drop a trailing APRS message number,
   * a `{` followed by one to four digits that end the text. Nothing else
   * is removed, and the text is not trimmed afterwards.
   */
  function StripSeqNumber(s: string): (r: string)
    ensures forall p | SeqNumberAt(s, p) :: r == s[..p]
    ensures (forall p | 0 <= p < |s| :: !SeqNumberAt(s, p)) ==> r == s
  {
    var n := TrailingDigits(s);
    if 1 <= n <= 4 && n < |s| && s[|s| - 1 - n] == '{' then
      assert SeqNumberAt(s, |s| - 1 - n);
      s[..|s| - 1 - n]
    else
      assert forall p | SeqNumberAt(s, p) :: false by {
        forall p | SeqNumberAt(s, p) ensures false {
          AnchoredAtDigitRun(s, p);
        }
      }
      s
  }

  /** A match of the message-number pattern starts just before the trailing digit run. */
  lemma AnchoredAtDigitRun(s: string, p: int)
    requires SeqNumberAt(s, p)
    ensures TrailingDigits(s) == |s| - 1 - p
  {
  }

  /** `s.startswith("{CET}") or s.startswith("{CEST}")`. */
  predicate IsTimeBeacon(s: string) {
    "{CET}" <= s || "{CEST}" <= s
  }

  /** `s.replace('"', "'")`. */
  function Sanitize(s: string): (r: string)
    ensures '"' !in r
    ensures |r| == |s|
  {
    Replace(s, '"', '\'')
  }

  /**
   * The values an admitted packet stores and the event it fires. The
   * stored and the fired fields agree; a time beacon stores no message;
   * a stored message holds no `"`.
   */
  function Accept(p: Payload, now: string): (o: Outcome)
    ensures o.Accepted?
    ensures o.update.source == o.event.src && o.update.destination == o.event.dst
    ensures o.update.messageId == o.event.msgId && o.update.rawJson == o.event.raw
    ensures o.update.timestamp == now
    ensures o.update.message.None? <==> o.event.isTimeBeacon
    ensures o.update.message.Some? ==>
      o.update.message.value == Sanitize(o.event.msg) && '"' !in o.update.message.value
  {
    var srcCall := Upper(Get(p, "src", "Unknown"));
    var dstCall := Upper(Get(p, "dst", "*"));
    var rawMsgText := Get(p, "msg", "");
    var messageId := Get(p, "msg_id", "");
    var clean := StripSeqNumber(rawMsgText);
    var beacon := IsTimeBeacon(clean);
    Accepted(
      Update(srcCall, dstCall, messageId, now, p, if beacon then None else Some(Sanitize(clean))),
      EventData(srcCall, dstCall, clean, rawMsgText, messageId, beacon,
                Lookup(p, "src_type"), Lookup(p, "firmware"), Lookup(p, "fw_sub"), p))
  }

  /** `datagram_received` once the packet is a JSON object: the text check, then the filter. */
  function ProcessObject(myCall: Option<string>, groups: seq<string>, p: Payload, now: string): (o: Outcome)
    ensures o.Discarded? ==> o.reason == NoText || o.reason == NotAddressed
  {
    if Strip(Get(p, "msg", "")) == "" then Discarded(NoText)
    else if !Admits(myCall, groups, Upper(Get(p, "dst", "*"))) then Discarded(NotAddressed)
    else Accept(p, now)
  }

  /**
   * `datagram_received` after its first line: the stripped text of the
   * datagram, the JSON parse of that text, the gateway identity and the
   * current time decide the outcome.
   */
  function Process(myCall: Option<string>, groups: seq<string>, decoded: string,
                   parsed: Json, now: string): (o: Outcome)
    ensures o.Accepted? ==> parsed.Object? && o == Accept(parsed.payload, now)
  {
    if Strip(decoded) == "" then Discarded(EmptyPayload)
    else match parsed
      case Malformed => Discarded(InvalidJson)
      case NonObject => Discarded(NotAnObject)
      case Object(p) => ProcessObject(myCall, groups, p, now)
  }

  // Properties of the message number strip

  /** Any text followed by `{` and one to four digits loses exactly that suffix. */
  lemma StripSeqNumberSuffix(t: string, ds: string)
    requires 1 <= |ds| <= 4 && forall i | 0 <= i < |ds| :: IsDigit(ds[i])
    ensures StripSeqNumber(t + "{" + ds) == t
  {
    var s := t + "{" + ds;
    assert SeqNumberAt(s, |t|);
    assert s[..|t|] == t;
  }

  lemma StripSeqNumberExamples()
    ensures StripSeqNumber("hello{12") == "hello"
    ensures StripSeqNumber("x{12345") == "x{12345"
    ensures StripSeqNumber("a{1{23") == "a{1"
    ensures StripSeqNumber("hello") == "hello"
  {
    StripSeqNumberSuffix("hello", "12");
    StripSeqNumberSuffix("a{1", "23");
    assert "hello" + "{" + "12" == "hello{12";
    assert "a{1" + "{" + "23" == "a{1{23";
    var s := "x{12345";
    forall p | 0 <= p < |s| ensures !SeqNumberAt(s, p) {
      if p != 1 { assert s[p] != '{'; }
    }
    forall p | 0 <= p < 5 ensures !SeqNumberAt("hello", p) {
      assert "hello"[p] != '{';
    }
  }

  // Properties of Process

  /** Each discard reason is produced by exactly its own condition, checked in `datagram_received`'s order. */
  lemma DiscardReasons(myCall: Option<string>, groups: seq<string>, decoded: string, parsed: Json, now: string)
    ensures var o := Process(myCall, groups, decoded, parsed, now);
      && (o == Discarded(EmptyPayload) <==> AllSpace(decoded))
      && (o == Discarded(InvalidJson) <==> !AllSpace(decoded) && parsed.Malformed?)
      && (o == Discarded(NotAnObject) <==> !AllSpace(decoded) && parsed.NonObject?)
      && (o == Discarded(NoText) <==>
            !AllSpace(decoded) && parsed.Object? && AllSpace(Get(parsed.payload, "msg", "")))
      && (o == Discarded(NotAddressed) <==>
            !AllSpace(decoded) && parsed.Object? && !AllSpace(Get(parsed.payload, "msg", ""))
            && !Admits(myCall, groups, Upper(Get(parsed.payload, "dst", "*"))))
  {
  }

  /**
   * The admission rule: a well-formed packet with text is accepted exactly
   * when its upper-cased destination (`*` when absent) is the set own
   * callsign or one of the groups.
   */
  lemma AdmissionRule(myCall: Option<string>, groups: seq<string>, decoded: string, p: Payload, now: string)
    requires !AllSpace(decoded) && !AllSpace(Get(p, "msg", ""))
    ensures var dst := Upper(Get(p, "dst", "*"));
      Process(myCall, groups, decoded, Object(p), now).Accepted?
      <==> (myCall.Some? && myCall.value != "" && dst == myCall.value) || dst in groups
  {
  }

  /** A packet without `dst` goes to `*`: accepted exactly when `*` is a group or the own callsign. */
  lemma AbsentDestination(myCall: Option<string>, groups: seq<string>, decoded: string, p: Payload, now: string)
    requires !AllSpace(decoded) && !AllSpace(Get(p, "msg", ""))
    requires "dst" !in p
    ensures Process(myCall, groups, decoded, Object(p), now).Accepted?
      <==> "*" in groups || myCall == Some("*")
  {
    assert Upper("*") == "*";
  }

  /** Addressed to the configured callsign in any letter case: accepted, whatever the groups. */
  lemma OwnCallAdmitted(configured: string, groups: seq<string>, decoded: string, p: Payload, now: string)
    requires !AllSpace(decoded) && !AllSpace(Get(p, "msg", ""))
    requires configured != "" && "dst" in p && Upper(p["dst"]) == Upper(configured)
    ensures Process(NormalizeCall(Some(configured)), groups, decoded, Object(p), now).Accepted?
  {
  }

  /** Addressed to a configured group in any letter case: accepted, whatever the callsign. */
  lemma GroupAdmitted(myCall: Option<string>, configured: seq<string>, k: nat, decoded: string,
                      p: Payload, now: string)
    requires !AllSpace(decoded) && !AllSpace(Get(p, "msg", ""))
    requires k < |configured| && Upper(Get(p, "dst", "*")) == Upper(configured[k])
    ensures Process(myCall, NormalizeGroups(configured), decoded, Object(p), now).Accepted?
  {
    assert NormalizeGroups(configured)[k] == Upper(configured[k]);
    AdmissionRule(myCall, NormalizeGroups(configured), decoded, p, now);
  }

  /** `*` only matches a literal `*`: with groups `["*"]` and no callsign, `LOCAL` is not admitted. */
  lemma WildcardIsLiteral(now: string)
    ensures Process(None, ["*"], "{}", Object(map["dst" := "LOCAL", "msg" := "hi"]), now)
      == Discarded(NotAddressed)
  {
    var p := map["dst" := "LOCAL", "msg" := "hi"];
    assert Get(p, "msg", "") == "hi" && !IsSpace("hi"[0]);
    assert |Upper(Get(p, "dst", "*"))| == 5;
    assert !IsSpace("{}"[0]);
    AdmissionRule(None, ["*"], "{}", p, now);
    DiscardReasons(None, ["*"], "{}", Object(p), now);
  }

  /** With groups `["*"]`, a packet that names no destination is admitted. */
  lemma WildcardTakesUnaddressed(now: string)
    ensures Process(None, ["*"], "{}", Object(map["msg" := "hi"]), now).Accepted?
  {
    var q := map["msg" := "hi"];
    assert Get(q, "msg", "") == "hi" && !IsSpace("hi"[0]);
    assert Get(q, "dst", "*") == "*";
    assert Upper("*") == "*";
    assert !IsSpace("{}"[0]);
    AdmissionRule(None, ["*"], "{}", q, now);
  }

  /** On acceptance the stored fields come from the packet, with the `payload.get` defaults. */
  lemma StoredFields(myCall: Option<string>, groups: seq<string>, decoded: string, p: Payload, now: string)
    requires Process(myCall, groups, decoded, Object(p), now).Accepted?
    ensures var u := Process(myCall, groups, decoded, Object(p), now).update;
      && u.source == Upper(Get(p, "src", "Unknown"))
      && u.destination == Upper(Get(p, "dst", "*"))
      && u.messageId == Get(p, "msg_id", "")
      && u.timestamp == now
      && u.rawJson == p
  {
  }

  /**
   * A time beacon is accepted like any other message, but stores no message
   * text and is flagged in the event.
   */
  lemma TimeBeacon(myCall: Option<string>, groups: seq<string>, decoded: string, p: Payload, now: string)
    requires Process(myCall, groups, decoded, Object(p), now).Accepted?
    requires IsTimeBeacon(StripSeqNumber(Get(p, "msg", "")))
    ensures var o := Process(myCall, groups, decoded, Object(p), now);
      o.update.message == None && o.event.isTimeBeacon
  {
  }

  /**
   * An ordinary message stores its number-stripped text with `"` turned
   * into `'`; the event carries the stripped text unchanged and the raw text.
   */
  lemma OrdinaryMessage(myCall: Option<string>, groups: seq<string>, decoded: string, p: Payload, now: string)
    requires Process(myCall, groups, decoded, Object(p), now).Accepted?
    requires !IsTimeBeacon(StripSeqNumber(Get(p, "msg", "")))
    ensures var o := Process(myCall, groups, decoded, Object(p), now);
      var clean := StripSeqNumber(Get(p, "msg", ""));
      && o.update.message.Some?
      && |o.update.message.value| == |clean|
      && (forall i | 0 <= i < |clean| ::
            o.update.message.value[i] == if clean[i] == '"' then '\'' else clean[i])
      && '"' !in o.update.message.value
      && o.event.msg == clean && o.event.rawMsg == Get(p, "msg", "")
      && !o.event.isTimeBeacon
  {
  }

  /** Stripping a message number never hides a time-beacon marker. */
  lemma BeaconSurvivesStrip(s: string)
    requires IsTimeBeacon(s)
    ensures IsTimeBeacon(StripSeqNumber(s))
  {
    if p :| SeqNumberAt(s, p) {
      assert !IsDigit(s[1]);
      assert p >= 1;
      if "{CET}" <= s {
        assert s[p] == '{' && s[..5] == "{CET}";
        assert p >= 5;
        assert s[..p][..5] == s[..5];
      } else {
        assert s[p] == '{' && s[..6] == "{CEST}";
        assert p >= 6;
        assert s[..p][..6] == s[..6];
      }
    }
  }

  /** The beacon example: `{CET}12:30` sent to a group is accepted without a stored message. */
  lemma TimeBeaconExample(now: string)
    ensures var o := Process(None, ["*"], "{}", Object(map["msg" := "{CET}12:30"]), now);
      o.Accepted? && o.update.message == None && o.event.isTimeBeacon && o.update.destination == "*"
  {
    var q := map["msg" := "{CET}12:30"];
    var m := Get(q, "msg", "");
    assert m == "{CET}12:30";
    assert !IsSpace(m[0]) && !IsSpace("{}"[0]);
    assert Get(q, "dst", "*") == "*" && Upper("*") == "*";
    AdmissionRule(None, ["*"], "{}", q, now);
    assert "{CET}" <= m;
    BeaconSurvivesStrip(m);
    TimeBeacon(None, ["*"], "{}", q, now);
    StoredFields(None, ["*"], "{}", q, now);
  }
}
