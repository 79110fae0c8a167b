/**
 * The decision logic of the host bridge in server/src/main.rs, which relays
 * between an MQTT broker and the display's serial port: which publishes are
 * taken and how they are re-tagged for the firmware, the anemometer
 * throttle, the cutting of the serial stream into JSON lines, and what is
 * written back to MQTT and to the port.
 */
module HostBridge {
  import opened Wrappers
  import opened CTypes
  import Topics
  import UsbCdc

  /** serde_json::Value. A number is kept as its text; objects map each key to one value. */
  datatype Value =
    | Null
    | Bool(b: bool)
    | Number(text: string)
    | Str(s: string)
    | Array(items: seq<Value>)
    | Object(fields: map<string, Value>)

  /**
   * The library calls the bridge relies on, taken as given functions:
   * serde_json::from_str, to_string, to_string_pretty, str::from_utf8 and
   * String::from_utf8_lossy.
   */
  datatype Codec = Codec(
    parse: string -> Option<Value>,
    compact: Value -> string,
    pretty: Value -> string,
    utf8: seq<byte> -> Option<string>,
    lossy: seq<byte> -> string)

  const KeyTopic := "topic"
  const KeyCommand := "command"
  const CommandTopic := "command"

  /** TopicType. */
  datatype TopicType = Anemometer | Sps30 | Imu | Status | Unknown

  /** The four MQTT topics mqtt_task subscribes to, in order. */
  const Subscriptions: seq<string> := ["anemometer", "sps30", "imu", "status"]

  /** match_topic: the exact topic name, or Unknown. */
  function MatchTopic(topic: string): TopicType {
    match topic
    case "anemometer" => Anemometer
    case "sps30" => Sps30
    case "imu" => Imu
    case "status" => Status
    case _ => Unknown
  }

  /**
   * match_topic and the subscription list agree: each subscribed topic has its
   * own type, in order, and a name is Unknown exactly when it is not subscribed.
   */
  lemma MatchTopicSubscriptions(topic: string)
    ensures MatchTopic(topic) == Unknown <==> topic !in Subscriptions
    ensures [MatchTopic(Subscriptions[0]), MatchTopic(Subscriptions[1]), MatchTopic(Subscriptions[2]),
             MatchTopic(Subscriptions[3])] == [Anemometer, Sps30, Imu, Status]
  {
  }

  /** The topic each callback writes into the payload. */
  function TagOf(t: TopicType): string {
    match t
    case Anemometer => "anm"
    case Sps30 => "sps"
    case Imu => "imu"
    case Status => "status"
    case Unknown => ""
  }

  /**
   * The tags are the topics the firmware routes on: "anm" and "sps" in both
   * firmware variants, "imu" and "status" in the variant that has them.
   */
  lemma TagsAreFirmwareTopics()
    ensures TagOf(Anemometer) == Topics.TopicAnemometer
    ensures TagOf(Sps30) == Topics.TopicParticulateMatter
    ensures TagOf(Imu) == Topics.TopicImu
    ensures TagOf(Status) == Topics.TopicStatus
    ensures KeyTopic == Topics.KeyTopic
  {
  }

  /**
   * The body shared by the four mqtt_*_topic_callback functions: an object
   * gets its "topic" member set to `tag`, inserted or overwritten; anything
   * else is dropped.
   */
  function Tag(json: Value, tag: string): Option<Value> {
    if json.Object? then Some(Object(json.fields[KeyTopic := Str(tag)])) else None
  }

  /**
   * Tagging keeps every member of the object except "topic", which afterwards
   * holds the tag; re-tagging only replaces the tag.
   */
  lemma TagMembers(json: Value, tag: string, tag': string)
    ensures Tag(json, tag).Some? <==> json.Object?
    ensures json.Object? ==>
      && Tag(json, tag).value.fields[KeyTopic] == Str(tag)
      && Tag(json, tag).value.fields.Keys == json.fields.Keys + {KeyTopic}
      && (forall k :: k in json.fields && k != KeyTopic ==> Tag(json, tag).value.fields[k] == json.fields[k])
      && Tag(Tag(json, tag).value, tag') == Tag(json, tag')
  {
    if json.Object? {
      assert json.fields[KeyTopic := Str(tag)][KeyTopic := Str(tag')] == json.fields[KeyTopic := Str(tag')];
    }
  }

  /**
   * What the callback for topic type `t` queues for the serial port: the
   * payload, when it is UTF-8 and a JSON object, re-tagged and pretty-printed.
   */
  function Forward(t: TopicType, payload: seq<byte>, codec: Codec): Option<string> {
    match codec.utf8(payload)
    case None => None
    case Some(text) =>
      match codec.parse(text)
      case None => None
      case Some(json) =>
        if t == Unknown then None
        else match Tag(json, TagOf(t))
          case None => None
          case Some(tagged) => Some(codec.pretty(tagged))
  }

  /** Instant::duration_since, which saturates at zero when `current` is earlier. */
  function Elapsed(earlier: nat, current: nat): nat {
    if current >= earlier then current - earlier else 0
  }

  /** has_elapsed_between. */
  function HasElapsedBetween(earlier: nat, current: nat, duration: nat): bool {
    Elapsed(earlier, current) >= duration
  }

  /**
   * With no filter every message passes; with a filter, a message passes
   * exactly when it comes at least `duration` after the last one let through.
   */
  lemma HasElapsedBetweenMeaning(earlier: nat, current: nat, duration: nat)
    ensures duration == 0 ==> HasElapsedBetween(earlier, current, duration)
    ensures duration > 0 ==> (HasElapsedBetween(earlier, current, duration) <==> current >= earlier + duration)
  {
  }

  /**
   * The gate in mqtt_task, applied before the payload is decoded: the new
   * value of last_msg_anm_timestamp when the publish passes, or None when it is
   * discarded. Unknown topics are discarded, anemometer publishes pass only
   * after the filter duration, and the other topics always pass.
   */
  function Admit(lastAnm: nat, now: nat, filter: nat, t: TopicType): (r: Option<nat>)
    ensures r.None? <==> t == Unknown || (t == Anemometer && !HasElapsedBetween(lastAnm, now, filter))
    ensures r.Some? ==> r.value == if t == Anemometer then now else lastAnm
  {
    if t == Unknown then None
    else if t == Anemometer then
      if !HasElapsedBetween(lastAnm, now, filter) then None else Some(now)
    else Some(lastAnm)
  }

  /** The arrival times of anemometer publishes that the throttle lets through, starting from `lastAnm`. */
  function AdmitRun(lastAnm: nat, times: seq<nat>, filter: nat): seq<nat>
    decreases |times|
  {
    if times == [] then []
    else
      match Admit(lastAnm, times[0], filter, Anemometer)
      case Some(next) => [times[0]] + AdmitRun(next, times[1..], filter)
      case None => AdmitRun(lastAnm, times[1..], filter)
  }

  /**
   * The throttle's guarantee over any run of anemometer publishes: each one let
   * through comes at least `filter` after the one before it (and the first
   * after the starting timestamp), and each one let through arrived in the run.
   */
  lemma {:induction false} ThrottleSpacing(lastAnm: nat, times: seq<nat>, filter: nat)
    ensures var run := AdmitRun(lastAnm, times, filter);
      && (run != [] ==> Elapsed(lastAnm, run[0]) >= filter)
      && (forall k :: 0 < k < |run| ==> Elapsed(run[k - 1], run[k]) >= filter)
      && (forall k :: 0 <= k < |run| ==> run[k] in times)
    decreases |times|
  {
    if times != [] {
      match Admit(lastAnm, times[0], filter, Anemometer)
      case Some(next) =>
        ThrottleSpacing(next, times[1..], filter);
        var rest := AdmitRun(next, times[1..], filter);
        assert AdmitRun(lastAnm, times, filter) == [times[0]] + rest;
        forall k | 0 < k < |[times[0]] + rest|
          ensures Elapsed(([times[0]] + rest)[k - 1], ([times[0]] + rest)[k]) >= filter
        {
          if k == 1 {
            assert ([times[0]] + rest)[k] == rest[0];
          } else {
            assert ([times[0]] + rest)[k - 1] == rest[k - 2] && ([times[0]] + rest)[k] == rest[k - 1];
          }
        }
        forall k | 0 <= k < |[times[0]] + rest|
          ensures ([times[0]] + rest)[k] in times
        {
          if k > 0 {
            assert ([times[0]] + rest)[k] == rest[k - 1];
            assert rest[k - 1] in times[1..];
          }
        }
      case None =>
        ThrottleSpacing(lastAnm, times[1..], filter);
        var run := AdmitRun(lastAnm, times[1..], filter);
        forall k | 0 <= k < |run|
          ensures run[k] in times
        {
          assert run[k] in times[1..];
        }
    }
  }

  /** The poll results of rumqttc's event loop that mqtt_task distinguishes. */
  datatype MqttEvent =
    | Publish(topic: string, payload: seq<byte>)
    | OtherIncoming
    | Outgoing
    | ConnectionError

  /** The state mqtt_task keeps between polls, and the messages it has queued for the serial port. */
  class MqttTask {
    var lastAnm: nat
    var isSubscribed: bool
    var queued: seq<string>

    /** The task starts unsubscribed, with the anemometer timestamp at its start time. */
    constructor (now: nat)
      ensures lastAnm == now && !isSubscribed && queued == []
    {
      lastAnm := now;
      isSubscribed := false;
      queued := [];
    }

    /** The subscription attempt made while unsubscribed; a failure leaves the task unsubscribed. */
    method Subscribe(ok: bool)
      modifies this
      ensures isSubscribed == (old(isSubscribed) || ok)
      ensures lastAnm == old(lastAnm) && queued == old(queued)
    {
      if !isSubscribed {
        if ok {
          isSubscribed := true;
        }
      }
    }

    /**
     * One poll result. A publish on a known topic that passes the throttle
     * moves the anemometer timestamp before its payload is looked at, so a
     * payload that then fails to decode still counts; it is queued when it
     * decodes to an object. A connection error drops the subscription.
     */
    method Poll(event: MqttEvent, now: nat, filter: nat, codec: Codec)
      modifies this
      ensures event.ConnectionError? ==> !isSubscribed && lastAnm == old(lastAnm) && queued == old(queued)
      ensures !event.ConnectionError? ==> isSubscribed == old(isSubscribed)
      ensures !event.Publish? ==> lastAnm == old(lastAnm) && queued == old(queued)
      ensures event.Publish? ==>
        var t := MatchTopic(event.topic);
        && lastAnm == Admit(old(lastAnm), now, filter, t).UnwrapOr(old(lastAnm))
        && queued == old(queued) +
          if Admit(old(lastAnm), now, filter, t).Some? && Forward(t, event.payload, codec).Some?
          then [Forward(t, event.payload, codec).value] else []
    {
      match event
      case Publish(topic, payload) =>
        var topicType := MatchTopic(topic);
        if topicType == Unknown {
          return;
        }
        if topicType == Anemometer {
          if !HasElapsedBetween(lastAnm, now, filter) {
            return;
          }
          lastAnm := now;
        }
        var text := codec.utf8(payload);
        if text.None? {
          return;
        }
        var json := codec.parse(text.value);
        if json.None? {
          return;
        }
        var tagged := Tag(json.value, TagOf(topicType));
        if tagged.Some? {
          queued := queued + [codec.pretty(tagged.value)];
        }
      case OtherIncoming =>
      case Outgoing =>
      case ConnectionError =>
        isSubscribed := false;
    }
  }

  /** char::is_whitespace: the Unicode White_Space characters. */
  predicate IsWhitespace(c: char) {
    var n := c as int;
    n == 0x20 || 0x09 <= n <= 0x0D || n == 0x85 || n == 0xA0 || n == 0x1680 || 0x2000 <= n <= 0x200A ||
    n == 0x2028 || n == 0x2029 || n == 0x202F || n == 0x205F || n == 0x3000
  }

  /** str::trim_start: the suffix left after the leading whitespace. */
  function TrimStart(s: string): (r: string)
    ensures |r| <= |s| && r == s[|s| - |r|..]
    ensures forall k :: 0 <= k < |s| - |r| ==> IsWhitespace(s[k])
    ensures r == [] || !IsWhitespace(r[0])
  {
    if s == [] || !IsWhitespace(s[0]) then s else TrimStart(s[1..])
  }

  /** str::trim_end: the prefix left before the trailing whitespace. */
  function TrimEnd(s: string): (r: string)
    ensures |r| <= |s| && r == s[..|r|]
    ensures forall k :: |r| <= k < |s| ==> IsWhitespace(s[k])
    ensures r == [] || !IsWhitespace(r[|r| - 1])
  {
    if s == [] || !IsWhitespace(s[|s| - 1]) then s else TrimEnd(s[..|s| - 1])
  }

  /** str::trim. */
  function Trim(s: string): string {
    TrimEnd(TrimStart(s))
  }

  /** A line trims to nothing exactly when it is all whitespace; trimming twice is trimming once. */
  lemma TrimMeaning(s: string)
    ensures Trim(s) == [] <==> forall k :: 0 <= k < |s| ==> IsWhitespace(s[k])
    ensures Trim(Trim(s)) == Trim(s)
  {
    var t := TrimStart(s);
    if Trim(s) == [] {
      forall k | 0 <= k < |s|
        ensures IsWhitespace(s[k])
      {
        if k >= |s| - |t| {
          assert s[k] == t[k - (|s| - |t|)];
        }
      }
    }
    var r := Trim(s);
    if r != [] {
      assert r == t[..|r|] && t[0] == r[0];
    }
  }

  /** A line as the draining loop takes it off: up to and including one newline, and no other. */
  predicate LineOf(line: string) {
    |line| > 0 && line[|line| - 1] == '\n' && '\n' !in line[..|line| - 1]
  }

  /** The lines cut from a buffer, each ending in its newline, and what is left after the last newline. */
  datatype Splitting = Splitting(lines: seq<string>, rest: string)

  /** The position buffer.find('\n') returns. */
  function FindNewline(s: string): (r: Option<nat>)
    ensures r.None? <==> '\n' !in s
    ensures r.Some? ==> r.value < |s| && s[r.value] == '\n' && '\n' !in s[..r.value]
  {
    if s == [] then None
    else if s[0] == '\n' then Some(0)
    else match FindNewline(s[1..])
      case None => None
      case Some(p) =>
        assert s[..p + 1] == [s[0]] + s[1..][..p];
        Some(p + 1)
  }

  /** The strings of `lines`, one after the other. */
  function Concat(lines: seq<string>): string {
    if lines == [] then [] else lines[0] + Concat(lines[1..])
  }

  lemma ConcatCons(line: string, rest: seq<string>)
    ensures Concat([line] + rest) == line + Concat(rest)
  {
    assert ([line] + rest)[1..] == rest;
  }

  /**
   * The draining loop of serial_listener_task, as a function of the buffer:
   * each line it takes off runs up to and including the first newline left,
   * and the text after the last newline stays.
   */
  function Split(s: string): Splitting
    decreases |s|
  {
    match FindNewline(s)
    case None => Splitting([], s)
    case Some(p) =>
      var tail := Split(s[p + 1..]);
      Splitting([s[..p + 1]] + tail.lines, tail.rest)
  }

  /** The text left after the last newline holds no newline. */
  lemma {:induction false} SplitRest(s: string)
    ensures '\n' !in Split(s).rest
    decreases |s|
  {
    match FindNewline(s)
    case None =>
    case Some(p) => SplitRest(s[p + 1..]);
  }

  /** Every line cut from the buffer ends in a newline and holds no other. */
  lemma {:induction false} SplitLines(s: string)
    ensures forall k :: 0 <= k < |Split(s).lines| ==> LineOf(Split(s).lines[k])
    decreases |s|
  {
    match FindNewline(s)
    case None =>
    case Some(p) =>
      var line := s[..p + 1];
      SplitLines(s[p + 1..]);
      assert line[..|line| - 1] == s[..p];
      assert LineOf(line);
      var lines := Split(s).lines;
      assert lines == [line] + Split(s[p + 1..]).lines;
      forall k | 0 < k < |lines|
        ensures LineOf(lines[k])
      {
        assert lines[k] == Split(s[p + 1..]).lines[k - 1];
      }
  }

  /** The lines and the rest put back together give the buffer: nothing is lost or reordered. */
  lemma {:induction false} SplitConcat(s: string)
    ensures Concat(Split(s).lines) + Split(s).rest == s
    decreases |s|
  {
    match FindNewline(s)
    case None =>
    case Some(p) =>
      var line := s[..p + 1];
      var tail := Split(s[p + 1..]);
      SplitConcat(s[p + 1..]);
      SplitStep(s, p);
      ConcatCons(line, tail.lines);
      AppendAssoc(line, Concat(tail.lines), tail.rest);
      SliceJoin(s, p + 1);
  }

  /** What one cut line contributes to the queue: its trimmed text, when not empty and valid JSON, re-serialized. */
  function ForwardLine(line: string, codec: Codec): seq<string> {
    var trimmed := Trim(line);
    if trimmed == [] then []
    else match codec.parse(trimmed)
      case None => []
      case Some(json) => [codec.compact(json)]
  }

  /** The messages the listener queues for MQTT from a run of lines, in order. */
  function ForwardLines(lines: seq<string>, codec: Codec): seq<string> {
    if lines == [] then [] else ForwardLines(lines[..|lines| - 1], codec) + ForwardLine(lines[|lines| - 1], codec)
  }

  /** One turn of the draining loop: the first line comes off, and the rest of the buffer splits as before. */
  lemma SplitStep(s: string, p: nat)
    requires FindNewline(s) == Some(p)
    ensures Split(s) == Splitting([s[..p + 1]] + Split(s[p + 1..]).lines, Split(s[p + 1..]).rest)
  {
  }

  /**
   * The draining loop's invariant: the lines taken off so far, followed by
   * those still in the buffer, are the lines of the text received, and
   * everything taken off has been forwarded.
   */
  ghost predicate Draining(start: string, drained: seq<string>, s: string, q0: seq<string>, out: seq<string>, codec: Codec) {
    && Split(start).lines == drained + Split(s).lines
    && Split(start).rest == Split(s).rest
    && out == q0 + ForwardLines(drained, codec)
  }

  /** The invariant holds before the first turn. */
  lemma DrainStart(start: string, q0: seq<string>, codec: Codec)
    ensures Draining(start, [], start, q0, q0, codec)
  {
    AppendEmpty(Split(start).lines);
    AppendEmpty(q0);
  }

  /** The invariant survives taking off one line. */
  lemma DrainStep(start: string, drained: seq<string>, s: string, p: nat, q0: seq<string>, out: seq<string>, codec: Codec)
    requires FindNewline(s) == Some(p)
    requires Draining(start, drained, s, q0, out, codec)
    ensures Draining(start, drained + [s[..p + 1]], s[p + 1..], q0, out + ForwardLine(s[..p + 1], codec), codec)
  {
    SplitStep(s, p);
    var tail := Split(s[p + 1..]);
    assert Split(s).lines == [s[..p + 1]] + tail.lines;
    AppendAssoc(drained, [s[..p + 1]], tail.lines);
    ForwardLinesSnoc(drained, s[..p + 1], codec);
    AppendAssoc(q0, ForwardLines(drained, codec), ForwardLine(s[..p + 1], codec));
  }

  /** With no newline left, the loop has forwarded every line and kept the rest. */
  lemma DrainEnd(start: string, drained: seq<string>, s: string, q0: seq<string>, out: seq<string>, codec: Codec)
    requires FindNewline(s).None?
    requires Draining(start, drained, s, q0, out, codec)
    ensures s == Split(start).rest && out == q0 + ForwardLines(Split(start).lines, codec)
  {
    SplitNone(s);
    AppendEmpty(drained);
  }

  /** With no newline left, nothing more comes off. */
  lemma SplitNone(s: string)
    requires FindNewline(s).None?
    ensures Split(s) == Splitting([], s)
  {
  }

  lemma ForwardLinesSnoc(lines: seq<string>, line: string, codec: Codec)
    ensures ForwardLines(lines + [line], codec) == ForwardLines(lines, codec) + ForwardLine(line, codec)
  {
    assert (lines + [line])[..|lines|] == lines;
  }

  /**
   * The state of serial_listener_task: the text received and not yet cut
   * into lines, and the messages queued for MQTT.
   */
  class SerialListener {
    var buffer: string
    var queued: seq<string>

    constructor ()
      ensures buffer == [] && queued == []
    {
      buffer := [];
      queued := [];
    }

    /**
     * A read of `chunk` (n > 0 bytes): the text is appended to the buffer and
     * every complete line is drained and forwarded; the partial line after the
     * last newline stays buffered for the next read.
     */
    method Receive(chunk: seq<byte>, codec: Codec)
      modifies this
      ensures var s := Split(old(buffer) + codec.lossy(chunk));
        buffer == s.rest && queued == old(queued) + ForwardLines(s.lines, codec)
    {
      var buf := buffer + codec.lossy(chunk);
      var out := queued;
      ghost var start := buf;
      ghost var drained: seq<string> := [];
      DrainStart(start, out, codec);
      var pos := FindNewline(buf);
      while pos.Some?
        invariant Draining(start, drained, buf, old(queued), out, codec)
        invariant pos == FindNewline(buf)
        decreases |buf|
      {
        var line := buf[..pos.value + 1];
        DrainStep(start, drained, buf, pos.value, old(queued), out, codec);
        buf := buf[pos.value + 1..];
        drained := drained + [line];
        out := out + ForwardLine(line, codec);
        pos := FindNewline(buf);
      }
      DrainEnd(start, drained, buf, old(queued), out, codec);
      buffer := buf;
      queued := out;
    }
  }

  /** A line is forwarded exactly when it has a non-whitespace character and its trimmed text is JSON. */
  lemma ForwardLineMeaning(line: string, codec: Codec)
    ensures ForwardLine(line, codec) != [] <==>
      (exists k :: 0 <= k < |line| && !IsWhitespace(line[k])) && codec.parse(Trim(line)).Some?
  {
    TrimMeaning(line);
  }

  /**
   * mqtt_writer_task: the string value of the "command" member, matched
   * exactly, of a message that parses as a JSON object; None when the text
   * is not JSON, has no "command" or the member is not a string.
   */
  function Command(jsonStr: string, codec: Codec): (r: Option<string>)
    ensures r.Some? <==>
      && codec.parse(jsonStr).Some? && codec.parse(jsonStr).value.Object?
      && KeyCommand in codec.parse(jsonStr).value.fields
      && codec.parse(jsonStr).value.fields[KeyCommand].Str?
  {
    match codec.parse(jsonStr)
    case None => None
    case Some(json) =>
      if json.Object? && KeyCommand in json.fields && json.fields[KeyCommand].Str? then
        Some(json.fields[KeyCommand].s)
      else None
  }

  /**
   * The key is matched exactly, unlike the firmware's cJSON lookups: a
   * "Command" member is not the command, and a string command is published as it is.
   */
  lemma CommandKeyExact(jsonStr: string, codec: Codec, s: string, v: Value)
    ensures codec.parse(jsonStr) == Some(Object(map["command" := Str(s)])) ==> Command(jsonStr, codec) == Some(s)
    ensures codec.parse(jsonStr) == Some(Object(map["Command" := v])) ==> Command(jsonStr, codec) == None
  {
  }

  /** The messages mqtt_writer_task has published on the "command" topic. */
  class MqttWriter {
    var published: seq<string>

    constructor ()
      ensures published == []
    {
      published := [];
    }

    /** One message from the serial side: its command is published, or nothing is. */
    method Handle(jsonStr: string, codec: Codec)
      modifies this
      ensures published == old(published) + match Command(jsonStr, codec) case Some(c) => [c] case None => []
    {
      var json := codec.parse(jsonStr);
      if json.Some? && json.value.Object? && KeyCommand in json.value.fields {
        var commandValue := json.value.fields[KeyCommand];
        if commandValue.Str? {
          published := published + [commandValue.s];
        }
      }
    }
  }

  /** What serial_writer_task has written to the port. */
  class SerialWriter {
    var written: string

    constructor ()
      ensures written == []
    {
      written := [];
    }

    /** One queued message, followed by exactly one newline. */
    method Write(message: string)
      modifies this
      ensures written == old(written) + message + ['\n']
    {
      written := written + message + ['\n'];
    }
  }

  /** The bytes of an ASCII string. */
  function Ascii(s: string): (r: seq<byte>)
    requires forall k :: 0 <= k < |s| ==> s[k] as int < 0x80
    ensures |r| == |s| && forall k :: 0 <= k < |s| ==> r[k] == s[k] as int
  {
    if s == [] then [] else [s[0] as int] + Ascii(s[1..])
  }

  /**
   * A one-line ASCII message that starts with '{' and fits the firmware's line
   * buffer, written by serial_writer_task, reaches the line framer of
   * main/usb_cdc.c whole, as one line. A pretty-printed message spans several
   * lines and so does not satisfy this.
   */
  lemma WrittenLineFramed(message: string)
    requires forall k :: 0 <= k < |message| ==> message[k] as int < 0x80
    requires 0 < |message| < UsbCdc.JsonBufferSize && message[0] == '{'
    requires '\n' !in message && '\r' !in message
    ensures UsbCdc.Feed([], Ascii(message + ['\n'])) == UsbCdc.Feeding([], [Ascii(message)])
  {
    var line := Ascii(message);
    forall k | 0 <= k < |line|
      ensures !UsbCdc.IsTerminator(line[k])
    {
      assert message[k] != '\n' && message[k] != '\r';
    }
    assert Ascii(message + ['\n']) == line + [UsbCdc.LineFeed];
    UsbCdc.ReceiveLine(line);
  }
}
