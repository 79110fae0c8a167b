/**
 * main/uart_utils.c: the UART link to the host. On receive, a pattern event
 * marks where a '\n' arrived; the task reads up to and including it, turns
 * the terminator into a NUL and parses the line. On transmit, usb_json_send
 * serializes a tree into a freshly allocated string and queues it on a
 * 10-slot queue; the transmit task writes each queued string followed by a
 * newline and frees it.
 */
module UartUtils {
  import opened Wrappers
  import opened CTypes
  import opened CJson

  const UsbUartBufSize := 2048
  const TxQueueLength := 10
  const LineFeed: byte := 0x0A

  // ---------------------------------------------------------------------------
  // Receive
  // ---------------------------------------------------------------------------

  /** What uart_pattern_pop_pos returns: the offset of the pattern, or -1 when none is recorded. */
  type PatternPos = x: int | -1 <= x

  /** The events the driver posts on uart_rx_queue, as far as the task tells them apart. */
  datatype UartEvent =
    | PatternDetected(pos: PatternPos)   // UART_PATTERN_DET, with the position popped for it
    | FifoOverflow                       // UART_FIFO_OVF
    | BufferFull                         // UART_BUFFER_FULL
    | OtherEvent

  /** How many bytes uart_read_bytes hands back for a pattern at `pos`: pos + 1, or what the driver holds. */
  function ReadLength(pos: nat, ring: seq<byte>): nat {
    if pos + 1 <= |ring| then pos + 1 else |ring|
  }

  /**
   * The line the receive task hands to cJSON_Parse for a pattern at `pos`,
   * when the driver holds `ring`: the bytes read, with the last one (the
   * terminator) replaced by a NUL, as a C string. None when the position is
   * -1 or out of the buffer, or nothing was read.
   */
  function RxLine(pos: PatternPos, ring: seq<byte>): (r: Option<seq<byte>>)
    ensures r.Some? ==> 0 <= pos < UsbUartBufSize && |r.value| <= pos && |r.value| < |ring|
    ensures r.Some? ==> r.value == ring[..|r.value|] && 0 !in r.value
  {
    if pos == -1 || pos >= UsbUartBufSize then None
    else
      var len := ReadLength(pos, ring);
      if len == 0 then None else Some(CBytes(ring[..len - 1]))
  }

  /**
   * A line the host sends with its newline is read back whole: when the
   * pattern sits right after `line` and the line holds no NUL, the receive
   * task parses exactly `line`.
   */
  lemma RxLineRoundTrip(line: seq<byte>, rest: seq<byte>)
    requires |line| < UsbUartBufSize
    requires 0 !in line
    ensures RxLine(|line|, line + [LineFeed] + rest) == Some(line)
  {
    var ring := line + [LineFeed] + rest;
    assert ring[..|line|] == line;
    TakeUntilNoTerminator(line, 0);
  }

  /**
   * The tree passed to the registered callback for a pattern at `pos`: none
   * for an empty line, a line cJSON cannot parse, or when no callback is registered.
   */
  function RxDelivered(pos: PatternPos, ring: seq<byte>, parse: Parser, registered: bool): Option<Json> {
    match RxLine(pos, ring)
    case None => None
    case Some(line) =>
      if |line| == 0 || !registered then None else parse(line)
  }

  /** The receive task's state: its read buffer and what the driver holds for it. */
  class UartRx {
    const data: array<byte>
    var ring: seq<byte>
    var events: seq<UartEvent>
    var callbackRegistered: bool

    ghost predicate Valid()
      reads this
    {
      data.Length == UsbUartBufSize
    }

    constructor ()
      ensures Valid() && ring == [] && events == [] && !callbackRegistered
    {
      data := new byte[UsbUartBufSize](_ => 0);
      ring := [];
      events := [];
      callbackRegistered := false;
    }

    /** usb_json_register_rx_callback. */
    method RegisterRxCallback()
      modifies this
      ensures callbackRegistered && ring == old(ring) && events == old(events)
    {
      callbackRegistered := true;
    }

    /**
     * One pass of uart_rx_event_task's loop for the event at the head of the
     * queue. A pattern event reads the line and hands its tree to the
     * callback at most once; an overflow or a full ring buffer flushes the
     * input and empties the event queue.
     */
    method RxEventStep(parse: Parser) returns (delivered: Option<Json>)
      requires Valid() && |events| > 0
      modifies this, data
      ensures Valid() && callbackRegistered == old(callbackRegistered)
      ensures match old(events[0])
        case PatternDetected(pos) =>
          && delivered == RxDelivered(pos, old(ring), parse, callbackRegistered)
          && events == old(events[1..])
          && ring == if pos == -1 || pos >= UsbUartBufSize then old(ring) else old(ring)[ReadLength(pos, old(ring))..]
        case FifoOverflow => delivered.None? && ring == [] && events == []
        case BufferFull => delivered.None? && ring == [] && events == []
        case OtherEvent => delivered.None? && ring == old(ring) && events == old(events[1..])
    {
      var event := events[0];
      events := events[1..];
      delivered := None;
      match event
      case PatternDetected(pos) =>
        if pos != -1 && pos < UsbUartBufSize {
          ghost var held := ring;
          var len := ReadLength(pos, ring);
          forall k | 0 <= k < len {
            data[k] := ring[k];
          }
          ring := ring[len..];
          if len > 0 {
            data[len - 1] := 0;
            assert data[..] == held[..len - 1] + [0] + data[len..];
            TakeUntilTerminated(held[..len - 1], 0, data[len..]);
            var line := CBytes(data[..]);
            if |line| == 0 {
              return None;
            }
            var json := parse(line);
            if json.None? {
              return None;
            }
            if callbackRegistered {
              delivered := json;
            }
          }
        }
      case FifoOverflow =>
        ring := [];
        events := [];
      case BufferFull =>
        ring := [];
        events := [];
      case OtherEvent =>
    }
  }

  // ---------------------------------------------------------------------------
  // Transmit
  // ---------------------------------------------------------------------------

  /** The address of a string on the heap. */
  type Address = nat

  /** uart_tx_item_t: the string (None for NULL) and its length. */
  datatype TxItem = TxItem(jsonStr: Option<Address>, length: nat)

  /**
   * The bookkeeping of malloc and free for the serialized strings: every
   * string handed out with its bytes, those not yet freed, and every free in order.
   */
  datatype Allocations = Allocations(next: Address, contents: map<Address, seq<byte>>, live: set<Address>, freed: seq<Address>)

  /** The transmit side: the queue, the heap bookkeeping and the bytes written to the UART. */
  datatype TxState = TxState(queue: seq<TxItem>, heap: Allocations, output: seq<byte>)

  /** The esp_err_t codes usb_json_send returns. */
  datatype EspErr = EspOk | EspErrInvalidArg | EspErrNoMem | EspErrTimeout

  /** cJSON_PrintUnformatted: the serialized bytes, or None when it cannot allocate. */
  type Printer = Json -> Option<seq<byte>>

  /** malloc: a fresh address holding `bytes`. */
  function Allocate(h: Allocations, bytes: seq<byte>): Allocations {
    h.(next := h.next + 1, contents := h.contents[h.next := bytes], live := h.live + {h.next})
  }

  /** free. */
  function Release(h: Allocations, p: Address): Allocations {
    h.(live := h.live - {p}, freed := h.freed + [p])
  }

  /** A queued item owns its string: it is live and its length is the string's strlen. */
  predicate OwnsString(h: Allocations, item: TxItem) {
    item.jsonStr.Some? ==>
      item.jsonStr.value in h.live && item.jsonStr.value in h.contents &&
      item.length == |CBytes(h.contents[item.jsonStr.value])|
  }

  /**
   * The ownership invariant: at most ten items queued, each owning a live
   * string no other item shares; every address handed out is below `next`;
   * nothing freed is live, and nothing was freed twice.
   */
  predicate Owned(s: TxState) {
    && |s.queue| <= TxQueueLength
    && (forall p :: p in s.heap.contents ==> p < s.heap.next)
    && s.heap.live <= s.heap.contents.Keys
    && (forall k :: 0 <= k < |s.heap.freed| ==> s.heap.freed[k] in s.heap.contents && s.heap.freed[k] !in s.heap.live)
    && (forall j, k :: 0 <= j < k < |s.heap.freed| ==> s.heap.freed[j] != s.heap.freed[k])
    && (forall k :: 0 <= k < |s.queue| ==> OwnsString(s.heap, s.queue[k]))
    && (forall j, k :: 0 <= j < k < |s.queue| && s.queue[j].jsonStr.Some? ==> s.queue[j].jsonStr != s.queue[k].jsonStr)
  }

  datatype SendOutcome = SendOutcome(state: TxState, err: EspErr)

  /**
   * usb_json_send with `printed` the result of serializing `json`: a NULL
   * tree is refused, a failed serialization reports no memory, and the new
   * string is queued when there is room and freed at once when there is not.
   */
  function Send(s: TxState, json: Option<Json>, printed: Option<seq<byte>>): (r: SendOutcome)
    requires Owned(s)
    ensures r.err == EspOk <==> json.Some? && printed.Some? && |s.queue| < TxQueueLength
    ensures r.err == EspOk ==>
      && r.state.queue == s.queue + [TxItem(Some(s.heap.next), |CBytes(printed.value)|)]
      && s.heap.next in r.state.heap.contents && r.state.heap.contents[s.heap.next] == printed.value
      && r.state.heap.live == s.heap.live + {s.heap.next}
    ensures r.err != EspOk ==> r.state.queue == s.queue && r.state.heap.live == s.heap.live
    ensures r.err == EspErrInvalidArg <==> json.None?
    ensures r.err == EspErrNoMem <==> json.Some? && printed.None?
    ensures r.err == EspErrTimeout <==> json.Some? && printed.Some? && |s.queue| >= TxQueueLength
    ensures r.err == EspErrInvalidArg || r.err == EspErrNoMem ==> r.state == s
    ensures r.err == EspErrTimeout ==>
      && r.state.heap.freed == s.heap.freed + [s.heap.next]
      && s.heap.next in r.state.heap.contents && r.state.heap.contents[s.heap.next] == printed.value
    ensures r.err != EspErrTimeout ==> r.state.heap.freed == s.heap.freed
    ensures r.state.output == s.output
  {
    if json.None? then SendOutcome(s, EspErrInvalidArg)
    else if printed.None? then SendOutcome(s, EspErrNoMem)
    else
      var p := s.heap.next;
      var heap := Allocate(s.heap, printed.value);
      if |s.queue| >= TxQueueLength then SendOutcome(s.(heap := Release(heap, p)), EspErrTimeout)
      else SendOutcome(s.(queue := s.queue + [TxItem(Some(p), |CBytes(printed.value)|)], heap := heap), EspOk)
  }

  /**
   * One pass of uart_tx_event_task for the item at the head of the queue. An
   * item with a string and a positive length is written with a newline when
   * the mutex is obtained, and its string is freed either way; any other item
   * is dropped as it is.
   */
  function Transmit(s: TxState, mutexTaken: bool): TxState
    requires Owned(s) && |s.queue| > 0
  {
    var item := s.queue[0];
    var rest := s.(queue := s.queue[1..]);
    if item.jsonStr.Some? && item.length > 0 then
      var p := item.jsonStr.value;
      rest.(output := if mutexTaken then s.output + s.heap.contents[p][..item.length] + [LineFeed] else s.output,
            heap := Release(s.heap, p))
    else rest
  }

  /** usb_json_flush_tx_queue: every item dequeued in order and every non-NULL string freed. */
  function Flush(s: TxState): TxState
    decreases |s.queue|
  {
    if s.queue == [] then s
    else
      var item := s.queue[0];
      Flush(s.(queue := s.queue[1..], heap := if item.jsonStr.Some? then Release(s.heap, item.jsonStr.value) else s.heap))
  }

  /** The strings the items of `queue` point to. */
  function Addresses(queue: seq<TxItem>): set<Address> {
    set k | 0 <= k < |queue| && queue[k].jsonStr.Some? :: queue[k].jsonStr.value
  }

  /** usb_json_send keeps the ownership invariant. */
  lemma SendOwned(s: TxState, json: Option<Json>, printed: Option<seq<byte>>)
    requires Owned(s)
    ensures Owned(Send(s, json, printed).state)
  {
    if json.Some? && printed.Some? {
      var p := s.heap.next;
      var r := Send(s, json, printed).state;
      assert p !in s.heap.contents;
      forall k | 0 <= k < |s.queue|
        ensures OwnsString(r.heap, s.queue[k])
      {
        assert OwnsString(s.heap, s.queue[k]);
      }
      if |s.queue| < TxQueueLength {
        assert r.queue == s.queue + [TxItem(Some(p), |CBytes(printed.value)|)];
        forall j, k | 0 <= j < k < |r.queue| && r.queue[j].jsonStr.Some?
          ensures r.queue[j].jsonStr != r.queue[k].jsonStr
        {
          if k == |s.queue| {
            assert OwnsString(s.heap, s.queue[j]);
          }
        }
      }
    }
  }

  /**
   * The transmit task keeps the ownership invariant: the string it frees was
   * live, so it is freed exactly once.
   */
  lemma TransmitOwned(s: TxState, mutexTaken: bool)
    requires Owned(s) && |s.queue| > 0
    ensures Owned(Transmit(s, mutexTaken))
  {
    var item := s.queue[0];
    var r := Transmit(s, mutexTaken);
    assert OwnsString(s.heap, item);
    forall k | 0 <= k < |r.queue|
      ensures OwnsString(r.heap, r.queue[k])
    {
      assert r.queue[k] == s.queue[k + 1];
      assert OwnsString(s.heap, s.queue[k + 1]);
    }
  }

  /**
   * An item with a string and a positive length gives its string back
   * exactly once: it was live, it is not any more, and it is the one new
   * entry among the frees. When the mutex is obtained the UART receives the
   * whole string and then a newline.
   */
  lemma TransmitFrees(s: TxState, mutexTaken: bool)
    requires Owned(s) && |s.queue| > 0
    requires s.queue[0].jsonStr.Some? && s.queue[0].length > 0
    ensures s.queue[0].jsonStr.value in s.heap.live
    ensures s.queue[0].jsonStr.value !in Transmit(s, mutexTaken).heap.live
    ensures Transmit(s, mutexTaken).heap.freed == s.heap.freed + [s.queue[0].jsonStr.value]
    ensures Transmit(s, mutexTaken).output ==
      if mutexTaken then s.output + CBytes(s.heap.contents[s.queue[0].jsonStr.value]) + [LineFeed] else s.output
  {
    assert OwnsString(s.heap, s.queue[0]);
  }

  /**
   * An item with a string of length zero is dequeued without freeing it: the
   * string stays live although no item points to it any more, a leak.
   */
  lemma ZeroLengthLeaks(s: TxState, mutexTaken: bool)
    requires Owned(s) && |s.queue| > 0
    requires s.queue[0].jsonStr.Some? && s.queue[0].length == 0
    ensures s.queue[0].jsonStr.value in Transmit(s, mutexTaken).heap.live
    ensures s.queue[0].jsonStr.value !in Addresses(Transmit(s, mutexTaken).queue)
  {
    assert OwnsString(s.heap, s.queue[0]);
    var r := Transmit(s, mutexTaken);
    forall k | 0 <= k < |r.queue| && r.queue[k].jsonStr.Some?
      ensures r.queue[k].jsonStr.value != s.queue[0].jsonStr.value
    {
      assert r.queue[k] == s.queue[k + 1];
    }
  }

  /**
   * Flushing empties the queue, frees exactly the strings it held, writes
   * nothing, and keeps the ownership invariant.
   */
  lemma {:induction false} FlushOwned(s: TxState)
    requires Owned(s)
    ensures Flush(s).queue == []
    ensures Flush(s).heap.live == s.heap.live - Addresses(s.queue)
    ensures Flush(s).output == s.output
    ensures Owned(Flush(s))
    decreases |s.queue|
  {
    if s.queue != [] {
      var item := s.queue[0];
      var next := s.(queue := s.queue[1..], heap := if item.jsonStr.Some? then Release(s.heap, item.jsonStr.value) else s.heap);
      assert OwnsString(s.heap, item);
      forall k | 0 <= k < |next.queue|
        ensures OwnsString(next.heap, next.queue[k])
      {
        assert next.queue[k] == s.queue[k + 1];
        assert OwnsString(s.heap, s.queue[k + 1]);
      }
      FlushOwned(next);
      assert Addresses(s.queue) == Addresses(next.queue) + (if item.jsonStr.Some? then {item.jsonStr.value} else {}) by {
        forall p | p in Addresses(s.queue)
          ensures p in Addresses(next.queue) || (item.jsonStr.Some? && p == item.jsonStr.value)
        {
          var k :| 0 <= k < |s.queue| && s.queue[k].jsonStr.Some? && s.queue[k].jsonStr.value == p;
          if k > 0 {
            assert next.queue[k - 1] == s.queue[k];
          }
        }
        forall p | p in Addresses(next.queue)
          ensures p in Addresses(s.queue)
        {
          var k :| 0 <= k < |next.queue| && next.queue[k].jsonStr.Some? && next.queue[k].jsonStr.value == p;
          assert s.queue[k + 1] == next.queue[k];
        }
      }
    }
  }

  /**
   * What is sent is what is written: a string queued on an empty queue is the
   * next thing the transmit task writes, whole and followed by a newline, as
   * long as it is not empty.
   */
  lemma SendThenTransmit(s: TxState, json: Json, printed: seq<byte>)
    requires Owned(s) && s.queue == []
    requires |CBytes(printed)| > 0
    ensures Owned(Send(s, Some(json), Some(printed)).state)
    ensures Transmit(Send(s, Some(json), Some(printed)).state, true).output == s.output + CBytes(printed) + [LineFeed]
    ensures Transmit(Send(s, Some(json), Some(printed)).state, true).heap.live == s.heap.live
  {
    SendOwned(s, Some(json), Some(printed));
    var sent := Send(s, Some(json), Some(printed)).state;
    assert sent.queue[0] == TxItem(Some(s.heap.next), |CBytes(printed)|);
    TransmitFrees(sent, true);
  }

  /** The transmit queue and its task, with the heap bookkeeping of the strings it owns. */
  class UartTx {
    var queue: seq<TxItem>
    var heap: Allocations
    var output: seq<byte>

    function State(): TxState
      reads this
    {
      TxState(queue, heap, output)
    }

    constructor ()
      ensures State() == TxState([], Allocations(0, map[], {}, []), [])
      ensures Owned(State())
    {
      queue := [];
      heap := Allocations(0, map[], {}, []);
      output := [];
    }

    /** usb_json_send. */
    method UsbJsonSend(json: Option<Json>, printUnformatted: Printer) returns (err: EspErr)
      requires Owned(State())
      modifies this
      ensures SendOutcome(State(), err) ==
        Send(old(State()), json, if json.Some? then printUnformatted(json.value) else None)
      ensures Owned(State())
    {
      SendOwned(State(), json, if json.Some? then printUnformatted(json.value) else None);
      if json.None? {
        return EspErrInvalidArg;
      }
      var jsonStr := printUnformatted(json.value);
      if jsonStr.None? {
        return EspErrNoMem;
      }
      var p := heap.next;
      heap := Allocate(heap, jsonStr.value);
      var len := |CBytes(jsonStr.value)|;
      if |queue| >= TxQueueLength {
        heap := Release(heap, p);
        return EspErrTimeout;
      }
      queue := queue + [TxItem(Some(p), len)];
      return EspOk;
    }

    /**
     * One pass of uart_tx_event_task: the item at the head of the queue, with
     * `mutexTaken` whether xSemaphoreTake succeeded within its timeout.
     */
    method TxEventStep(mutexTaken: bool)
      requires Owned(State()) && |queue| > 0
      modifies this
      ensures State() == Transmit(old(State()), mutexTaken)
      ensures Owned(State())
    {
      TransmitOwned(State(), mutexTaken);
      var item := queue[0];
      queue := queue[1..];
      if item.jsonStr.Some? && item.length > 0 {
        if mutexTaken {
          output := output + heap.contents[item.jsonStr.value][..item.length];
          output := output + [LineFeed];
        }
        heap := Release(heap, item.jsonStr.value);
      }
    }

    /** usb_json_get_tx_pending: the number of items waiting. */
    method UsbJsonGetTxPending() returns (n: nat)
      ensures n == |queue|
    {
      return |queue|;
    }

    /** usb_json_flush_tx_queue: receives with a zero timeout until the queue is empty. */
    method UsbJsonFlushTxQueue()
      requires Owned(State())
      modifies this
      ensures State() == Flush(old(State()))
      ensures queue == [] && Owned(State())
    {
      FlushOwned(State());
      while |queue| > 0
        invariant Flush(State()) == Flush(old(State()))
        decreases |queue|
      {
        var item := queue[0];
        queue := queue[1..];
        if item.jsonStr.Some? {
          heap := Release(heap, item.jsonStr.value);
        }
      }
    }
  }
}
