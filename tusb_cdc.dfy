/**
 * main/tusb_cdc.c: the TinyUSB CDC data channel. The receive callback copies
 * what it read into a fixed-size app_message_t and queues it without
 * waiting; the receive task parses each non-empty message whole, as one
 * JSON text, and hands it to on_json_received. tusb_write formats a line
 * into a 64-byte stack buffer and queues it for the host.
 */
module TusbCdc {
  import opened Wrappers
  import opened CTypes
  import opened CJson
  import StrictData

  const AppQueueLength := 10
  const DataMsgSize := 64

  /** The result of tinyusb_cdcacm_read: the bytes read, or an error. */
  datatype ReadResult = ReadOk(bytes: seq<byte>) | ReadError

  /** app_message_t: the buffer of BUFSIZE + 1 bytes, the count received and the interface index. */
  datatype AppMessage = AppMessage(buf: seq<byte>, bufLen: nat, itf: uint8)

  /** C's conversion of an int to uint8_t: the value modulo 256. */
  function ToUint8(x: int): (r: uint8)
    ensures 0 <= x < 0x100 ==> r == x
  {
    x % 0x100
  }

  /**
   * The message the receive callback builds from `bytes`: the designated
   * initializer zero-fills the buffer, and memcpy puts the bytes in front.
   */
  function MessageOf(bufSize: nat, bytes: seq<byte>, itf: int): AppMessage
    requires |bytes| <= bufSize + 1
  {
    AppMessage(bytes + seq(bufSize + 1 - |bytes|, _ => 0), |bytes|, ToUint8(itf))
  }

  /** The number of bytes the receive callback asks tinyusb_cdcacm_read for, as written: four buffers' worth. */
  function RxRequestAsWritten(bufSize: nat): nat {
    bufSize * 4
  }

  /**
   * As written, a read may return more bytes than rx_buf holds: the request
   * of four buffers' worth exceeds the BUFSIZE + 1 array, and even a read that
   * fills the array exactly leaves the message with no NUL anywhere in its
   * buffer, so cJSON_Parse reads past the end of it.
   */
  lemma RxRequestAsWrittenOverflows(bufSize: nat, bytes: seq<byte>, itf: int)
    requires bufSize >= 1
    requires |bytes| == bufSize + 1 && 0 !in bytes
    ensures RxRequestAsWritten(bufSize) > bufSize + 1
    ensures |bytes| <= RxRequestAsWritten(bufSize)
    ensures 0 !in MessageOf(bufSize, bytes, itf).buf
  {
    assert MessageOf(bufSize, bytes, itf).buf == bytes + [];
  }

  /**
   * The request the buffer is sized for: BUFSIZE bytes, leaving the last byte
   * of rx_buf for the NUL that ends the text.
   */
  function RxRequest(bufSize: nat): (n: nat)
    ensures n + 1 <= bufSize + 1
  {
    bufSize
  }

  /**
   * A message read within the request is a C string of exactly the bytes read,
   * when they hold no NUL themselves: cJSON_Parse sees the whole read and nothing more.
   */
  lemma MessageText(bufSize: nat, bytes: seq<byte>, itf: int)
    requires |bytes| <= RxRequest(bufSize)
    requires 0 !in bytes
    ensures MessageOf(bufSize, bytes, itf).bufLen == |bytes|
    ensures CBytes(MessageOf(bufSize, bytes, itf).buf) == bytes
  {
    var zeros := seq(bufSize + 1 - |bytes|, _ => 0);
    assert zeros == [0] + zeros[1..];
    assert bytes + zeros == bytes + [0] + zeros[1..];
    TakeUntilTerminated(bytes, 0, zeros[1..]);
    TakeUntilNoTerminator(bytes, 0);
  }

  /** The receive side: the static rx_buf and app_queue, and the lines written back to the host. */
  class TusbCdc {
    const bufSize: nat
    const rxBuf: array<byte>
    var appQueue: seq<AppMessage>
    var written: seq<char>

    ghost predicate Valid()
      reads this
    {
      rxBuf.Length == bufSize + 1 && |appQueue| <= AppQueueLength &&
      forall k :: 0 <= k < |appQueue| ==> |appQueue[k].buf| == bufSize + 1 && appQueue[k].bufLen <= RxRequest(bufSize)
    }

    /** tusb_cdc_init: the buffer for CONFIG_TINYUSB_CDC_RX_BUFSIZE = `bufSize`, and an empty queue. */
    constructor (bufSize: nat)
      ensures Valid() && this.bufSize == bufSize && appQueue == [] && written == []
    {
      this.bufSize := bufSize;
      rxBuf := new byte[bufSize + 1](_ => 0);
      appQueue := [];
      written := [];
    }

    /**
     * tusb_cdc_rx_callback with the read request bounded by the buffer. A
     * successful read is copied into a message that is queued without waiting:
     * a full queue drops it. A failed read queues nothing.
     */
    method RxCallback(itf: int, read: ReadResult)
      requires Valid()
      requires read.ReadOk? ==> |read.bytes| <= RxRequest(bufSize)
      modifies this, rxBuf
      ensures Valid() && written == old(written)
      ensures appQueue ==
        if read.ReadOk? && |old(appQueue)| < AppQueueLength then old(appQueue) + [MessageOf(bufSize, read.bytes, itf)]
        else old(appQueue)
    {
      if read.ReadError? {
        return;
      }
      var rxSize := |read.bytes|;
      forall k | 0 <= k < rxSize {
        rxBuf[k] := read.bytes[k];
      }
      var buf := new byte[bufSize + 1](_ => 0);
      forall k | 0 <= k < rxSize {
        buf[k] := rxBuf[k];
      }
      assert buf[..] == MessageOf(bufSize, read.bytes, itf).buf;
      var txMsg := AppMessage(buf[..], rxSize, ToUint8(itf));
      if |appQueue| < AppQueueLength {
        appQueue := appQueue + [txMsg];
      }
    }

    /**
     * One pass of tusb_cdc_rx_task for the message at the head of the queue:
     * an empty message is skipped, one cJSON cannot parse is dropped, and any
     * other goes to on_json_received whole. Nothing is put together across messages.
     */
    method RxTaskStep(parse: Parser, anemometerData: StrictData.AnemometerRecord,
                      particulateMatterData: StrictData.ParticulateMatterRecord)
      returns (shown: Option<StrictData.DisplayUpdate>)
      requires Valid() && |appQueue| > 0
      requires particulateMatterData.Valid()
      modifies this, anemometerData, particulateMatterData, particulateMatterData.massDensityUnit,
               particulateMatterData.particleCountUnit, particulateMatterData.particleSizeUnit
      ensures Valid() && particulateMatterData.Valid() && written == old(written)
      ensures appQueue == old(appQueue[1..])
      ensures match if old(appQueue[0].bufLen) == 0 then None else parse(CBytes(old(appQueue[0].buf)))
        case None =>
          && shown.None?
          && anemometerData.Value() == old(anemometerData.Value())
          && particulateMatterData.Value() == old(particulateMatterData.Value())
        case Some(json) =>
          && shown == Some(StrictData.Shown(json))
          && anemometerData.Value() == StrictData.AnemometerAfter(old(anemometerData.Value()), json)
          && particulateMatterData.Value() == StrictData.ParticulateMatterAfter(old(particulateMatterData.Value()), json)
    {
      var msg := appQueue[0];
      appQueue := appQueue[1..];
      if msg.bufLen == 0 {
        return None;
      }
      var json := parse(CBytes(msg.buf));
      if json.None? {
        return None;
      }
      var update := StrictData.OnJsonReceived(json.value, anemometerData, particulateMatterData);
      return Some(update);
    }

    /**
     * tusb_write with the length bounded by what snprintf stored: nothing when
     * the host is not connected, otherwise the message and a newline, cut to
     * the 63 characters the buffer holds.
     */
    method TusbWrite(msg: string, connected: bool)
      modifies this
      ensures appQueue == old(appQueue)
      ensures written == old(written) + if connected then Line(msg) else []
    {
      if connected {
        var dataMsg := new char[DataMsgSize](_ => '\0');
        var len := Snprintf(dataMsg, msg);
        var n := if len < DataMsgSize then len else DataMsgSize - 1;
        written := written + dataMsg[..n];
      }
    }
  }

  /** What snprintf(buf, size, "%s\n", msg) formats in full. */
  function Formatted(msg: string): (f: string)
    ensures |f| == |CChars(msg)| + 1 && '\0' !in f
  {
    CChars(msg) + ['\n']
  }

  /** The line tusb_write sends for `msg`, once its length is bounded: the formatted text, cut to 63 characters. */
  function Line(msg: string): string {
    var f := Formatted(msg);
    if |f| < DataMsgSize then f else f[..DataMsgSize - 1]
  }

  /**
   * snprintf(dst, dst.Length, "%s\n", msg): stores as much of the formatted
   * text as fits before a NUL, and returns the length of the whole text.
   */
  method Snprintf(dst: array<char>, msg: string) returns (len: nat)
    requires dst.Length > 0
    modifies dst
    ensures len == |Formatted(msg)|
    ensures dst[..if len < dst.Length then len else dst.Length - 1] ==
      Formatted(msg)[..if len < dst.Length then len else dst.Length - 1]
    ensures CChars(dst[..]) == Formatted(msg)[..if len < dst.Length then len else dst.Length - 1]
  {
    var f := Formatted(msg);
    var n := if |f| < dst.Length then |f| else dst.Length - 1;
    for i := 0 to n
      invariant dst[..i] == f[..i]
    {
      dst[i] := f[i];
    }
    dst[n] := '\0';
    assert dst[..] == f[..n] + ['\0'] + dst[n + 1..];
    TakeUntilTerminated(f[..n], '\0', dst[n + 1..]);
    TakeUntilNoTerminator(f[..n], '\0');
    return |f|;
  }

  /** The length tusb_write passes to tinyusb_cdcacm_write_queue as written: snprintf's return value. */
  function WriteLengthAsWritten(msg: string): nat {
    |Formatted(msg)|
  }

  /**
   * As written, a message of 64 characters or more makes tusb_write queue more
   * bytes than the 64-byte buffer holds, reading past it on the stack.
   */
  lemma WriteLengthAsWrittenOverreads()
    ensures exists msg :: WriteLengthAsWritten(msg) > DataMsgSize
  {
    var msg := seq(DataMsgSize, _ => 'a');
    TakeUntilNoTerminator(msg, '\0');
    assert WriteLengthAsWritten(msg) == DataMsgSize + 1;
  }

  /**
   * With the length bounded, a message of up to 62 characters reaches the host
   * whole with its newline, and a longer one is cut to 63 characters.
   */
  lemma LineContents(msg: string)
    ensures |CChars(msg)| < DataMsgSize - 1 ==> Line(msg) == CChars(msg) + ['\n']
    ensures |CChars(msg)| >= DataMsgSize - 1 ==> Line(msg) == CChars(msg)[..DataMsgSize - 1]
    ensures |Line(msg)| < DataMsgSize
  {
    if |CChars(msg)| >= DataMsgSize - 1 {
      assert Formatted(msg)[..DataMsgSize - 1] == CChars(msg)[..DataMsgSize - 1];
    }
  }
}
