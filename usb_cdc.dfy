/**
 * The receive side of main/usb_cdc.c: usb_cdc_read_task cuts the byte stream
 * coming off the USB serial link into newline-terminated lines, held in the
 * static json_buffer, and hands every line that starts with '{' to
 * process_json_command, which parses it and passes it on to on_json_received.
 */
module UsbCdc {
  import opened Wrappers
  import opened CTypes
  import opened CJson
  import StrictData

  const JsonBufferSize := 2048
  const RxBufferSize := 2048

  const LineFeed: byte := 0x0A
  const CarriageReturn: byte := 0x0D
  const OpenBrace: byte := 0x7B

  predicate IsTerminator(b: byte) { b == LineFeed || b == CarriageReturn }

  /**
   * The framing state after some input, and the lines handed to
   * process_json_command on the way, in order.
   */
  datatype Feeding = Feeding(held: seq<byte>, frames: seq<seq<byte>>)

  /**
   * One byte through the loop body. A terminator ends a non-empty line,
   * which is passed on only when it starts with '{', and is ignored on an
   * empty one; any other byte is appended while there is room for it and the
   * NUL, and otherwise the held line is dropped along with the byte.
   */
  function FeedByte(held: seq<byte>, b: byte): Feeding {
    if IsTerminator(b) then
      if |held| > 0 then Feeding([], if held[0] == OpenBrace then [held] else [])
      else Feeding(held, [])
    else if |held| < JsonBufferSize - 1 then Feeding(held + [b], [])
    else Feeding([], [])
  }

  /** The loop over `input`, byte by byte, starting from the held line `held`. */
  function Feed(held: seq<byte>, input: seq<byte>): Feeding
    decreases |input|
  {
    if input == [] then Feeding(held, [])
    else
      var before := Feed(held, input[..|input| - 1]);
      var last := FeedByte(before.held, input[|input| - 1]);
      Feeding(last.held, before.frames + last.frames)
  }

  /** A line the framer can hold: short enough to leave room for the NUL, and free of terminators. */
  predicate HeldLine(held: seq<byte>) {
    |held| <= JsonBufferSize - 1 && forall k :: 0 <= k < |held| ==> !IsTerminator(held[k])
  }

  /** A line that reaches process_json_command: a held line that is not empty and starts with '{'. */
  predicate Frame(f: seq<byte>) {
    HeldLine(f) && |f| > 0 && f[0] == OpenBrace
  }

  /**
   * The framer never holds more than 2047 bytes, so the NUL write stays in the
   * buffer, and every line it passes on starts with '{' and holds no terminator.
   */
  lemma {:induction false} FeedKeepsHeldLine(held: seq<byte>, input: seq<byte>)
    requires HeldLine(held)
    ensures HeldLine(Feed(held, input).held)
    ensures forall k :: 0 <= k < |Feed(held, input).frames| ==> Frame(Feed(held, input).frames[k])
    decreases |input|
  {
    if input != [] {
      FeedKeepsHeldLine(held, input[..|input| - 1]);
    }
  }

  /**
   * Framing state persists across reads: the lines found in `a + b` are those
   * found in `a` followed by those found in `b` from where `a` left off, so
   * where the reads split the stream does not matter.
   */
  lemma {:induction false} FeedAppend(held: seq<byte>, a: seq<byte>, b: seq<byte>)
    ensures Feed(held, a + b) ==
      Feeding(Feed(Feed(held, a).held, b).held, Feed(held, a).frames + Feed(Feed(held, a).held, b).frames)
    decreases |b|
  {
    if b == [] {
      assert a + b == a;
    } else {
      var b' := b[..|b| - 1];
      assert (a + b)[..|a + b| - 1] == a + b';
      assert (a + b)[|a + b| - 1] == b[|b| - 1];
      FeedAppend(held, a, b');
    }
  }

  /** Bytes without terminators that fit are appended to the held line, and nothing is passed on. */
  lemma {:induction false} FeedAppendsLine(held: seq<byte>, line: seq<byte>)
    requires |held| + |line| <= JsonBufferSize - 1
    requires forall k :: 0 <= k < |line| ==> !IsTerminator(line[k])
    ensures Feed(held, line) == Feeding(held + line, [])
    decreases |line|
  {
    if line != [] {
      var prefix := line[..|line| - 1];
      FeedAppendsLine(held, prefix);
      assert held + prefix + [line[|line| - 1]] == held + line;
    }
  }

  /**
   * A line of up to 2047 bytes that starts with '{' and ends in a newline
   * reaches process_json_command whole, and the framer is left empty.
   */
  lemma ReceiveLine(line: seq<byte>)
    requires Frame(line)
    ensures Feed([], line + [LineFeed]) == Feeding([], [line])
  {
    FeedAppendsLine([], line);
    assert [] + line == line;
    var input := line + [LineFeed];
    assert input[..|input| - 1] == line && input[|input| - 1] == LineFeed;
  }

  /** A terminator on an empty line changes nothing and passes nothing on. */
  lemma EmptyLineSkipped(b: byte)
    requires IsTerminator(b)
    ensures Feed([], [b]) == Feeding([], [])
  {
    assert [b][..0] == [];
  }

  /**
   * A line that runs past 2047 bytes is dropped when the 2048th byte arrives,
   * and that byte with it; the bytes after it start a fresh line.
   */
  lemma OversizedLineRestarts(prefix: seq<byte>, b: byte, rest: seq<byte>)
    requires |prefix| == JsonBufferSize - 1
    requires forall k :: 0 <= k < |prefix| ==> !IsTerminator(prefix[k])
    requires !IsTerminator(b)
    ensures Feed([], prefix + [b] + rest) == Feed([], rest)
  {
    FeedAppendsLine([], prefix);
    FeedAppend([], prefix + [b], rest);
    assert (prefix + [b])[..|prefix|] == prefix;
  }

  /** The static json_buffer and json_index, the framing state kept between reads. */
  class Framer {
    const jsonBuffer: array<byte>
    var jsonIndex: nat

    ghost predicate Valid()
      reads this
    {
      jsonBuffer.Length == JsonBufferSize && jsonIndex < JsonBufferSize
    }

    /** The line held so far. */
    function Held(): seq<byte>
      reads this, jsonBuffer
      requires Valid()
    {
      jsonBuffer[..jsonIndex]
    }

    /** Static storage: an empty line. */
    constructor ()
      ensures Valid() && Held() == []
    {
      jsonBuffer := new byte[JsonBufferSize](_ => 0);
      jsonIndex := 0;
    }

    /**
     * The `for` loop of usb_cdc_read_task over the `len` bytes one read
     * returned, in order. Each line it hands to process_json_command is
     * collected in `frames`; the buffer is NUL-terminated right after it.
     */
    method ReadChunk(rxBuffer: array<byte>, len: int) returns (frames: seq<seq<byte>>)
      requires Valid()
      requires len <= rxBuffer.Length
      requires rxBuffer != jsonBuffer
      modifies this, jsonBuffer
      ensures Valid()
      ensures Feeding(Held(), frames) == Feed(old(Held()), rxBuffer[..if len > 0 then len else 0])
    {
      ghost var start := Held();
      frames := [];
      if len > 0 {
        for i := 0 to len
          invariant Valid()
          invariant Feeding(Held(), frames) == Feed(start, rxBuffer[..i])
        {
          var c := rxBuffer[i];
          ghost var before := Held();
          if c == LineFeed || c == CarriageReturn {
            if jsonIndex > 0 {
              jsonBuffer[jsonIndex] := 0;
              if jsonBuffer[0] == OpenBrace {
                frames := frames + [jsonBuffer[..jsonIndex]];
              }
              jsonIndex := 0;
            }
          } else if jsonIndex < JsonBufferSize - 1 {
            jsonBuffer[jsonIndex] := c;
            jsonIndex := jsonIndex + 1;
            assert Held() == before + [c];
          } else {
            jsonIndex := 0;
          }
          assert rxBuffer[..i + 1][..i] == rxBuffer[..i];
        }
      }
    }
  }

  /**
   * process_json_command: the line, as the C string cJSON_Parse reads, is
   * parsed by `parse`; a line that does not parse is dropped and nothing is
   * shown, otherwise it goes to on_json_received.
   */
  method ProcessJsonCommand(jsonStr: seq<byte>, parse: Parser,
                            anemometerData: StrictData.AnemometerRecord,
                            particulateMatterData: StrictData.ParticulateMatterRecord)
    returns (shown: Option<StrictData.DisplayUpdate>)
    requires particulateMatterData.Valid()
    modifies anemometerData, particulateMatterData, particulateMatterData.massDensityUnit,
             particulateMatterData.particleCountUnit, particulateMatterData.particleSizeUnit
    ensures particulateMatterData.Valid()
    ensures match parse(CBytes(jsonStr))
      case None =>
        && shown.None?
        && anemometerData.Value() == old(anemometerData.Value())
        && particulateMatterData.Value() == old(particulateMatterData.Value())
      case Some(json) =>
        && shown == Some(StrictData.Shown(json))
        && anemometerData.Value() == StrictData.AnemometerAfter(old(anemometerData.Value()), json)
        && particulateMatterData.Value() == StrictData.ParticulateMatterAfter(old(particulateMatterData.Value()), json)
  {
    var json := parse(CBytes(jsonStr));
    if json.None? {
      return None;
    }
    var update := StrictData.OnJsonReceived(json.value, anemometerData, particulateMatterData);
    return Some(update);
  }
}
