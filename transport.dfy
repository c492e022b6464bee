/**
 * The driver's side of the wire: GPIO and SPI calls recorded as events, the chunking of
 * `_spi_write`'s fallback path, and a bus observer that reads a sequence of events the way
 * the display controller does (bytes clocked in while chip-select is low, tagged by the
 * data/command line).
 */
module Transport {

  /** BCM pin numbers. */
  const RESET_PIN: int := 27
  const BUSY_PIN: int := 17
  const DC_PIN: int := 22
  const CS0_PIN: int := 8

  /** GPIO levels. */
  const LOW: int := 0
  const HIGH: int := 1

  /** The largest payload one `xfer` call carries. */
  const SPI_CHUNK_SIZE: nat := 4096
  /** Levels of the DC line: a command byte, or data bytes. */
  const SPI_COMMAND: int := 0
  const SPI_DATA: int := 1

  /** One observable side effect of the driver. */
  datatype Event =
    | Output(pin: int, level: int)   // GPIO.output(pin, level)
    | Sleep(ms: nat)                 // time.sleep(ms / 1000)
    | Xfer(bytes: seq<int>)          // spidev xfer(bytes)
    | BusyWait                       // one call of _busy_wait

  // ---------------------------------------------------------------------------
  // Chunking

  /** `((n - 1) // 4096) + 1`: Python's `//` by a positive divisor floors, as Dafny's `/` does. */
  function ChunkCount(n: nat): int
  {
    (n - 1) / SPI_CHUNK_SIZE + 1
  }

  /** Python's `v[lo:hi]` for non-negative bounds: both ends are clamped to the length. */
  function Slice<T>(v: seq<T>, lo: nat, hi: nat): (r: seq<T>)
    ensures lo <= |v| ==> |r| == (if hi <= |v| then hi else |v|) - (if lo <= hi then lo else hi)
    ensures |v| < lo ==> r == []
  {
    var end := if hi <= |v| then hi else |v|;
    var start := if lo <= end then lo else end;
    v[start..end]
  }

  /** A reference splitting: the first 4096 bytes, then the split of the rest. */
  function Chunks(v: seq<int>): seq<seq<int>>
    decreases |v|
  {
    if |v| == 0 then []
    else if |v| <= SPI_CHUNK_SIZE then [v]
    else [v[..SPI_CHUNK_SIZE]] + Chunks(v[SPI_CHUNK_SIZE..])
  }

  /** The chunks glued back together. */
  function Concat(cs: seq<seq<int>>): seq<int>
  {
    if |cs| == 0 then [] else cs[0] + Concat(cs[1..])
  }

  lemma {:induction false} ConcatAppend(a: seq<seq<int>>, b: seq<seq<int>>)
    ensures Concat(a + b) == Concat(a) + Concat(b)
  {
    if |a| == 0 {
      assert a + b == b;
    } else {
      assert (a + b)[0] == a[0] && (a + b)[1..] == a[1..] + b;
      ConcatAppend(a[1..], b);
    }
  }

  /** The chunks, in order, are the payload: nothing is lost, repeated or reordered. */
  lemma {:induction false} ChunksConcat(v: seq<int>)
    ensures Concat(Chunks(v)) == v
    decreases |v|
  {
    if |v| > SPI_CHUNK_SIZE {
      ChunksConcat(v[SPI_CHUNK_SIZE..]);
      assert v == v[..SPI_CHUNK_SIZE] + v[SPI_CHUNK_SIZE..];
    }
  }

  /** Every chunk is non-empty and carries at most 4096 bytes. */
  lemma {:induction false} ChunksBounded(v: seq<int>)
    ensures forall k :: 0 <= k < |Chunks(v)| ==> 1 <= |Chunks(v)[k]| <= SPI_CHUNK_SIZE
    decreases |v|
  {
    if |v| > SPI_CHUNK_SIZE {
      ChunksBounded(v[SPI_CHUNK_SIZE..]);
    }
  }

  /** There are `((len - 1) // 4096) + 1` chunks; none for an empty payload. */
  lemma {:induction false} ChunksCount(v: seq<int>)
    ensures |Chunks(v)| == ChunkCount(|v|)
    decreases |v|
  {
    if |v| > SPI_CHUNK_SIZE {
      ChunksCount(v[SPI_CHUNK_SIZE..]);
      assert (|v| - 1) / SPI_CHUNK_SIZE == (|v| - SPI_CHUNK_SIZE - 1) / SPI_CHUNK_SIZE + 1;
    }
  }

  /** Chunk `x` is the slice `values[x * 4096 : x * 4096 + 4096]` that the loop sends. */
  lemma {:induction false} ChunkAt(v: seq<int>, x: nat)
    requires x < ChunkCount(|v|)
    ensures x < |Chunks(v)|
    ensures Chunks(v)[x] == Slice(v, x * SPI_CHUNK_SIZE, x * SPI_CHUNK_SIZE + SPI_CHUNK_SIZE)
    decreases |v|
  {
    ChunksCount(v);
    if x > 0 {
      var rest := v[SPI_CHUNK_SIZE..];
      ChunksCount(rest);
      ChunkAt(rest, x - 1);
      var lo := (x - 1) * SPI_CHUNK_SIZE;
      assert Chunks(v)[x] == Chunks(rest)[x - 1];
      assert Slice(rest, lo, lo + SPI_CHUNK_SIZE)
          == Slice(v, x * SPI_CHUNK_SIZE, x * SPI_CHUNK_SIZE + SPI_CHUNK_SIZE);
    }
  }

  // ---------------------------------------------------------------------------
  // The events of one write

  /** One `xfer` per chunk, in order. */
  function Xfers(cs: seq<seq<int>>): (evs: seq<Event>)
    ensures |evs| == |cs|
    ensures forall k :: 0 <= k < |cs| ==> evs[k] == Xfer(cs[k])
  {
    if |cs| == 0 then [] else [Xfer(cs[0])] + Xfers(cs[1..])
  }

  /** One more transfer at the end. */
  lemma XfersSnoc(cs: seq<seq<int>>, x: nat)
    requires x < |cs|
    ensures Xfers(cs[..x + 1]) == Xfers(cs[..x]) + [Xfer(cs[x])]
  {
    var a, b := Xfers(cs[..x + 1]), Xfers(cs[..x]) + [Xfer(cs[x])];
    assert |a| == |b|;
    forall k | 0 <= k < |a|
      ensures a[k] == b[k]
    {
      assert cs[..x + 1][k] == cs[k];
      if k < x {
        assert cs[..x][k] == cs[k];
      }
    }
  }

  /** `_spi_write(dc, values)` on the chunked path: CS low, DC set, the chunks, CS high. */
  function WriteEvents(dc: int, v: seq<int>): seq<Event>
  {
    [Output(CS0_PIN, LOW), Output(DC_PIN, dc)] + Xfers(Chunks(v)) + [Output(CS0_PIN, HIGH)]
  }

  // ---------------------------------------------------------------------------
  // The bus as the controller sees it

  /** The levels of the chip-select and data/command lines. */
  datatype Lines = Lines(cs: int, dc: int)

  /** One byte clocked into the controller, with the DC level it was sent under. */
  datatype Sample = Sample(dc: int, byte: int)

  /** The bytes `v` as received under DC level `dc`. */
  function Tag(dc: int, v: seq<int>): seq<Sample>
  {
    seq(|v|, k requires 0 <= k < |v| => Sample(dc, v[k]))
  }

  /** The lines after one event: only outputs to CS0 and DC move them. */
  function Step(ev: Event, st: Lines): Lines
  {
    match ev
    case Output(pin, level) =>
      if pin == CS0_PIN then st.(cs := level)
      else if pin == DC_PIN then st.(dc := level)
      else st
    case _ => st
  }

  /** What one event delivers: an `xfer` reaches the controller only while CS is low. */
  function Received(ev: Event, st: Lines): seq<Sample>
  {
    if ev.Xfer? && st.cs == LOW then Tag(st.dc, ev.bytes) else []
  }

  /** The lines after a run of events. */
  function After(evs: seq<Event>, st: Lines): Lines
  {
    if |evs| == 0 then st else After(evs[1..], Step(evs[0], st))
  }

  /** Every byte the controller receives during a run of events, in order. */
  function Observe(evs: seq<Event>, st: Lines): seq<Sample>
  {
    if |evs| == 0 then [] else Received(evs[0], st) + Observe(evs[1..], Step(evs[0], st))
  }

  /** Observing two runs one after the other is observing their concatenation. */
  lemma {:induction false} ObserveAppend(a: seq<Event>, b: seq<Event>, st: Lines)
    ensures Observe(a + b, st) == Observe(a, st) + Observe(b, After(a, st))
    ensures After(a + b, st) == After(b, After(a, st))
  {
    if |a| == 0 {
      assert a + b == b;
    } else {
      var next := Step(a[0], st);
      assert (a + b)[0] == a[0] && (a + b)[1..] == a[1..] + b;
      assert Observe(a + b, st) == Received(a[0], st) + Observe(a[1..] + b, next);
      assert After(a + b, st) == After(a[1..] + b, next);
      ObserveAppend(a[1..], b, next);
    }
  }

  /** While CS is low, a run of `xfer`s delivers the concatenated chunks and moves no line. */
  lemma {:induction false} ObserveXfers(cs: seq<seq<int>>, st: Lines)
    requires st.cs == LOW
    ensures Observe(Xfers(cs), st) == Tag(st.dc, Concat(cs))
    ensures After(Xfers(cs), st) == st
  {
    if |cs| > 0 {
      var evs := Xfers(cs);
      assert evs[1..] == Xfers(cs[1..]);
      ObserveXfers(cs[1..], st);
      assert Tag(st.dc, cs[0]) + Tag(st.dc, Concat(cs[1..])) == Tag(st.dc, cs[0] + Concat(cs[1..]));
    }
  }

  /**
   * Whatever the lines were before, one `_spi_write(dc, values)` delivers exactly `values`
   * tagged with `dc`, and leaves CS high with DC at `dc`.
   */
  lemma ObserveWrite(dc: int, v: seq<int>, st: Lines)
    ensures Observe(WriteEvents(dc, v), st) == Tag(dc, v)
    ensures After(WriteEvents(dc, v), st) == Lines(HIGH, dc)
  {
    var open := [Output(CS0_PIN, LOW), Output(DC_PIN, dc)];
    var body := Xfers(Chunks(v));
    var close := [Output(CS0_PIN, HIGH)];
    assert WriteEvents(dc, v) == open + body + close;
    var selected := Lines(LOW, dc);
    assert Observe(open, st) == [] && After(open, st) == selected by {
      var lowered := Step(open[0], st);
      assert lowered == st.(cs := LOW);
      assert open[1..] == [Output(DC_PIN, dc)];
      assert Step(open[1], lowered) == selected;
      assert open[1..][1..] == [];
      assert Observe(open[1..], lowered) == [] && After(open[1..], lowered) == selected;
    }
    ObserveXfers(Chunks(v), selected);
    ChunksConcat(v);
    assert Observe(close, selected) == [] && After(close, selected) == Lines(HIGH, dc) by {
      assert close[1..] == [];
    }
    ObserveAppend(open, body, st);
    ObserveAppend(open + body, close, st);
  }
}
