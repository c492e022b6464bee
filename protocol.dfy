/**
 * The UC8159 command protocol the driver speaks: opcodes, the framing of one command as
 * a command write and an optional data write, the fixed set-up sequence and the refresh
 * sequence, and the busy-pin poll that separates the steps of a refresh.
 */
module Protocol {
  import opened Bits
  import opened Transport

  datatype Option<T> = None | Some(value: T)

  /** The panel resolution `setup` announces. */
  const WIDTH: nat := 600
  const HEIGHT: nat := 448

  /** UC8159 command opcodes. */
  const UC8159_PSR: int := 0x00
  const UC8159_PWR: int := 0x01
  const UC8159_POF: int := 0x02
  const UC8159_PFS: int := 0x03
  const UC8159_PON: int := 0x04
  const UC8159_BTST: int := 0x06
  const UC8159_DSLP: int := 0x07
  const UC8159_DTM1: int := 0x10
  const UC8159_DSP: int := 0x11
  const UC8159_DRF: int := 0x12
  const UC8159_IPC: int := 0x13
  const UC8159_PLL: int := 0x30
  const UC8159_TSC: int := 0x40
  const UC8159_TSE: int := 0x41
  const UC8159_TSW: int := 0x42
  const UC8159_TSR: int := 0x43
  const UC8159_CDI: int := 0x50
  const UC8159_LPD: int := 0x51
  const UC8159_TCON: int := 0x60
  const UC8159_TRES: int := 0x61
  const UC8159_DAM: int := 0x65
  const UC8159_REV: int := 0x70
  const UC8159_FLG: int := 0x71
  const UC8159_AMV: int := 0x80
  const UC8159_VV: int := 0x81
  const UC8159_VDCS: int := 0x82
  const UC8159_PWS: int := 0xE3
  const UC8159_TSSET: int := 0xE5

  /** A command byte and the optional list of data bytes that follows it. */
  datatype Command = Command(opcode: int, data: Option<seq<int>>)

  // ---------------------------------------------------------------------------
  // Framing

  /** `_send_command(opcode, data)`: a DC=0 write of the opcode, then a DC=1 write of the data if there is any. */
  function CommandEvents(c: Command): seq<Event>
  {
    WriteEvents(SPI_COMMAND, [c.opcode])
      + (if c.data.Some? then WriteEvents(SPI_DATA, c.data.value) else [])
  }

  /** Several commands, one after the other. */
  function CommandsEvents(cs: seq<Command>): seq<Event>
  {
    if |cs| == 0 then [] else CommandEvents(cs[0]) + CommandsEvents(cs[1..])
  }

  lemma {:induction false} CommandsEventsAppend(a: seq<Command>, b: seq<Command>)
    ensures CommandsEvents(a + b) == CommandsEvents(a) + CommandsEvents(b)
  {
    if |a| == 0 {
      assert a + b == b;
    } else {
      assert (a + b)[0] == a[0] && (a + b)[1..] == a[1..] + b;
      CommandsEventsAppend(a[1..], b);
    }
  }

  /** The bytes the controller should receive for one command: the opcode as a command byte, the data as data bytes. */
  function Encode(c: Command): seq<Sample>
  {
    Tag(SPI_COMMAND, [c.opcode]) + (if c.data.Some? then Tag(SPI_DATA, c.data.value) else [])
  }

  function EncodeAll(cs: seq<Command>): seq<Sample>
  {
    if |cs| == 0 then [] else Encode(cs[0]) + EncodeAll(cs[1..])
  }

  /** Whatever the lines were before, one `_send_command` delivers exactly its encoding. */
  lemma CommandWire(c: Command, st: Lines)
    ensures Observe(CommandEvents(c), st) == Encode(c)
  {
    var head := WriteEvents(SPI_COMMAND, [c.opcode]);
    ObserveWrite(SPI_COMMAND, [c.opcode], st);
    if c.data.Some? {
      ObserveAppend(head, WriteEvents(SPI_DATA, c.data.value), st);
      ObserveWrite(SPI_DATA, c.data.value, After(head, st));
    } else {
      assert CommandEvents(c) == head;
    }
  }

  /** A run of commands delivers the concatenation of their encodings. */
  lemma {:induction false} CommandsWire(cs: seq<Command>, st: Lines)
    ensures Observe(CommandsEvents(cs), st) == EncodeAll(cs)
  {
    if |cs| > 0 {
      ObserveAppend(CommandEvents(cs[0]), CommandsEvents(cs[1..]), st);
      CommandWire(cs[0], st);
      CommandsWire(cs[1..], After(CommandEvents(cs[0]), st));
    }
  }

  // ---------------------------------------------------------------------------
  // Reading the wire back

  /** The number of data samples at the front of `s`. */
  function DataRun(s: seq<Sample>): (n: nat)
    ensures n <= |s|
    ensures forall k :: 0 <= k < n ==> s[k].dc == SPI_DATA
    ensures n < |s| ==> s[n].dc != SPI_DATA
  {
    if |s| == 0 || s[0].dc != SPI_DATA then 0 else 1 + DataRun(s[1..])
  }

  /** The bytes of some samples, without their tags. */
  function Bytes(s: seq<Sample>): seq<int>
  {
    seq(|s|, k requires 0 <= k < |s| => s[k].byte)
  }

  /**
   * The controller's reading of the wire: a command byte opens a command, and the data
   * bytes that follow it, up to the next command byte, are its data. Data bytes with no
   * command before them are dropped.
   */
  function Decode(s: seq<Sample>): seq<Command>
    decreases |s|
  {
    if |s| == 0 then []
    else if s[0].dc != SPI_COMMAND then Decode(s[1..])
    else
      var n := DataRun(s[1..]);
      [Command(s[0].byte, if n == 0 then None else Some(Bytes(s[1..][..n])))] + Decode(s[1..][n..])
  }

  /** No command carries an empty data list (which would put nothing on the wire). */
  predicate Framable(cs: seq<Command>)
  {
    forall k :: 0 <= k < |cs| ==> cs[k].data.Some? ==> |cs[k].data.value| > 0
  }

  /** The encoding of a list of commands is empty or opens with a command byte. */
  lemma EncodeAllHead(cs: seq<Command>)
    ensures |EncodeAll(cs)| == 0 || EncodeAll(cs)[0].dc == SPI_COMMAND
  {
    if |cs| > 0 {
      assert EncodeAll(cs)[0] == Encode(cs[0])[0];
    }
  }

  lemma {:induction false} DataRunTag(d: seq<int>, rest: seq<Sample>)
    requires |rest| == 0 || rest[0].dc == SPI_COMMAND
    ensures DataRun(Tag(SPI_DATA, d) + rest) == |d|
  {
    var s := Tag(SPI_DATA, d) + rest;
    if |d| > 0 {
      assert s[1..] == Tag(SPI_DATA, d[1..]) + rest;
      DataRunTag(d[1..], rest);
    } else {
      assert s == rest;
    }
  }

  /** The controller reads one encoded command, `opcode` and `d`, off the front of the wire. */
  lemma {:induction false} DecodeStep(opcode: int, d: seq<int>, rest: seq<Sample>)
    requires |rest| == 0 || rest[0].dc == SPI_COMMAND
    ensures Decode([Sample(SPI_COMMAND, opcode)] + Tag(SPI_DATA, d) + rest)
      == [Command(opcode, if |d| == 0 then None else Some(d))] + Decode(rest)
  {
    var s := [Sample(SPI_COMMAND, opcode)] + Tag(SPI_DATA, d) + rest;
    assert s[1..] == Tag(SPI_DATA, d) + rest;
    DataRunTag(d, rest);
    assert s[1..][..|d|] == Tag(SPI_DATA, d);
    assert Bytes(Tag(SPI_DATA, d)) == d;
    assert s[1..][|d|..] == rest;
  }

  /** Decoding undoes encoding: the controller recovers every command and its data, in order. */
  lemma {:induction false} DecodeEncode(cs: seq<Command>)
    requires Framable(cs)
    ensures Decode(EncodeAll(cs)) == cs
  {
    if |cs| > 0 {
      assert cs[0].data.Some? ==> |cs[0].data.value| > 0;
      assert Framable(cs[1..]) by {
        forall k | 0 <= k < |cs[1..]|
          ensures cs[1..][k].data.Some? ==> |cs[1..][k].data.value| > 0
        {
          assert cs[1..][k] == cs[k + 1];
        }
      }
      EncodeAllHead(cs[1..]);
      var c := cs[0];
      assert EncodeAll(cs) == Encode(c) + EncodeAll(cs[1..]);
      assert Tag(SPI_COMMAND, [c.opcode]) == [Sample(SPI_COMMAND, c.opcode)];
      if c.data.Some? {
        assert Encode(c) == [Sample(SPI_COMMAND, c.opcode)] + Tag(SPI_DATA, c.data.value);
        DecodeStep(c.opcode, c.data.value, EncodeAll(cs[1..]));
      } else {
        assert Encode(c) == [Sample(SPI_COMMAND, c.opcode)] + Tag(SPI_DATA, []);
        DecodeStep(c.opcode, [], EncodeAll(cs[1..]));
      }
      DecodeEncode(cs[1..]);
      assert cs == [c] + cs[1..];
    }
  }

  /** An empty data list is invisible on the wire: it cannot be told apart from no data. */
  lemma EmptyDataInvisible(opcode: int)
    ensures Encode(Command(opcode, Some([]))) == Encode(Command(opcode, None))
  {
  }

  // ---------------------------------------------------------------------------
  // Payloads

  /** `struct.pack(">H", n)`: the high byte, then the low byte. */
  function BigEndian16(n: int): (b: seq<int>)
    requires 0 <= n < 0x1_0000
    ensures |b| == 2 && 0 <= b[0] < 256 && 0 <= b[1] < 256
    ensures b[0] * 256 + b[1] == n
  {
    [n / 256, n % 256]
  }

  /** `(border << 5) | 0x17`: the border colour in the top three bits of the CDI byte. */
  function Cdi(border: int): int
  {
    BitOr(border * Pow2(5), 0x17)
  }

  /** Shifting the border clear of `0x17` makes the or an addition, for any border value. */
  lemma CdiShift(border: int)
    ensures Cdi(border) == border * 32 + 0x17
  {
    assert Pow2(5) == 32 by {
      assert Pow2(1) == 2 && Pow2(2) == 4 && Pow2(3) == 8 && Pow2(4) == 16;
    }
    OrIntoShifted(border, 0x17, 5);
  }

  /** For a named colour the CDI value is a byte holding the colour above the fixed `0x17`. */
  lemma CdiByte(border: int)
    requires 0 <= border < 8
    ensures Cdi(border) / 32 == border && Cdi(border) % 32 == 0x17
    ensures 0x17 <= Cdi(border) <= 0xF7
  {
    CdiShift(border);
  }

  /** The default white border gives `0x37`. */
  lemma CdiWhite()
    ensures Cdi(1) == 0x37
  {
    CdiShift(1);
  }

  /**
   * `(0x06 << 3) | (0x01 << 2) | (0x01 << 1) | 0x01`, the first PWR parameter. Every
   * operand and result fits in a byte, where Python's `<<` and `|` agree with `bv8`'s.
   */
  function PwrSettings(): int
  {
    (((0x06 as bv8) << 3) | ((0x01 as bv8) << 2) | ((0x01 as bv8) << 1) | 0x01) as int
  }

  /** The commands `setup` sends after the reset pulse and the first busy wait, in order. */
  function SetupCommands(border: int): seq<Command>
  {
    [ Command(UC8159_TRES, Some(BigEndian16(WIDTH) + BigEndian16(HEIGHT))),
      Command(UC8159_PSR, Some([0xEF, 0x08])),
      Command(UC8159_PWR, Some([PwrSettings(), 0x00, 0x23, 0x23])),
      Command(UC8159_PLL, Some([0x3C])),
      Command(UC8159_TSE, Some([0x00])),
      Command(UC8159_CDI, Some([Cdi(border)])),
      Command(UC8159_TCON, Some([0x22])),
      Command(UC8159_DAM, Some([0x00])),
      Command(UC8159_PWS, Some([0xAA])),
      Command(UC8159_PFS, Some([0x00])) ]
  }

  /** The set-up sequence, byte for byte; only the CDI byte depends on the border colour. */
  lemma SetupBytes(border: int)
    ensures SetupCommands(border) ==
      [ Command(UC8159_TRES, Some([0x02, 0x58, 0x01, 0xC0])),
        Command(UC8159_PSR, Some([0xEF, 0x08])),
        Command(UC8159_PWR, Some([0x37, 0x00, 0x23, 0x23])),
        Command(UC8159_PLL, Some([0x3C])),
        Command(UC8159_TSE, Some([0x00])),
        Command(UC8159_CDI, Some([border * 32 + 0x17])),
        Command(UC8159_TCON, Some([0x22])),
        Command(UC8159_DAM, Some([0x00])),
        Command(UC8159_PWS, Some([0xAA])),
        Command(UC8159_PFS, Some([0x00])) ]
  {
    CdiShift(border);
    var cs := SetupCommands(border);
    var width, height := BigEndian16(WIDTH), BigEndian16(HEIGHT);
    assert width == [0x02, 0x58] && height == [0x01, 0xC0];
    assert width + height == [0x02, 0x58, 0x01, 0xC0];
    assert cs[0] == Command(UC8159_TRES, Some([0x02, 0x58, 0x01, 0xC0]));
    assert cs[2] == Command(UC8159_PWR, Some([0x37, 0x00, 0x23, 0x23]));
    assert cs[5] == Command(UC8159_CDI, Some([border * 32 + 0x17]));
  }

  /** Every set-up command carries data. */
  lemma SetupFramable(border: int)
    ensures Framable(SetupCommands(border))
  {
    var cs := SetupCommands(border);
    forall k | 0 <= k < |cs|
      ensures cs[k].data.Some? && |cs[k].data.value| > 0
    {
    }
  }

  /**
   * What the controller should receive for one refresh: the set-up commands, the frame,
   * power on, refresh, power off.
   */
  function RefreshCommands(setup: seq<Command>, frame: seq<int>): seq<Command>
  {
    setup
      + [ Command(UC8159_DTM1, Some(frame)), Command(UC8159_PON, None),
          Command(UC8159_DRF, None), Command(UC8159_POF, None) ]
  }

  // ---------------------------------------------------------------------------
  // The busy pin

  /** `_busy_wait` sleeps 10 ms between readings and gives up once 15 s have passed. */
  const POLL_MS: nat := 10
  const TIMEOUT_MS: nat := 15000
  const MAX_POLLS: nat := TIMEOUT_MS / POLL_MS

  /** Whether the pin went high in time, and the readings not yet taken. */
  datatype WaitResult = WaitResult(ready: bool, rest: seq<bool>)

  /**
   * Poll the busy pin at most `budget` times. `line` holds the pin's future readings; a
   * reading past its end is low (the panel never becomes ready).
   */
  function Poll(line: seq<bool>, budget: nat): WaitResult
  {
    if budget == 0 then WaitResult(false, line)
    else if |line| > 0 && line[0] then WaitResult(true, line[1..])
    else Poll(if |line| > 0 then line[1..] else [], budget - 1)
  }

  /** One `_busy_wait` on the idealised clock where each poll takes exactly `POLL_MS`. */
  function Wait(line: seq<bool>): WaitResult
  {
    Poll(line, MAX_POLLS)
  }

  /** The pin reads high somewhere among the first `n` readings. */
  predicate HighWithin(line: seq<bool>, n: nat)
  {
    exists i :: 0 <= i < n && i < |line| && line[i]
  }

  /** Polling succeeds exactly when the pin reads high before the budget runs out. */
  lemma {:induction false} PollReady(line: seq<bool>, n: nat)
    ensures Poll(line, n).ready <==> HighWithin(line, n)
  {
    if n > 0 && |line| > 0 && line[0] {
      assert 0 < n && 0 < |line| && line[0];
    } else if n > 0 {
      var tail := if |line| > 0 then line[1..] else [];
      PollReady(tail, n - 1);
      if HighWithin(line, n) {
        var i :| 0 <= i < n && i < |line| && line[i];
        assert 0 <= i - 1 < n - 1 && tail[i - 1];
      }
      if HighWithin(tail, n - 1) {
        var i :| 0 <= i < n - 1 && i < |tail| && tail[i];
        assert line[i + 1];
      }
    }
  }

  /** Polling stops at the first high reading and consumes exactly the readings up to it. */
  lemma {:induction false} PollFirstHigh(line: seq<bool>, n: nat, i: nat)
    requires i < n && i < |line| && line[i]
    requires forall k :: 0 <= k < i ==> !line[k]
    ensures Poll(line, n) == WaitResult(true, line[i + 1..])
  {
    if i > 0 {
      assert !line[0];
      forall k | 0 <= k < i - 1
        ensures !line[1..][k]
      {
        assert line[1..][k] == line[k + 1];
      }
      PollFirstHigh(line[1..], n - 1, i - 1);
      assert line[1..][i..] == line[i + 1..];
    }
  }

  /** Polling takes at most `n` readings, from the front, and leaves the rest untouched. */
  lemma {:induction false} PollConsumes(line: seq<bool>, n: nat)
    ensures |Poll(line, n).rest| <= |line|
    ensures |line| - |Poll(line, n).rest| <= n
    ensures Poll(line, n).rest == line[|line| - |Poll(line, n).rest|..]
  {
    if n > 0 && |line| > 0 && !line[0] {
      PollConsumes(line[1..], n - 1);
      var r := Poll(line[1..], n - 1).rest;
      assert line[1..][|line[1..]| - |r|..] == line[|line| - |r|..];
    } else if n > 0 && |line| == 0 {
      PollConsumes([], n - 1);
    }
  }

  /** A pin that reads low 1500 times in a row makes `_busy_wait` time out. */
  lemma WaitTimesOut(line: seq<bool>)
    requires forall k :: 0 <= k < |line| && k < MAX_POLLS ==> !line[k]
    ensures !Wait(line).ready
  {
    PollReady(line, MAX_POLLS);
  }

  // ---------------------------------------------------------------------------
  // Runs of steps separated by busy waits

  /** The events of a run, the outcome of its last wait, and the busy-pin readings left. */
  datatype RunResult = RunResult(events: seq<Event>, ok: bool, rest: seq<bool>)

  /**
   * Emit each segment followed by a busy wait; a wait that times out raises, so nothing
   * after it is emitted.
   */
  function Run(segs: seq<seq<Event>>, line: seq<bool>): RunResult
    decreases |segs|
  {
    if |segs| == 0 then RunResult([], true, line)
    else
      var w := Wait(line);
      var head := segs[0] + [BusyWait];
      if !w.ready then RunResult(head, false, w.rest)
      else
        var r := Run(segs[1..], w.rest);
        RunResult(head + r.events, r.ok, r.rest)
  }

  /** Every segment with the wait after it: the run when every wait succeeds. */
  function Script(segs: seq<seq<Event>>): seq<Event>
  {
    if |segs| == 0 then [] else segs[0] + [BusyWait] + Script(segs[1..])
  }

  /**
   * A run stops at the first wait that times out: it emits the script of the segments
   * whose waits succeeded (`done` of them) and, when one failed, that segment and its
   * wait, and nothing after.
   */
  lemma {:induction false} RunPrefix(segs: seq<seq<Event>>, line: seq<bool>) returns (done: nat)
    ensures done <= |segs|
    ensures Run(segs, line).ok <==> done == |segs|
    ensures Run(segs, line).ok ==> Run(segs, line).events == Script(segs)
    ensures !Run(segs, line).ok ==> Run(segs, line).events == Script(segs[..done + 1])
  {
    if |segs| == 0 {
      done := 0;
    } else {
      var w := Wait(line);
      var head := segs[0] + [BusyWait];
      assert Script(segs) == head + Script(segs[1..]);
      if w.ready {
        var d := RunPrefix(segs[1..], w.rest);
        done := d + 1;
        if !Run(segs[1..], w.rest).ok {
          assert segs[..done + 1][0] == segs[0];
          assert segs[..done + 1][1..] == segs[1..][..d + 1];
        }
      } else {
        done := 0;
        assert segs[..1][1..] == [];
        assert Script(segs[..1]) == head + Script([]);
      }
    }
  }

  /** A run of two lists of segments is the run of the first, then (if it succeeded) the run of the second. */
  lemma {:induction false} RunAppend(a: seq<seq<Event>>, b: seq<seq<Event>>, line: seq<bool>)
    ensures var ra := Run(a, line);
      Run(a + b, line) ==
        if ra.ok then
          var rb := Run(b, ra.rest);
          RunResult(ra.events + rb.events, rb.ok, rb.rest)
        else ra
  {
    if |a| == 0 {
      assert a + b == b;
    } else {
      assert (a + b)[0] == a[0] && (a + b)[1..] == a[1..] + b;
      var w := Wait(line);
      if w.ready {
        RunAppend(a[1..], b, w.rest);
      }
    }
  }

  // ---------------------------------------------------------------------------
  // The refresh sequence

  /** `setup`'s reset pulse: reset low for 100 ms, then high for 100 ms. */
  function ResetPulse(): seq<Event>
  {
    [Output(RESET_PIN, LOW), Sleep(100), Output(RESET_PIN, HIGH), Sleep(100)]
  }

  /**
   * The steps of `setup` followed by `_update`, as they are separated by busy waits:
   * the reset pulse; the set-up commands and the frame; power on; refresh; power off.
   */
  function RefreshSegments(setup: seq<Command>, frame: seq<int>): seq<seq<Event>>
  {
    [ ResetPulse(),
      CommandsEvents(setup + [Command(UC8159_DTM1, Some(frame))]),
      CommandEvents(Command(UC8159_PON, None)),
      CommandEvents(Command(UC8159_DRF, None)),
      CommandEvents(Command(UC8159_POF, None)) ]
  }

  /** One segment per command: each command is followed by its own busy wait. */
  function CommandSegments(cs: seq<Command>): seq<seq<Event>>
  {
    seq(|cs|, k requires 0 <= k < |cs| => CommandEvents(cs[k]))
  }

  /** The commands `_update` sends after `setup`, each followed by a busy wait. */
  function RefreshSteps(frame: seq<int>): seq<Command>
  {
    [ Command(UC8159_DTM1, Some(frame)), Command(UC8159_PON, None),
      Command(UC8159_DRF, None), Command(UC8159_POF, None) ]
  }

  /** Events emitted before the first segment of a run join that segment: the run is unchanged but for them. */
  lemma RunPrepend(p: seq<Event>, segs: seq<seq<Event>>, line: seq<bool>)
    requires |segs| > 0
    ensures var r := Run(segs, line);
      Run([p + segs[0]] + segs[1..], line) == RunResult(p + r.events, r.ok, r.rest)
  {
    var joined := [p + segs[0]] + segs[1..];
    assert joined[0] == p + segs[0] && joined[1..] == segs[1..];
    var w := Wait(line);
    assert p + segs[0] + [BusyWait] == p + (segs[0] + [BusyWait]);
    if w.ready {
      var r := Run(segs[1..], w.rest);
      assert p + segs[0] + [BusyWait] + r.events == p + (segs[0] + [BusyWait] + r.events);
    }
  }

  /**
   * A refresh is the reset pulse and its wait, then (if the panel became ready) the set-up
   * commands, joined to a run of the refresh steps with a wait after each.
   */
  lemma RefreshRun(setup: seq<Command>, frame: seq<int>, line: seq<bool>)
    ensures var w := Wait(line);
      var r := Run(CommandSegments(RefreshSteps(frame)), w.rest);
      var head := ResetPulse() + [BusyWait];
      Run(RefreshSegments(setup, frame), line) ==
        if w.ready then RunResult(head + (CommandsEvents(setup) + r.events), r.ok, r.rest)
        else RunResult(head, false, w.rest)
  {
    var segs := RefreshSegments(setup, frame);
    var steps := CommandSegments(RefreshSteps(frame));
    var dtm := Command(UC8159_DTM1, Some(frame));
    CommandsEventsAppend(setup, [dtm]);
    assert CommandsEvents([dtm]) == CommandEvents(dtm);
    assert segs[1..] == [CommandsEvents(setup) + steps[0]] + steps[1..];
    var w := Wait(line);
    if w.ready {
      RunPrepend(CommandsEvents(setup), steps, w.rest);
      var r := Run(steps, w.rest);
      assert ResetPulse() + [BusyWait] + (CommandsEvents(setup) + r.events)
        == (ResetPulse() + [BusyWait]) + (CommandsEvents(setup) + r.events);
    }
  }

  /** Events that move neither CS nor DC and transfer nothing are invisible to the controller. */
  predicate Silent(evs: seq<Event>)
  {
    forall k :: 0 <= k < |evs| ==> !evs[k].Xfer? && !(evs[k].Output? && evs[k].pin in {CS0_PIN, DC_PIN})
  }

  lemma {:induction false} ObserveSilent(evs: seq<Event>, st: Lines)
    requires Silent(evs)
    ensures Observe(evs, st) == [] && After(evs, st) == st
  {
    if |evs| > 0 {
      assert Silent(evs[1..]) by {
        forall k | 0 <= k < |evs[1..]|
          ensures !evs[1..][k].Xfer? && !(evs[1..][k].Output? && evs[1..][k].pin in {CS0_PIN, DC_PIN})
        {
          assert evs[1..][k] == evs[k + 1];
        }
      }
      assert !evs[0].Xfer? && !(evs[0].Output? && evs[0].pin in {CS0_PIN, DC_PIN});
      ObserveSilent(evs[1..], st);
    }
  }

  /** One segment and its wait deliver the segment's commands. */
  lemma SegmentWire(cs: seq<Command>, st: Lines)
    ensures Observe(CommandsEvents(cs) + [BusyWait], st) == EncodeAll(cs)
  {
    ObserveAppend(CommandsEvents(cs), [BusyWait], st);
    CommandsWire(cs, st);
    ObserveSilent([BusyWait], After(CommandsEvents(cs), st));
  }

  /** The script of a refresh: each segment of `RefreshSegments` with its wait, as one list. */
  lemma RefreshScript(setup: seq<Command>, frame: seq<int>)
    ensures Script(RefreshSegments(setup, frame)) ==
      (ResetPulse() + [BusyWait])
        + ((CommandsEvents(setup + [Command(UC8159_DTM1, Some(frame))]) + [BusyWait])
        + ((CommandsEvents([Command(UC8159_PON, None)]) + [BusyWait])
        + ((CommandsEvents([Command(UC8159_DRF, None)]) + [BusyWait])
        + (CommandsEvents([Command(UC8159_POF, None)]) + [BusyWait]))))
  {
    var segs := RefreshSegments(setup, frame);
    var t1, t2, t3, t4 := segs[1..], segs[2..], segs[3..], segs[4..];
    assert t1[1..] == t2 && t2[1..] == t3 && t3[1..] == t4 && t4[1..] == [];
    assert Script(t4) == segs[4] + [BusyWait] + Script([]);
    assert Script(t3) == segs[3] + [BusyWait] + Script(t4);
    assert Script(t2) == segs[2] + [BusyWait] + Script(t3);
    assert Script(t1) == segs[1] + [BusyWait] + Script(t2);
    assert Script(segs) == segs[0] + [BusyWait] + Script(t1);
    assert CommandsEvents([Command(UC8159_PON, None)]) == CommandEvents(Command(UC8159_PON, None));
    assert CommandsEvents([Command(UC8159_DRF, None)]) == CommandEvents(Command(UC8159_DRF, None));
    assert CommandsEvents([Command(UC8159_POF, None)]) == CommandEvents(Command(UC8159_POF, None));
  }

  /** The refresh commands are set-up plus the frame, then power on, refresh and power off. */
  lemma RefreshCommandsSplit(setup: seq<Command>, frame: seq<int>)
    ensures EncodeAll(RefreshCommands(setup, frame)) ==
      EncodeAll(setup + [Command(UC8159_DTM1, Some(frame))])
        + (EncodeAll([Command(UC8159_PON, None)])
        + (EncodeAll([Command(UC8159_DRF, None)])
        + EncodeAll([Command(UC8159_POF, None)])))
  {
    var first := setup + [Command(UC8159_DTM1, Some(frame))];
    var pon, drf, pof := [Command(UC8159_PON, None)], [Command(UC8159_DRF, None)], [Command(UC8159_POF, None)];
    assert RefreshCommands(setup, frame) == first + (pon + (drf + pof));
    EncodeAllAppend(first, pon + (drf + pof));
    EncodeAllAppend(pon, drf + pof);
    EncodeAllAppend(drf, pof);
  }

  /** Every refresh command with data carries at least one byte, given a non-empty frame. */
  lemma RefreshFramable(setup: seq<Command>, frame: seq<int>)
    requires Framable(setup) && |frame| > 0
    ensures Framable(RefreshCommands(setup, frame))
  {
    var all := RefreshCommands(setup, frame);
    forall k | 0 <= k < |all|
      ensures all[k].data.Some? ==> |all[k].data.value| > 0
    {
      if k < |setup| {
        assert all[k] == setup[k];
      }
    }
  }

  /** The whole refresh script puts the refresh commands on the wire, whatever the lines were before. */
  lemma RefreshScriptWire(setup: seq<Command>, frame: seq<int>, st: Lines)
    ensures Observe(Script(RefreshSegments(setup, frame)), st) == EncodeAll(RefreshCommands(setup, frame))
  {
    RefreshScript(setup, frame);
    RefreshCommandsSplit(setup, frame);
    var first := setup + [Command(UC8159_DTM1, Some(frame))];
    var pon, drf, pof := [Command(UC8159_PON, None)], [Command(UC8159_DRF, None)], [Command(UC8159_POF, None)];
    var reset := ResetPulse() + [BusyWait];
    var s1 := CommandsEvents(first) + [BusyWait];
    var s2 := CommandsEvents(pon) + [BusyWait];
    var s3 := CommandsEvents(drf) + [BusyWait];
    var s4 := CommandsEvents(pof) + [BusyWait];
    assert Silent(reset);
    ObserveSilent(reset, st);
    ObserveAppend(reset, s1 + (s2 + (s3 + s4)), st);
    var st1 := After(s1, st);
    var st2 := After(s2, st1);
    var st3 := After(s3, st2);
    ObserveAppend(s1, s2 + (s3 + s4), st);
    ObserveAppend(s2, s3 + s4, st1);
    ObserveAppend(s3, s4, st2);
    SegmentWire(first, st);
    SegmentWire(pon, st1);
    SegmentWire(drf, st2);
    SegmentWire(pof, st3);
  }

  /**
   * A refresh whose every busy wait succeeds puts on the wire exactly the set-up commands,
   * the frame, power on, refresh and power off, and the controller decodes them back.
   */
  lemma RefreshWire(border: int, frame: seq<int>, line: seq<bool>, st: Lines)
    requires |frame| > 0
    requires Run(RefreshSegments(SetupCommands(border), frame), line).ok
    ensures var events := Run(RefreshSegments(SetupCommands(border), frame), line).events;
      Observe(events, st) == EncodeAll(RefreshCommands(SetupCommands(border), frame))
      && Decode(Observe(events, st)) == RefreshCommands(SetupCommands(border), frame)
  {
    var setup := SetupCommands(border);
    var done := RunPrefix(RefreshSegments(setup, frame), line);
    RefreshScriptWire(setup, frame, st);
    SetupFramable(border);
    RefreshFramable(setup, frame);
    DecodeEncode(RefreshCommands(setup, frame));
  }

  lemma {:induction false} EncodeAllAppend(a: seq<Command>, b: seq<Command>)
    ensures EncodeAll(a + b) == EncodeAll(a) + EncodeAll(b)
  {
    if |a| == 0 {
      assert a + b == b;
    } else {
      assert (a + b)[0] == a[0] && (a + b)[1..] == a[1..] + b;
      EncodeAllAppend(a[1..], b);
    }
  }
}
