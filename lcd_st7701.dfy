/** The ST7701S panel driver: the bit-banged 3-wire command bus, the
    register initialisation sequence sent over it, and the configuration
    handed to the RGB panel and to LVGL.  GPIO writes and delays are
    recorded, in order, as `Event`s on a `wire` trace. */
module St7701 {
  import opened Util
  import AppConfig

  /** The GPIO lines the driver drives: the three command-bus lines and the
      backlight enable. */
  datatype Pin = Cs | Sck | Sda | Backlight

  /** One externally visible action: a GPIO level change, or a delay. */
  datatype Event = Level(pin: Pin, high: bool) | Pause(ms: nat)

  /** One 9-bit transfer on the command bus (DC = 0 for a command byte,
      DC = 1 for a parameter byte), or a delay between transfers. */
  datatype Step = Cmd(b: byte) | Data(b: byte) | Delay(ms: nat)

  // ---------------------------------------------------------------------
  // Bits of a frame
  // ---------------------------------------------------------------------

  /** `v >> i`. */
  function Shr(v: nat, i: nat): nat
  {
    if i == 0 then v else Shr(v / 2, i - 1)
  }

  /** `(v >> i) & 1`, as a line level. */
  function BitOf(v: nat, i: nat): bool
  {
    Shr(v, i) % 2 == 1
  }

  /** `1 << n`, the bound on an `n`-bit value. */
  function Pow2(n: nat): (r: nat)
    ensures r >= 1
  {
    if n == 0 then 1 else 2 * Pow2(n - 1)
  }

  /** The `n` low bits of `v`, most significant first. */
  function MsbFirst(v: nat, n: nat): (r: seq<bool>)
    ensures |r| == n
  {
    if n == 0 then [] else MsbFirst(v / 2, n - 1) + [v % 2 == 1]
  }

  /** Position `n - 1 - i` of the MSB-first list is bit `i`. */
  lemma {:induction false} MsbFirstAt(v: nat, n: nat, i: nat)
    requires i < n
    ensures MsbFirst(v, n)[n - 1 - i] == BitOf(v, i)
  {
    if i > 0 {
      MsbFirstAt(v / 2, n - 1, i - 1);
    }
  }

  /** The number whose bits, most significant first, are `bits`. */
  function FromBits(bits: seq<bool>): (r: nat)
    ensures r < Pow2(|bits|)
  {
    if bits == [] then 0
    else 2 * FromBits(bits[..|bits| - 1]) + (if bits[|bits| - 1] then 1 else 0)
  }

  lemma {:induction false} FromMsbFirst(v: nat, n: nat)
    requires v < Pow2(n)
    ensures FromBits(MsbFirst(v, n)) == v
  {
    if n > 0 {
      var b := MsbFirst(v, n);
      assert b[..n - 1] == MsbFirst(v / 2, n - 1);
      FromMsbFirst(v / 2, n - 1);
    }
  }

  /** The nine SDA levels of one frame, in the order they are clocked out:
      the DC selector, then the byte from bit 7 down to bit 0. */
  function FrameBits(dc: bool, v: byte): (r: seq<bool>)
    ensures |r| == 9 && r[0] == dc
  {
    [dc] + MsbFirst(v, 8)
  }

  /** The level of the `k`-th clocked bit of a frame: DC first, then bit 7
      down to bit 0. */
  function FrameBit(dc: bool, v: byte, k: nat): bool
    requires k < 9
  {
    if k == 0 then dc else BitOf(v, 8 - k)
  }

  lemma FrameBitsAt(dc: bool, v: byte, k: nat)
    requires k < 9
    ensures FrameBits(dc, v)[k] == FrameBit(dc, v, k)
  {
    if k > 0 {
      MsbFirstAt(v, 8, 8 - k);
    }
  }

  /** What a receiver makes of nine latched levels. */
  function DecodeFrame(bits: seq<bool>): (r: Step)
    requires |bits| == 9
    ensures !r.Delay?
  {
    assert Pow2(8) == 256;
    var v := FromBits(bits[1..]);
    if bits[0] then Data(v) else Cmd(v)
  }

  /** A command frame carries DC = 0, a parameter frame DC = 1; decoding the
      nine levels of either gives back the selector and the byte. */
  lemma FrameRoundTrip(dc: bool, v: byte)
    ensures FrameBits(dc, v)[1..] == MsbFirst(v, 8)
    ensures forall i :: 0 <= i < 8 ==> FrameBits(dc, v)[8 - i] == BitOf(v, i)
    ensures DecodeFrame(FrameBits(dc, v)) == if dc then Data(v) else Cmd(v)
  {
    var bits := FrameBits(dc, v);
    assert bits[1..] == MsbFirst(v, 8);
    forall i | 0 <= i < 8
      ensures bits[8 - i] == BitOf(v, i)
    {
      MsbFirstAt(v, 8, i);
    }
    assert Pow2(8) == 256;
    FromMsbFirst(v, 8);
  }

  // ---------------------------------------------------------------------
  // Waveforms
  // ---------------------------------------------------------------------

  /** One bit cell: SCK low, SDA set, SCK high (the receiver latches on the
      rising edge). */
  function ClockOut(level: bool): seq<Event>
  {
    [Level(Sck, false), Level(Sda, level), Level(Sck, true)]
  }

  function ClockAll(bits: seq<bool>): (r: seq<Event>)
    ensures |r| == 3 * |bits|
  {
    if bits == [] then [] else ClockOut(bits[0]) + ClockAll(bits[1..])
  }

  lemma {:induction false} ClockAllAppend(a: seq<bool>, b: seq<bool>)
    ensures ClockAll(a + b) == ClockAll(a) + ClockAll(b)
  {
    if a == [] {
      assert a + b == b;
    } else {
      assert (a + b)[0] == a[0];
      assert (a + b)[1..] == a[1..] + b;
      ClockAllAppend(a[1..], b);
    }
  }

  lemma ClockAllSnoc(bits: seq<bool>, b: bool)
    ensures ClockAll(bits + [b]) == ClockAll(bits) + ClockOut(b)
  {
    ClockAllAppend(bits, [b]);
    assert [b][1..] == [];
  }

  /** The `k`-th bit cell of a clocked sequence carries the `k`-th bit. */
  lemma {:induction false} ClockAllAt(bits: seq<bool>, k: nat)
    requires k < |bits|
    ensures ClockAll(bits)[3 * k .. 3 * k + 3] == ClockOut(bits[k])
  {
    if k > 0 {
      ClockAllAt(bits[1..], k - 1);
      assert ClockAll(bits) == ClockOut(bits[0]) + ClockAll(bits[1..]);
    }
  }

  /** The first `k` bit cells of a frame. */
  function Cells(dc: bool, v: byte, k: nat): (r: seq<Event>)
    requires k <= 9
    ensures |r| == 3 * k
  {
    if k == 0 then [] else Cells(dc, v, k - 1) + ClockOut(FrameBit(dc, v, k - 1))
  }

  lemma {:induction false} CellsClockAll(dc: bool, v: byte, k: nat)
    requires k <= 9
    ensures Cells(dc, v, k) == ClockAll(FrameBits(dc, v)[..k])
  {
    if k > 0 {
      var bits := FrameBits(dc, v);
      CellsClockAll(dc, v, k - 1);
      assert bits[..k] == bits[..k - 1] + [bits[k - 1]];
      ClockAllSnoc(bits[..k - 1], bits[k - 1]);
      FrameBitsAt(dc, v, k - 1);
    }
  }

  /** The complete waveform of one frame: CS low, nine bit cells, CS high. */
  function FrameWave(dc: bool, v: byte): (r: seq<Event>)
    ensures |r| == 29
  {
    [Level(Cs, false)] + Cells(dc, v, 9) + [Level(Cs, true)]
  }

  lemma FrameWaveClocked(dc: bool, v: byte)
    ensures FrameWave(dc, v) == [Level(Cs, false)] + ClockAll(FrameBits(dc, v)) + [Level(Cs, true)]
  {
    CellsClockAll(dc, v, 9);
    assert FrameBits(dc, v)[..9] == FrameBits(dc, v);
  }

  /** CS falls before the first bit cell and rises after the ninth; cell
      `k` sets SDA to frame bit `k` while SCK is low and then raises SCK. */
  lemma FrameWaveShape(dc: bool, v: byte, k: nat)
    requires k < 9
    ensures FrameWave(dc, v)[0] == Level(Cs, false)
    ensures FrameWave(dc, v)[28] == Level(Cs, true)
    ensures FrameWave(dc, v)[1 + 3 * k .. 4 + 3 * k]
         == [Level(Sck, false), Level(Sda, FrameBits(dc, v)[k]), Level(Sck, true)]
  {
    var bits := FrameBits(dc, v);
    FrameWaveClocked(dc, v);
    ClockAllAt(bits, k);
    assert FrameWave(dc, v)[1 + 3 * k .. 4 + 3 * k] == ClockAll(bits)[3 * k .. 3 * k + 3];
  }

  function StepWave(s: Step): seq<Event>
  {
    match s
    case Cmd(b) => FrameWave(false, b)
    case Data(b) => FrameWave(true, b)
    case Delay(ms) => [Pause(ms)]
  }

  /** The waveform of a sequence of steps. */
  function Render(steps: seq<Step>): seq<Event>
  {
    if steps == [] then []
    else StepWave(steps[0]) + Render(steps[1..])
  }

  lemma {:induction false} RenderAppend(a: seq<Step>, b: seq<Step>)
    ensures Render(a + b) == Render(a) + Render(b)
  {
    if a == [] {
      assert a + b == b;
    } else {
      assert (a + b)[0] == a[0];
      assert (a + b)[1..] == a[1..] + b;
      RenderAppend(a[1..], b);
    }
  }

  lemma RenderSnoc(steps: seq<Step>, s: Step)
    ensures Render(steps + [s]) == Render(steps) + StepWave(s)
  {
    RenderAppend(steps, [s]);
    assert [s][1..] == [];
  }

  // ---------------------------------------------------------------------
  // A receiver watching the three lines
  // ---------------------------------------------------------------------

  /** What a receiver on the bus remembers: the current levels of CS, SCK
      and SDA and the bits latched since CS last fell. */
  datatype Probe = Probe(cs: bool, sck: bool, sda: bool, bits: seq<bool>)

  /** The receiver's reaction to one event: a falling CS starts a frame, a
      rising SCK while CS is low latches SDA, a rising CS ends the frame and
      yields it when it had nine bits.  Delays are reported as they are. */
  function Observe(p: Probe, e: Event): (Probe, seq<Step>)
  {
    match e
    case Pause(ms) => (p, [Delay(ms)])
    case Level(pin, h) =>
      match pin
      case Cs =>
        if !h then (p.(cs := false, bits := if p.cs then [] else p.bits), [])
        else (p.(cs := true), if !p.cs && |p.bits| == 9 then [DecodeFrame(p.bits)] else [])
      case Sck =>
        (p.(sck := h, bits := if h && !p.sck && !p.cs then p.bits + [p.sda] else p.bits), [])
      case Sda => (p.(sda := h), [])
      case Backlight => (p, [])
  }

  /** The steps a receiver decodes from a waveform, and its final state. */
  function Run(p: Probe, w: seq<Event>): (Probe, seq<Step>)
    decreases |w|
  {
    if w == [] then (p, [])
    else
      var (q, o) := Observe(p, w[0]);
      var (r, o2) := Run(q, w[1..]);
      (r, o + o2)
  }

  lemma {:induction false} RunAppend(p: Probe, a: seq<Event>, b: seq<Event>)
    ensures Run(p, a + b).0 == Run(Run(p, a).0, b).0
    ensures Run(p, a + b).1 == Run(p, a).1 + Run(Run(p, a).0, b).1
    decreases |a|
  {
    if a == [] {
      assert a + b == b;
    } else {
      assert (a + b)[0] == a[0];
      assert (a + b)[1..] == a[1..] + b;
      RunAppend(Observe(p, a[0]).0, a[1..], b);
    }
  }

  lemma RunSingle(p: Probe, e: Event)
    ensures Run(p, [e]) == Observe(p, e)
  {
    assert [e][1..] == [];
    assert Observe(p, e).1 + [] == Observe(p, e).1;
  }

  /** While CS is low, a bit cell latches exactly its SDA level. */
  lemma ClockOutRun(p: Probe, level: bool)
    requires !p.cs
    ensures Run(p, ClockOut(level)) == (p.(sck := true, sda := level, bits := p.bits + [level]), [])
  {
    var e0, e1, e2 := Level(Sck, false), Level(Sda, level), Level(Sck, true);
    assert ClockOut(level) == [e0] + [e1] + [e2];
    RunAppend(p, [e0] + [e1], [e2]);
    RunAppend(p, [e0], [e1]);
    RunSingle(p, e0);
    RunSingle(Observe(p, e0).0, e1);
    RunSingle(Observe(Observe(p, e0).0, e1).0, e2);
  }

  lemma {:induction false} ClockAllRun(p: Probe, bits: seq<bool>)
    requires !p.cs
    ensures !Run(p, ClockAll(bits)).0.cs
    ensures Run(p, ClockAll(bits)).0.bits == p.bits + bits
    ensures Run(p, ClockAll(bits)).1 == []
    decreases |bits|
  {
    if bits == [] {
      assert p.bits + bits == p.bits;
    } else {
      RunAppend(p, ClockOut(bits[0]), ClockAll(bits[1..]));
      ClockOutRun(p, bits[0]);
      var q := p.(sck := true, sda := bits[0], bits := p.bits + [bits[0]]);
      ClockAllRun(q, bits[1..]);
      assert q.bits + bits[1..] == p.bits + bits;
    }
  }

  /** A receiver idle with CS high decodes one frame's waveform as exactly
      that frame, and is idle again afterwards. */
  lemma FrameRun(p: Probe, dc: bool, v: byte)
    requires p.cs
    ensures Run(p, FrameWave(dc, v)).0.cs
    ensures Run(p, FrameWave(dc, v)).1 == [if dc then Data(v) else Cmd(v)]
  {
    var bits := FrameBits(dc, v);
    var lo, hi := Level(Cs, false), Level(Cs, true);
    FrameWaveClocked(dc, v);
    RunAppend(p, [lo] + ClockAll(bits), [hi]);
    RunAppend(p, [lo], ClockAll(bits));
    RunSingle(p, lo);
    var q := p.(cs := false, bits := []);
    ClockAllRun(q, bits);
    assert [] + bits == bits;
    RunSingle(Run(q, ClockAll(bits)).0, hi);
    FrameRoundTrip(dc, v);
  }

  lemma StepRun(p: Probe, s: Step)
    requires p.cs
    ensures Run(p, StepWave(s)).0.cs
    ensures Run(p, StepWave(s)).1 == [s]
  {
    match s
    case Cmd(b) => FrameRun(p, false, b);
    case Data(b) => FrameRun(p, true, b);
    case Delay(ms) => RunSingle(p, Pause(ms));
  }

  /** Round trip of the whole bus: whatever sequence of commands, parameters
      and delays the driver sends, a receiver that starts with CS high
      decodes exactly that sequence from the GPIO waveform. */
  lemma {:induction false} RenderRun(p: Probe, steps: seq<Step>)
    requires p.cs
    ensures Run(p, Render(steps)).0.cs
    ensures Run(p, Render(steps)).1 == steps
    decreases |steps|
  {
    if steps != [] {
      RunAppend(p, StepWave(steps[0]), Render(steps[1..]));
      StepRun(p, steps[0]);
      RenderRun(Run(p, StepWave(steps[0])).0, steps[1..]);
      assert [steps[0]] + steps[1..] == steps;
    }
  }

  // ---------------------------------------------------------------------
  // The register initialisation script
  // ---------------------------------------------------------------------

  /** One register write (a command byte and its parameter bytes), or a
      delay. */
  datatype Op = Write(reg: byte, params: seq<byte>) | Wait(ms: nat)

  function DataSteps(params: seq<byte>): (r: seq<Step>)
    ensures |r| == |params|
  {
    if params == [] then [] else DataSteps(params[..|params| - 1]) + [Data(params[|params| - 1])]
  }

  lemma {:induction false} DataStepsAt(params: seq<byte>, i: nat)
    requires i < |params|
    ensures DataSteps(params)[i] == Data(params[i])
    decreases |params|
  {
    if i < |params| - 1 {
      DataStepsAt(params[..|params| - 1], i);
    }
  }

  function OpSteps(op: Op): seq<Step>
  {
    match op
    case Write(reg, params) => [Cmd(reg)] + DataSteps(params)
    case Wait(ms) => [Delay(ms)]
  }

  /** The bus transfers of a script of register writes and delays. */
  function Flatten(ops: seq<Op>): seq<Step>
  {
    if ops == [] then [] else Flatten(ops[..|ops| - 1]) + OpSteps(ops[|ops| - 1])
  }

  lemma {:induction false} FlattenAppend(a: seq<Op>, b: seq<Op>)
    ensures Flatten(a + b) == Flatten(a) + Flatten(b)
    decreases |b|
  {
    if b == [] {
      assert a + b == a;
    } else {
      var n := |b| - 1;
      var c := a + b[..n];
      assert (a + b)[..|a + b| - 1] == c;
      assert (a + b)[|a + b| - 1] == b[n];
      assert Flatten(a + b) == Flatten(c) + OpSteps(b[n]);
      assert Flatten(b) == Flatten(b[..n]) + OpSteps(b[n]);
      FlattenAppend(a, b[..n]);
      Associative(Flatten(a), Flatten(b[..n]), OpSteps(b[n]));
    }
  }

  lemma {:induction false} DataStepsTail(params: seq<byte>)
    requires params != []
    ensures DataSteps(params)[0] == Data(params[0])
    ensures DataSteps(params)[1..] == DataSteps(params[1..])
    decreases |params|
  {
    DataStepsAt(params, 0);
    var n := |params| - 1;
    if n > 0 {
      DataStepsTail(params[..n]);
      assert params[1..][..n - 1] == params[..n][1..];
      assert params[1..][n - 1] == params[n];
    }
  }

  /** Flattening a script starts with a command or a delay, never with a
      parameter. */
  lemma FlattenCons(ops: seq<Op>)
    requires ops != []
    ensures Flatten(ops) == OpSteps(ops[0]) + Flatten(ops[1..])
    ensures !Flatten(ops)[0].Data?
  {
    var head := [ops[0]];
    assert head + ops[1..] == ops;
    FlattenAppend(head, ops[1..]);
    assert head[..0] == [];
    assert Flatten(head) == OpSteps(ops[0]);
    assert OpSteps(ops[0])[0] == if ops[0].Write? then Cmd(ops[0].reg) else Delay(ops[0].ms);
  }

  /** The GPIO waveform of a script of register writes and delays. */
  function Wave(ops: seq<Op>): seq<Event>
  {
    if ops == [] then [] else Wave(ops[..|ops| - 1]) + Render(OpSteps(ops[|ops| - 1]))
  }

  lemma Associative<T>(a: seq<T>, b: seq<T>, c: seq<T>)
    ensures a + b + c == a + (b + c)
  {
  }

  /** The waveform of a register write grows frame by frame. */
  lemma RegisterPrefix(reg: byte, params: seq<byte>, j: nat)
    requires j <= |params|
    ensures j == 0 ==> Render([Cmd(reg)] + DataSteps(params[..j])) == StepWave(Cmd(reg))
    ensures j > 0 ==>
      Render([Cmd(reg)] + DataSteps(params[..j]))
      == Render([Cmd(reg)] + DataSteps(params[..j - 1])) + StepWave(Data(params[j - 1]))
  {
    if j == 0 {
      RenderSnoc([], Cmd(reg));
      assert [] + [Cmd(reg)] == [Cmd(reg)] + DataSteps(params[..0]);
    } else {
      assert params[..j][..j - 1] == params[..j - 1];
      var done := [Cmd(reg)] + DataSteps(params[..j - 1]);
      RenderSnoc(done, Data(params[j - 1]));
      assert done + [Data(params[j - 1])] == [Cmd(reg)] + DataSteps(params[..j]);
    }
  }

  /** The waveform of a script grows operation by operation. */
  lemma WavePrefix(ops: seq<Op>, k: nat)
    requires k < |ops|
    ensures Wave(ops[..k + 1]) == Wave(ops[..k]) + Render(OpSteps(ops[k]))
  {
    assert ops[..k + 1][..k] == ops[..k];
  }

  /** The waveform of a script is the rendering of its flattened transfers,
      so a receiver decodes from it exactly those transfers. */
  lemma {:induction false} WaveDecodes(p: Probe, ops: seq<Op>)
    requires p.cs
    ensures Wave(ops) == Render(Flatten(ops))
    ensures Run(p, Wave(ops)).1 == Flatten(ops)
    decreases |ops|
  {
    if ops != [] {
      var n := |ops| - 1;
      WaveDecodes(p, ops[..n]);
      RenderAppend(Flatten(ops[..n]), OpSteps(ops[n]));
    }
    RenderRun(p, Flatten(ops));
  }

  // ---------------------------------------------------------------------
  // Regrouping transfers into register writes
  // ---------------------------------------------------------------------

  /** The parameter bytes at the head of a transfer sequence. */
  function LeadingData(steps: seq<Step>): (r: seq<byte>)
    ensures |r| <= |steps|
  {
    if steps != [] && steps[0].Data? then [steps[0].b] + LeadingData(steps[1..]) else []
  }

  /** The register writes and delays a receiver reads from a transfer
      sequence: a command frame and the parameter frames after it form one
      write; a parameter frame with no command before it is ignored. */
  function Regroup(steps: seq<Step>): seq<Op>
    decreases |steps|
  {
    if steps == [] then []
    else
      match steps[0]
      case Delay(ms) => [Wait(ms)] + Regroup(steps[1..])
      case Data(_) => Regroup(steps[1..])
      case Cmd(reg) =>
        var params := LeadingData(steps[1..]);
        [Write(reg, params)] + Regroup(steps[1 + |params|..])
  }

  lemma {:induction false} LeadingDataOf(params: seq<byte>, rest: seq<Step>)
    requires rest == [] || !rest[0].Data?
    ensures LeadingData(DataSteps(params) + rest) == params
    decreases |params|
  {
    if params == [] {
      assert DataSteps(params) + rest == rest;
    } else {
      DataStepsTail(params);
      assert (DataSteps(params) + rest)[1..] == DataSteps(params[1..]) + rest;
      LeadingDataOf(params[1..], rest);
      assert [params[0]] + params[1..] == params;
    }
  }

  /** A command frame and its parameter frames regroup into one write. */
  lemma RegroupWrite(reg: byte, params: seq<byte>, rest: seq<Step>)
    requires rest == [] || !rest[0].Data?
    ensures Regroup([Cmd(reg)] + (DataSteps(params) + rest)) == [Write(reg, params)] + Regroup(rest)
  {
    var tail := DataSteps(params) + rest;
    var steps := [Cmd(reg)] + tail;
    assert steps[0] == Cmd(reg);
    assert steps[1..] == tail;
    LeadingDataOf(params, rest);
    assert tail[|params|..] == rest;
    assert steps[1 + |params|..] == tail[|params|..];
  }

  lemma RegroupOp(op: Op, rest: seq<Step>)
    requires rest == [] || !rest[0].Data?
    ensures Regroup(OpSteps(op) + rest) == [op] + Regroup(rest)
  {
    match op
    case Wait(ms) =>
      var steps := OpSteps(op) + rest;
      assert steps[0] == Delay(ms);
      assert steps[1..] == rest;
    case Write(reg, params) =>
      assert OpSteps(op) + rest == [Cmd(reg)] + (DataSteps(params) + rest);
      RegroupWrite(reg, params, rest);
  }

  /** Register-level round trip: regrouping the transfers of any script
      gives back the script. */
  lemma {:induction false} RegroupFlatten(ops: seq<Op>)
    ensures Regroup(Flatten(ops)) == ops
    decreases |ops|
  {
    if ops != [] {
      FlattenCons(ops);
      if ops[1..] != [] {
        FlattenCons(ops[1..]);
      }
      RegroupOp(ops[0], Flatten(ops[1..]));
      RegroupFlatten(ops[1..]);
      assert [ops[0]] + ops[1..] == ops;
    }
  }

  /** A receiver that starts with CS high and watches the driver send a
      script decodes, and regroups, exactly that script. */
  lemma ScriptDecodes(p: Probe, ops: seq<Op>)
    requires p.cs
    ensures Regroup(Run(p, Wave(ops)).1) == ops
  {
    WaveDecodes(p, ops);
    RegroupFlatten(ops);
  }

  /** The selector of Command2 bank `b` (register 0xFF, parameters
      77 01 00 00 b). */
  function BankSelect(b: byte): Op
  {
    Write(0xFF, [0x77, 0x01, 0x00, 0x00, b])
  }

  /** The register bank the controller addresses: standard commands, or
      bank 0 / bank 1 of Command2. */
  datatype Bank = Standard | Bk0 | Bk1

  function BankAfter(bank: Bank, op: Op): Bank
  {
    if op.Write? && op.reg == 0xFF && |op.params| == 5 && op.params[..4] == [0x77, 0x01, 0x00, 0x00] then
      if op.params[4] == 0x10 then Bk0
      else if op.params[4] == 0x11 then Bk1
      else if op.params[4] == 0x00 then Standard
      else bank
    else bank
  }

  /** The bank in force after a script. */
  function BankAfterAll(bank: Bank, ops: seq<Op>): Bank
    decreases |ops|
  {
    if ops == [] then bank else BankAfterAll(BankAfter(bank, ops[0]), ops[1..])
  }

  /** Parameter lists of the 0xFF (bank select) writes, in order. */
  function BankSelects(ops: seq<Op>): seq<seq<byte>>
  {
    if ops == [] then []
    else (if ops[0].Write? && ops[0].reg == 0xFF then [ops[0].params] else []) + BankSelects(ops[1..])
  }

  /** True when every 0xB0/0xB1 write issued while bank 0 is selected (the
      positive and negative gamma tables) carries 16 parameters. */
  function GammaComplete(bank: Bank, ops: seq<Op>): bool
    decreases |ops|
  {
    if ops == [] then true
    else
      (bank == Bk0 && ops[0].Write? && (ops[0].reg == 0xB0 || ops[0].reg == 0xB1) ==> |ops[0].params| == 16)
      && GammaComplete(BankAfter(bank, ops[0]), ops[1..])
  }

  /** The registers of the 0xB0/0xB1 writes issued while bank 0 is
      selected, in script order: which gamma tables the script programs. */
  function GammaWrites(bank: Bank, ops: seq<Op>): seq<byte>
    decreases |ops|
  {
    if ops == [] then [] else GammaOf(bank, ops[0]) + GammaWrites(BankAfter(bank, ops[0]), ops[1..])
  }

  /** The gamma table an operation writes when issued in `bank`, if any. */
  function GammaOf(bank: Bank, op: Op): seq<byte>
  {
    if bank == Bk0 && op.Write? && (op.reg == 0xB0 || op.reg == 0xB1) then [op.reg] else []
  }

  /** The milestones the controller's datasheet orders: sleep-out, delays,
      bank selects, pixel format and display-on, in script order. */
  datatype Milestone = SleepOut | Settle(ms: nat) | Select(bank: byte) | PixelFormat | DisplayOn

  /** The milestone an operation is, if any. */
  function MilestoneOf(op: Op): seq<Milestone>
  {
    match op
    case Wait(ms) => [Settle(ms)]
    case Write(reg, params) =>
      if reg == 0x11 then [SleepOut]
      else if reg == 0xFF && |params| == 5 then [Select(params[4])]
      else if reg == 0x3A then [PixelFormat]
      else if reg == 0x29 then [DisplayOn]
      else []
  }

  function Milestones(ops: seq<Op>): seq<Milestone>
  {
    if ops == [] then [] else MilestoneOf(ops[0]) + Milestones(ops[1..])
  }

  lemma {:induction false} BankAfterAllAppend(bank: Bank, a: seq<Op>, b: seq<Op>)
    ensures BankAfterAll(bank, a + b) == BankAfterAll(BankAfterAll(bank, a), b)
    decreases |a|
  {
    if a == [] {
      assert a + b == b;
    }
    if a != [] {
      assert (a + b)[1..] == a[1..] + b;
      BankAfterAllAppend(BankAfter(bank, a[0]), a[1..], b);
    }
  }

  lemma {:induction false} GammaCompleteAppend(bank: Bank, a: seq<Op>, b: seq<Op>)
    ensures GammaComplete(bank, a + b)
        == (GammaComplete(bank, a) && GammaComplete(BankAfterAll(bank, a), b))
    decreases |a|
  {
    if a != [] {
      assert (a + b)[1..] == a[1..] + b;
      GammaCompleteAppend(BankAfter(bank, a[0]), a[1..], b);
    } else {
      assert a + b == b;
    }
  }

  lemma {:induction false} GammaWritesAppend(bank: Bank, a: seq<Op>, b: seq<Op>)
    ensures GammaWrites(bank, a + b) == GammaWrites(bank, a) + GammaWrites(BankAfterAll(bank, a), b)
    decreases |a|
  {
    if a != [] {
      var next := BankAfter(bank, a[0]);
      var h := GammaOf(bank, a[0]);
      assert (a + b)[0] == a[0];
      assert (a + b)[1..] == a[1..] + b;
      assert GammaWrites(bank, a + b) == h + GammaWrites(next, a[1..] + b);
      assert GammaWrites(bank, a) == h + GammaWrites(next, a[1..]);
      assert BankAfterAll(bank, a) == BankAfterAll(next, a[1..]);
      GammaWritesAppend(next, a[1..], b);
      assert h + (GammaWrites(next, a[1..]) + GammaWrites(BankAfterAll(next, a[1..]), b))
          == (h + GammaWrites(next, a[1..])) + GammaWrites(BankAfterAll(next, a[1..]), b);
    } else {
      assert a + b == b;
    }
  }

  lemma {:induction false} BankSelectsAppend(a: seq<Op>, b: seq<Op>)
    ensures BankSelects(a + b) == BankSelects(a) + BankSelects(b)
  {
    if a != [] {
      assert (a + b)[0] == a[0];
      assert (a + b)[1..] == a[1..] + b;
      BankSelectsAppend(a[1..], b);
    } else {
      assert a + b == b;
    }
  }

  lemma {:induction false} MilestonesAppend(a: seq<Op>, b: seq<Op>)
    ensures Milestones(a + b) == Milestones(a) + Milestones(b)
  {
    if a != [] {
      assert (a + b)[1..] == a[1..] + b;
      MilestonesAppend(a[1..], b);
    } else {
      assert a + b == b;
    }
  }

  /** What the ordering properties need to know about a script run from a
      given bank: its milestones, its bank selects, the bank it leaves in
      force, whether its gamma tables are complete, and which gamma tables
      it writes in bank 0. */
  datatype Summary = Summary(marks: seq<Milestone>, selects: seq<seq<byte>>, bankOut: Bank, gamma: bool, gammaRegs: seq<byte>)

  function Summarize(bank: Bank, ops: seq<Op>): Summary
  {
    Summary(Milestones(ops), BankSelects(ops), BankAfterAll(bank, ops), GammaComplete(bank, ops),
            GammaWrites(bank, ops))
  }

  /** The summary of one script followed by another. */
  function Then(s: Summary, t: Summary): Summary
  {
    Summary(s.marks + t.marks, s.selects + t.selects, t.bankOut, s.gamma && t.gamma, s.gammaRegs + t.gammaRegs)
  }

  /** Summaries compose: the summary of `a + b` is that of `a` followed by
      that of `b` run from the bank `a` leaves in force. */
  lemma SummarizeAppend(bank: Bank, a: seq<Op>, b: seq<Op>)
    ensures Summarize(bank, a + b) == Then(Summarize(bank, a), Summarize(Summarize(bank, a).bankOut, b))
  {
    MilestonesAppend(a, b);
    BankSelectsAppend(a, b);
    BankAfterAllAppend(bank, a, b);
    GammaCompleteAppend(bank, a, b);
    GammaWritesAppend(bank, a, b);
  }

  /** Sleep Out, then the 120 ms wake-up delay. */
  const WakeSection: seq<Op> := [Write(0x11, []), Wait(120)]

  /** Command2 bank 0: line count, porch, inversion, then the two gamma
      tables. */
  const Bank0Section: seq<Op> := Bank0Setup + Bank0Gamma

  const Bank0Setup: seq<Op> := [
    BankSelect(0x10),
    Write(0xC0, [0x3B, 0x00]),
    Write(0xC1, [0x0D, 0x02]),
    Write(0xC2, [0x31, 0x05]),
    Write(0xCD, [0x00])
  ]

  const Bank0Gamma: seq<Op> := [
    Write(0xB0, [0x00, 0x11, 0x18, 0x0E, 0x11, 0x06, 0x07, 0x08,
                 0x07, 0x22, 0x04, 0x12, 0x0F, 0xAA, 0x31, 0x18]),
    Write(0xB1, [0x00, 0x11, 0x19, 0x0E, 0x12, 0x07, 0x08, 0x08,
                 0x08, 0x22, 0x04, 0x11, 0x11, 0xA9, 0x32, 0x18])
  ]

  /** Command2 bank 1: the voltage registers, then the 100 ms settling
      delay. */
  const Bank1Section: seq<Op> := Bank1Voltages + Bank1Power

  const Bank1Voltages: seq<Op> := [
    BankSelect(0x11),
    Write(0xB0, [0x60]), Write(0xB1, [0x32]), Write(0xB2, [0x07]),
    Write(0xB3, [0x80]), Write(0xB5, [0x49])
  ]

  const Bank1Power: seq<Op> := [
    Write(0xB7, [0x85]), Write(0xB8, [0x21]), Write(0xC1, [0x78]),
    Write(0xC2, [0x78]), Write(0xD0, [0x88]),
    Wait(100)
  ]

  /** Gate and source equalisation (still in bank 1). */
  const EqualizeSection: seq<Op> := EqualizeGate + EqualizeTimingA + EqualizeTimingB

  const EqualizeGate: seq<Op> := [
    Write(0xE0, [0x00, 0x1B, 0x02]),
    Write(0xE1, [0x08, 0xA0, 0x00, 0x00, 0x07, 0xA0, 0x00, 0x00, 0x00, 0x44, 0x44]),
    Write(0xE2, [0x11, 0x11, 0x44, 0x44, 0xED, 0xA0, 0x00, 0x00, 0xEC, 0xA0, 0x00, 0x00]),
    Write(0xE3, [0x00, 0x00, 0x11, 0x11])
  ]

  const EqualizeTimingA: seq<Op> := [
    Write(0xE4, [0x44, 0x44]),
    Write(0xE5, [0x0A, 0xE9, 0xD8, 0xA0, 0x0C, 0xEB, 0xD8, 0xA0,
                 0x0E, 0xED, 0xD8, 0xA0, 0x10, 0xEF, 0xD8, 0xA0]),
    Write(0xE6, [0x00, 0x00, 0x11, 0x11]),
    Write(0xE7, [0x44, 0x44])
  ]

  const EqualizeTimingB: seq<Op> := [
    Write(0xE8, [0x09, 0xE8, 0xD8, 0xA0, 0x0B, 0xEA, 0xD8, 0xA0,
                 0x0D, 0xEC, 0xD8, 0xA0, 0x0F, 0xEE, 0xD8, 0xA0]),
    Write(0xEB, [0x02, 0x00, 0xE4, 0xE4, 0x88, 0x00, 0x40]),
    Write(0xEC, [0x3C, 0x00]),
    Write(0xED, [0xAB, 0x89, 0x76, 0x54, 0x02, 0xFF, 0xFF, 0xFF,
                 0xFF, 0xFF, 0xFF, 0x20, 0x45, 0x67, 0x98, 0xBA])
  ]

  /** Leave Command2, select RGB565, switch the display on, settle. */
  const FinishSection: seq<Op> := [
    BankSelect(0x00),
    Write(0x3A, [0x55]),
    Write(0x29, []),
    Wait(20)
  ]

  /** The whole of `st7701_panel_init`, in source order. */
  const InitScript: seq<Op> :=
    WakeSection + Bank0Section + Bank1Section + EqualizeSection + FinishSection

  /** What each part of the script contributes on its own. */
  lemma WakeSummary()
    ensures Summarize(Standard, WakeSection) == Summary([SleepOut, Settle(120)], [], Standard, true, [])
  {
  }

  lemma Bank0SetupSummary()
    ensures Summarize(Standard, Bank0Setup) == Summary([Select(0x10)], [[0x77, 0x01, 0x00, 0x00, 0x10]], Bk0, true, [])
  {
  }

  /** Both gamma tables are written while bank 0 is selected, with 16
      values each. */
  lemma Bank0GammaSummary()
    ensures Summarize(Bk0, Bank0Gamma) == Summary([], [], Bk0, true, [0xB0, 0xB1])
  {
  }

  lemma Bank0Summary()
    ensures Summarize(Standard, Bank0Section) == Summary([Select(0x10)], [[0x77, 0x01, 0x00, 0x00, 0x10]], Bk0, true, [0xB0, 0xB1])
  {
    Bank0SetupSummary();
    Bank0GammaSummary();
    SummarizeAppend(Standard, Bank0Setup, Bank0Gamma);
  }

  lemma Bank1VoltagesSummary()
    ensures Summarize(Bk0, Bank1Voltages) == Summary([Select(0x11)], [[0x77, 0x01, 0x00, 0x00, 0x11]], Bk1, true, [])
  {
  }

  lemma Bank1PowerSummary()
    ensures Summarize(Bk1, Bank1Power) == Summary([Settle(100)], [], Bk1, true, [])
  {
  }

  lemma Bank1Summary()
    ensures Summarize(Bk0, Bank1Section) == Summary([Select(0x11), Settle(100)], [[0x77, 0x01, 0x00, 0x00, 0x11]], Bk1, true, [])
  {
    Bank1VoltagesSummary();
    Bank1PowerSummary();
    SummarizeAppend(Bk0, Bank1Voltages, Bank1Power);
  }

  lemma EqualizeGateSummary()
    ensures Summarize(Bk1, EqualizeGate) == Summary([], [], Bk1, true, [])
  {
  }

  lemma EqualizeTimingASummary()
    ensures Summarize(Bk1, EqualizeTimingA) == Summary([], [], Bk1, true, [])
  {
  }

  lemma EqualizeTimingBSummary()
    ensures Summarize(Bk1, EqualizeTimingB) == Summary([], [], Bk1, true, [])
  {
  }

  lemma EqualizeSummary()
    ensures Summarize(Bk1, EqualizeSection) == Summary([], [], Bk1, true, [])
  {
    EqualizeGateSummary();
    EqualizeTimingASummary();
    EqualizeTimingBSummary();
    SummarizeAppend(Bk1, EqualizeGate, EqualizeTimingA);
    SummarizeAppend(Bk1, EqualizeGate + EqualizeTimingA, EqualizeTimingB);
  }

  lemma FinishSummary()
    ensures Summarize(Bk1, FinishSection)
         == Summary([Select(0x00), PixelFormat, DisplayOn, Settle(20)], [[0x77, 0x01, 0x00, 0x00, 0x00]], Standard, true, [])
  {
  }

  /** The summary of the first three parts of the script follows from
      those of the parts: wake-up, then bank 0, then bank 1. */
  lemma SummaryThroughBank1(a: seq<Op>, b: seq<Op>, c: seq<Op>)
    requires Summarize(Standard, a) == Summary([SleepOut, Settle(120)], [], Standard, true, [])
    requires Summarize(Standard, b) == Summary([Select(0x10)], [[0x77, 0x01, 0x00, 0x00, 0x10]], Bk0, true, [0xB0, 0xB1])
    requires Summarize(Bk0, c) == Summary([Select(0x11), Settle(100)], [[0x77, 0x01, 0x00, 0x00, 0x11]], Bk1, true, [])
    ensures Summarize(Standard, a + b + c)
         == Summary([SleepOut, Settle(120), Select(0x10), Select(0x11), Settle(100)],
                    [[0x77, 0x01, 0x00, 0x00, 0x10], [0x77, 0x01, 0x00, 0x00, 0x11]], Bk1, true, [0xB0, 0xB1])
  {
    var s0: seq<byte> := [0x77, 0x01, 0x00, 0x00, 0x10];
    var s1: seq<byte> := [0x77, 0x01, 0x00, 0x00, 0x11];
    SummarizeAppend(Standard, a, b);
    assert [SleepOut, Settle(120)] + [Select(0x10)] == [SleepOut, Settle(120), Select(0x10)];
    assert [] + [s0] == [s0];
    assert Summarize(Standard, a + b) == Summary([SleepOut, Settle(120), Select(0x10)], [s0], Bk0, true, [0xB0, 0xB1]);
    SummarizeAppend(Standard, a + b, c);
    assert [SleepOut, Settle(120), Select(0x10)] + [Select(0x11), Settle(100)]
        == [SleepOut, Settle(120), Select(0x10), Select(0x11), Settle(100)];
    assert [s0] + [s1] == [s0, s1];
  }

  /** The summary of the whole script follows from that of its first three
      parts and those of the equalisation and finishing parts. */
  lemma SummaryToEnd(x: seq<Op>, d: seq<Op>, e: seq<Op>)
    requires Summarize(Standard, x)
          == Summary([SleepOut, Settle(120), Select(0x10), Select(0x11), Settle(100)],
                     [[0x77, 0x01, 0x00, 0x00, 0x10], [0x77, 0x01, 0x00, 0x00, 0x11]], Bk1, true, [0xB0, 0xB1])
    requires Summarize(Bk1, d) == Summary([], [], Bk1, true, [])
    requires Summarize(Bk1, e)
          == Summary([Select(0x00), PixelFormat, DisplayOn, Settle(20)], [[0x77, 0x01, 0x00, 0x00, 0x00]], Standard, true, [])
    ensures Summarize(Standard, x + d + e)
         == Summary([SleepOut, Settle(120), Select(0x10), Select(0x11), Settle(100),
                     Select(0x00), PixelFormat, DisplayOn, Settle(20)],
                    [[0x77, 0x01, 0x00, 0x00, 0x10],
                     [0x77, 0x01, 0x00, 0x00, 0x11],
                     [0x77, 0x01, 0x00, 0x00, 0x00]],
                    Standard, true, [0xB0, 0xB1])
  {
    var m := [SleepOut, Settle(120), Select(0x10), Select(0x11), Settle(100)];
    var sel: seq<seq<byte>> := [[0x77, 0x01, 0x00, 0x00, 0x10], [0x77, 0x01, 0x00, 0x00, 0x11]];
    SummarizeAppend(Standard, x, d);
    assert m + [] == m;
    assert sel + [] == sel;
    assert Summarize(Standard, x + d) == Summary(m, sel, Bk1, true, [0xB0, 0xB1]);
    SummarizeAppend(Standard, x + d, e);
  }

  /** The init sequence's milestones come in exactly this order: Sleep Out,
      120 ms, bank 0, bank 1, 100 ms after the bank-1 voltage block, bank
      exit, pixel format (COLMOD), Display ON, 20 ms.  Exactly three bank
      selects are sent, each 77 01 00 00 b, in the order bank 0, bank 1,
      exit; the positive and the negative gamma table (0xB0, 0xB1) are each
      written exactly once in bank 0, with 16 values; and the sequence leaves
      the controller in the standard command bank. */
  lemma InitScriptOrder()
    ensures Milestones(InitScript)
         == [SleepOut, Settle(120), Select(0x10), Select(0x11), Settle(100),
             Select(0x00), PixelFormat, DisplayOn, Settle(20)]
    ensures BankSelects(InitScript)
         == [[0x77, 0x01, 0x00, 0x00, 0x10],
             [0x77, 0x01, 0x00, 0x00, 0x11],
             [0x77, 0x01, 0x00, 0x00, 0x00]]
    ensures GammaComplete(Standard, InitScript)
    ensures GammaWrites(Standard, InitScript) == [0xB0, 0xB1]
    ensures BankAfterAll(Standard, InitScript) == Standard
  {
    WakeSummary();
    Bank0Summary();
    Bank1Summary();
    EqualizeSummary();
    FinishSummary();
    SummaryThroughBank1(WakeSection, Bank0Section, Bank1Section);
    SummaryToEnd(WakeSection + Bank0Section + Bank1Section, EqualizeSection, FinishSection);
  }

  /** The bus transfers of the first and of the last part of the script. */
  lemma WakeFrames()
    ensures Flatten(WakeSection) == [Cmd(0x11), Delay(120)]
  {
  }

  lemma FinishFrames()
    ensures Flatten(FinishSection)
         == [Cmd(0xFF), Data(0x77), Data(0x01), Data(0x00), Data(0x00), Data(0x00),
             Cmd(0x3A), Data(0x55), Cmd(0x29), Delay(20)]
  {
    var exit: seq<byte> := [0x77, 0x01, 0x00, 0x00, 0x00];
    forall i | 0 <= i < 5
      ensures DataSteps(exit)[i] == Data(exit[i])
    {
      DataStepsAt(exit, i);
    }
    assert DataSteps(exit) == [Data(0x77), Data(0x01), Data(0x00), Data(0x00), Data(0x00)];
    assert OpSteps(Write(0x3A, [0x55])) == [Cmd(0x3A), Data(0x55)];
    assert OpSteps(Write(0x29, [])) == [Cmd(0x29)];
    var f := FinishSection;
    assert f[..1][..0] == [];
    assert Flatten(f[..1]) == [Cmd(0xFF), Data(0x77), Data(0x01), Data(0x00), Data(0x00), Data(0x00)];
    assert f[..2][..1] == f[..1];
    assert Flatten(f[..2]) == Flatten(f[..1]) + [Cmd(0x3A), Data(0x55)];
    assert f[..3][..2] == f[..2];
    assert Flatten(f[..3]) == Flatten(f[..2]) + [Cmd(0x29)];
    assert f[..3] == f[..|f| - 1];
  }

  lemma {:induction false} EndsFromSections(a: seq<Op>, mid: seq<Op>, e: seq<Op>)
    requires Flatten(a) == [Cmd(0x11), Delay(120)]
    requires Flatten(e)
          == [Cmd(0xFF), Data(0x77), Data(0x01), Data(0x00), Data(0x00), Data(0x00),
              Cmd(0x3A), Data(0x55), Cmd(0x29), Delay(20)]
    ensures |Flatten(a + mid + e)| >= 12
    ensures Flatten(a + mid + e)[..2] == [Cmd(0x11), Delay(120)]
    ensures Flatten(a + mid + e)[|Flatten(a + mid + e)| - 10 ..] == Flatten(e)
  {
    FlattenAppend(a + mid, e);
    FlattenAppend(a, mid);
  }

  /** The first transfer is Sleep Out, followed by the 120 ms delay before
      any other transfer; the sequence ends with the bank exit, COLMOD 0x55,
      and Display ON as the last frame, followed by a 20 ms delay. */
  lemma InitEnds()
    ensures |Flatten(InitScript)| >= 12
    ensures Flatten(InitScript)[..2] == [Cmd(0x11), Delay(120)]
    ensures Flatten(InitScript)[|Flatten(InitScript)| - 10 ..]
         == [Cmd(0xFF), Data(0x77), Data(0x01), Data(0x00), Data(0x00), Data(0x00),
             Cmd(0x3A), Data(0x55), Cmd(0x29), Delay(20)]
  {
    WakeFrames();
    FinishFrames();
    var mid := Bank0Section + Bank1Section + EqualizeSection;
    assert InitScript == WakeSection + mid + FinishSection;
    EndsFromSections(WakeSection, mid, FinishSection);
  }

  // ---------------------------------------------------------------------
  // The RGB panel and LVGL configuration
  // ---------------------------------------------------------------------

  const PCLK_HZ: nat := 40 * 1000 * 1000
  const BOUNCE_BUF_LINES: nat := 10

  datatype RgbTimings = RgbTimings(
    pclkHz: nat, hRes: nat, vRes: nat,
    hsyncBackPorch: nat, hsyncFrontPorch: nat, hsyncPulseWidth: nat,
    vsyncBackPorch: nat, vsyncFrontPorch: nat, vsyncPulseWidth: nat,
    pclkActiveNeg: bool)

  /** The parts of `esp_lcd_rgb_panel_config_t` that are numbers. */
  datatype RgbPanelConfig = RgbPanelConfig(
    timings: RgbTimings, dataWidth: nat, numFbs: nat,
    bounceBufferSizePx: nat, psramTransAlign: nat, fbInPsram: bool)

  /** The configuration `lcd_st7701_init` creates the RGB panel with: two
      RGB565 frame buffers in PSRAM, streamed through a bounce buffer of
      whole scan lines. */
  function PanelConfig(): (c: RgbPanelConfig)
    ensures c.timings.hRes == AppConfig.LCD_H_RES && c.timings.vRes == AppConfig.LCD_V_RES
    ensures c.numFbs == 2 && c.fbInPsram && c.dataWidth == 16
    ensures c.bounceBufferSizePx == c.timings.hRes * BOUNCE_BUF_LINES
  {
    RgbPanelConfig(
      RgbTimings(PCLK_HZ, AppConfig.LCD_H_RES, AppConfig.LCD_V_RES, 50, 10, 8, 20, 10, 8, true),
      16, 2, AppConfig.LCD_H_RES * BOUNCE_BUF_LINES, 64, true)
  }

  /** The LVGL display `lcd_st7701_register_lvgl` registers. */
  datatype LvglDisplay = LvglDisplay(hRes: nat, vRes: nat, drawBufs: nat, drawBufPx: nat, directMode: bool)

  /** `lcd_st7701_register_lvgl`, with the outcome of each ESP-IDF and LVGL
      call it makes given as a parameter: a missing argument is refused
      first, then each step's failure is returned in call order. */
  function RegisterLvgl(panelGiven: bool, outDispGiven: bool, semaphoreCreated: bool,
                        callbacks: Result<(), EspErr>, frameBuffers: Result<(), EspErr>,
                        displayRegistered: bool): (r: Result<LvglDisplay, EspErr>)
    ensures !(panelGiven && outDispGiven) ==> r == Err(InvalidArg)
    ensures panelGiven && outDispGiven && !semaphoreCreated ==> r == Err(NoMem)
    ensures r.Ok? <==> panelGiven && outDispGiven && semaphoreCreated && callbacks.Ok?
                       && frameBuffers.Ok? && displayRegistered
    ensures r.Ok? ==> r.value.drawBufs == PanelConfig().numFbs
                      && r.value.drawBufPx == AppConfig.LCD_H_RES * AppConfig.LCD_V_RES
                      && r.value.directMode
  {
    if !(panelGiven && outDispGiven) then Err(InvalidArg)
    else if !semaphoreCreated then Err(NoMem)
    else if callbacks.Err? then Err(callbacks.error)
    else if frameBuffers.Err? then Err(frameBuffers.error)
    else if !displayRegistered then Err(Fail)
    else Ok(LvglDisplay(AppConfig.LCD_H_RES, AppConfig.LCD_V_RES, 2,
                        AppConfig.LCD_H_RES * AppConfig.LCD_V_RES, true))
  }

  // ---------------------------------------------------------------------
  // The driver
  // ---------------------------------------------------------------------

  /** The GPIO side of the driver: every level change and delay it causes,
      in order. */
  class Panel {
    var wire: seq<Event>

    constructor ()
      ensures wire == []
    {
      wire := [];
    }

    /** `gpio_set_level`. */
    method SetLevel(pin: Pin, high: bool)
      modifies this
      ensures wire == old(wire) + [Level(pin, high)]
    {
      wire := wire + [Level(pin, high)];
    }

    /** `vTaskDelay`. */
    method DelayMs(ms: nat)
      modifies this
      ensures wire == old(wire) + [Pause(ms)]
    {
      wire := wire + [Pause(ms)];
    }

    /** `spi_gpio_init`: CS and SCK idle high. */
    method SpiGpioInit()
      modifies this
      ensures wire == old(wire) + [Level(Cs, true), Level(Sck, true)]
    {
      SetLevel(Cs, true);
      SetLevel(Sck, true);
    }

    /** `spi_write_9bit`: one frame, DC first, then `val` from bit 7 down to
      bit 0, each bit set while SCK is low and latched by SCK rising. */
    method SpiWrite9Bit(dc: bool, val: byte)
      modifies this
      ensures wire == old(wire) + FrameWave(dc, val)
    {
      wire := wire + [Level(Cs, false)];

      /* DC bit */
      wire := wire + [Level(Sck, false), Level(Sda, dc), Level(Sck, true)];
      assert Cells(dc, val, 1) == [] + ClockOut(dc);

      /* data bits, MSB first */
      var i: int := 7;
      while i >= 0
        invariant -1 <= i <= 7
        invariant wire == old(wire) + [Level(Cs, false)] + Cells(dc, val, 8 - i)
      {
        wire := wire + [Level(Sck, false), Level(Sda, BitOf(val, i)), Level(Sck, true)];
        i := i - 1;
      }

      wire := wire + [Level(Cs, true)];
    }

    /** `st7701_cmd`: a frame with DC = 0. */
    method WriteCommand(cmd: byte)
      modifies this
      ensures wire == old(wire) + StepWave(Cmd(cmd))
    {
      SpiWrite9Bit(false, cmd);
    }

    /** `st7701_data`: a frame with DC = 1. */
    method WriteData(d: byte)
      modifies this
      ensures wire == old(wire) + StepWave(Data(d))
    {
      SpiWrite9Bit(true, d);
    }

    /** One register write: the command frame, then one data frame per
      parameter, in order. */
    method WriteRegister(reg: byte, params: seq<byte>)
      modifies this
      ensures wire == old(wire) + Render(OpSteps(Write(reg, params)))
    {
      WriteCommand(reg);
      RegisterPrefix(reg, params, 0);
      for j := 0 to |params|
        invariant wire == old(wire) + Render([Cmd(reg)] + DataSteps(params[..j]))
      {
        ghost var before := Render([Cmd(reg)] + DataSteps(params[..j]));
        WriteData(params[j]);
        RegisterPrefix(reg, params, j + 1);
        Associative(old(wire), before, StepWave(Data(params[j])));
      }
      assert params[..|params|] == params;
    }

    /** Sends one register write, or waits. */
    method SendOp(op: Op)
      modifies this
      ensures wire == old(wire) + Render(OpSteps(op))
    {
      match op
      case Write(reg, params) =>
        WriteRegister(reg, params);
      case Wait(ms) =>
        DelayMs(ms);
        assert Render(OpSteps(op)) == [Pause(ms)];
    }

    /** Sends a script of register writes and delays, one operation after
      the other. */
    method SendScript(script: seq<Op>)
      modifies this
      ensures wire == old(wire) + Wave(script)
    {
      for k := 0 to |script|
        invariant wire == old(wire) + Wave(script[..k])
      {
        SendOp(script[k]);
        WavePrefix(script, k);
        Associative(old(wire), Wave(script[..k]), Render(OpSteps(script[k])));
      }
      assert script[..|script|] == script;
    }

    /** `st7701_panel_init`: the register writes and delays of the init
      script, in order. */
    method PanelInit()
      modifies this
      ensures wire == old(wire) + Wave(InitScript)
    {
      SendScript(InitScript);
    }

    /** `backlight_set`. */
    method BacklightSet(on: bool)
      modifies this
      ensures wire == old(wire) + [Level(Backlight, on)]
    {
      SetLevel(Backlight, on);
    }

    /** `lcd_st7701_init`, with the outcomes of `esp_lcd_new_rgb_panel` and
      `esp_lcd_panel_init` given as parameters.  A missing `out_panel` is
      refused before anything is touched; otherwise the backlight goes off,
      the command bus is set up and the init sequence sent, and the backlight
      comes back on only once the RGB panel is running. */
    method LcdInit(outPanelGiven: bool, newPanel: Result<(), EspErr>, panelInit: Result<(), EspErr>)
      returns (r: Result<RgbPanelConfig, EspErr>)
      modifies this
      ensures !outPanelGiven ==> r == Err(InvalidArg) && wire == old(wire)
      ensures outPanelGiven && r.Err? ==>
        wire == old(wire) + [Level(Backlight, false), Level(Cs, true), Level(Sck, true)]
                + Wave(InitScript)
      ensures r.Ok? ==>
        wire == old(wire) + [Level(Backlight, false), Level(Cs, true), Level(Sck, true)]
                + Wave(InitScript) + [Level(Backlight, true)]
      ensures outPanelGiven && newPanel.Err? ==> r == Err(newPanel.error)
      ensures outPanelGiven && newPanel.Ok? && panelInit.Err? ==> r == Err(panelInit.error)
      ensures r.Ok? <==> outPanelGiven && newPanel.Ok? && panelInit.Ok?
      ensures r.Ok? ==> r.value == PanelConfig()
    {
      if !outPanelGiven {
        return Err(InvalidArg);
      }
      BacklightSet(false);
      SpiGpioInit();
      assert wire == old(wire) + [Level(Backlight, false), Level(Cs, true), Level(Sck, true)];
      PanelInit();
      ghost var sent := wire;
      if newPanel.Err? {
        r := Err(newPanel.error);
      } else if panelInit.Err? {
        r := Err(panelInit.error);
      } else {
        BacklightSet(true);
        assert wire == sent + [Level(Backlight, true)];
        r := Ok(PanelConfig());
      }
    }
  }
}
