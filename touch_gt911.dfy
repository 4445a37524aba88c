/** The GT911 capacitive touch controller driver: register framing on the
    I2C bus, the address probe of `touch_gt911_init`, and the LVGL poll
    callback.  The I2C bus is abstract: every transaction the driver issues
    is appended to a log, and the device's answers come from a script of
    replies, one per transaction. */
module Gt911 {
  import opened Util
  import AppConfig

  /** Status register: bit 7 = buffer ready, bits 3..0 = touch count. */
  const REG_STATUS: nat := 0x814E
  /** First touch point: track id, x (2 bytes), y (2 bytes), size (2 bytes),
      reserved. */
  const REG_POINT0: nat := 0x8150
  /** Product identifier, four ASCII characters. */
  const REG_PRODUCT: nat := 0x8140
  const POINT_LEN: nat := 8
  const PRODUCT_LEN: nat := 4
  /** The largest payload `gt911_write_reg` accepts (its buffer holds two
      address bytes and eight data bytes). */
  const MAX_WRITE: nat := 8
  /** The address tried when the configured one does not answer. */
  const ALT_ADDR: byte := 0x14

  // ---------------------------------------------------------------------
  // The abstract bus
  // ---------------------------------------------------------------------

  /** One I2C transaction as the driver issues it. */
  datatype Txn =
    | NewBus
    | Probe(addr: byte)
    | AddDevice(addr: byte)
    | Transmit(addr: byte, bytes: seq<byte>)
    | TransmitReceive(addr: byte, bytes: seq<byte>, readLen: nat)

  /** The answer to one transaction: success, with the bytes read when the
      transaction reads, or an error. */
  type Reply = Result<seq<byte>, EspErr>

  /** The next scripted answer; a device that has nothing more to say times
      out. */
  function Head(rs: seq<Reply>): Reply
  {
    if rs == [] then Err(Timeout) else rs[0]
  }

  function Tail(rs: seq<Reply>): seq<Reply>
  {
    if rs == [] then [] else rs[1..]
  }

  /** The outcome of a transaction that returns no data. */
  function Status(r: Reply): Result<(), EspErr>
  {
    if r.Ok? then Ok(()) else Err(r.error)
  }

  /** The `n`-byte receive buffer after a successful read: the bytes the
      device sent, cut or zero-filled to the buffer's length. */
  function Fit(bytes: seq<byte>, n: nat): (r: seq<byte>)
    ensures |r| == n
    ensures |bytes| >= n ==> r == bytes[..n]
    ensures |bytes| < n ==> r[..|bytes|] == bytes
  {
    if |bytes| >= n then bytes[..n] else bytes + seq(n - |bytes|, _ => 0)
  }

  // ---------------------------------------------------------------------
  // Register addresses and data layout
  // ---------------------------------------------------------------------

  /** A 16-bit register address as sent on the bus: high byte first. */
  function RegBytes(reg: nat): (r: seq<byte>)
    requires reg < 0x10000
    ensures |r| == 2
  {
    [reg / 256, reg % 256]
  }

  /** The register address a device reads from the first two bytes of a
      write. */
  function RegOf(bytes: seq<byte>): nat
    requires |bytes| >= 2
  {
    bytes[0] as nat * 256 + bytes[1] as nat
  }

  /** The device recovers the register address the driver sent, and the
      data bytes follow it unchanged. */
  lemma RegFraming(reg: nat, data: seq<byte>)
    requires reg < 0x10000
    ensures RegOf(RegBytes(reg) + data) == reg
    ensures (RegBytes(reg) + data)[2..] == data
  {
  }

  /** Bit 7 of the status register. */
  predicate Ready(status: byte)
  {
    (status / 0x80) % 2 == 1
  }

  /** Bits 3..0 of the status register. */
  function TouchCount(status: byte): nat
  {
    status % 0x10
  }

  /** A status byte with the given ready flag and touch count (bits 6..4
      clear). */
  function StatusByte(ready: bool, count: nat): byte
    requires count < 16
  {
    (if ready then 0x80 else 0) + count
  }

  /** The status layout: the ready flag and touch count read back from a
      status byte are the ones it was built from, and every status byte is
      read as bit 7 and its low nibble. */
  lemma StatusLayout(ready: bool, count: nat, status: byte)
    requires count < 16
    ensures Ready(StatusByte(ready, count)) == ready
    ensures TouchCount(StatusByte(ready, count)) == count
    ensures Ready(status) <==> status >= 0x80
    ensures TouchCount(status) < 16
  {
  }

  /** A little-endian 16-bit coordinate. */
  function Le16(lo: byte, hi: byte): (r: nat)
    ensures r < 0x10000
  {
    lo as nat + hi as nat * 256
  }

  lemma Le16RoundTrip(v: nat)
    requires v < 0x10000
    ensures Le16(v % 256, v / 256) == v
  {
  }

  /** A raw coordinate limited to the last pixel of an axis of `res`
      pixels. */
  function Clamp(v: nat, res: nat): (r: nat)
    requires res > 0
    ensures r < res
    ensures v < res ==> r == v
    ensures v >= res ==> r == res - 1
  {
    if v >= res then res - 1 else v
  }

  // ---------------------------------------------------------------------
  // The poll callback, as a specification
  // ---------------------------------------------------------------------

  datatype TouchState = Released | Pressed

  /** The part of `lv_indev_data_t` the callback fills in. */
  datatype IndevData = IndevData(state: TouchState, x: int, y: int)

  function StatusRead(dev: byte): Txn
  {
    TransmitReceive(dev, RegBytes(REG_STATUS), 1)
  }

  function PointRead(dev: byte): Txn
  {
    TransmitReceive(dev, RegBytes(REG_POINT0), POINT_LEN)
  }

  /** `gt911_clear_status`: a single zero written to the status register. */
  function ClearWrite(dev: byte): Txn
  {
    Transmit(dev, RegBytes(REG_STATUS) + [0])
  }

  /** What one poll reports, the transactions it issues and the replies it
      leaves unconsumed. */
  datatype PollOutcome = PollOutcome(data: IndevData, txns: seq<Txn>, rest: seq<Reply>)

  /** The point decoded from the 8-byte point block, clamped to the
      panel. */
  function PointOf(pt: seq<byte>): (r: IndevData)
    requires |pt| == POINT_LEN
    ensures r.state == Pressed
  {
    IndevData(Pressed, Clamp(Le16(pt[1], pt[2]), AppConfig.LCD_H_RES),
                       Clamp(Le16(pt[3], pt[4]), AppConfig.LCD_V_RES))
  }

  /** One call of the LVGL read callback against device `dev`, with the
      previous contents `prev` of the data record and scripted replies
      `rs`. */
  function Poll(dev: byte, prev: IndevData, rs: seq<Reply>): PollOutcome
  {
    var released := prev.(state := Released);
    var st := Head(rs);
    if st.Err? then PollOutcome(released, [StatusRead(dev)], Tail(rs))
    else
      var status := Fit(st.value, 1)[0];
      if !Ready(status) then PollOutcome(released, [StatusRead(dev)], Tail(rs))
      else if TouchCount(status) == 0 then
        PollOutcome(released, [StatusRead(dev), ClearWrite(dev)], Tail(Tail(rs)))
      else
        var pt := Head(Tail(rs));
        var txns := [StatusRead(dev), PointRead(dev), ClearWrite(dev)];
        var rest := Tail(Tail(Tail(rs)));
        if pt.Err? then PollOutcome(released, txns, rest)
        else PollOutcome(PointOf(Fit(pt.value, POINT_LEN)), txns, rest)
  }

  /** A failed status read reports RELEASED and issues nothing else: no
      point read and no clear. */
  lemma PollStatusFailure(dev: byte, prev: IndevData, rs: seq<Reply>)
    requires Head(rs).Err?
    ensures Poll(dev, prev, rs).data.state == Released
    ensures Poll(dev, prev, rs).txns == [StatusRead(dev)]
  {
  }

  /** With the status read answered, the status byte decides everything:
      not ready means nothing more is sent; ready with no touch means one
      clear; ready with touches means one point read and then one clear,
      even when the point read fails.  Only the last case, with the point
      read answered, reports PRESSED. */
  lemma PollByStatus(dev: byte, prev: IndevData, rs: seq<Reply>)
    requires Head(rs).Ok? && |Head(rs).value| >= 1
    ensures var status := Head(rs).value[0];
      var o := Poll(dev, prev, rs);
      && (!Ready(status) ==> o.txns == [StatusRead(dev)])
      && (Ready(status) && TouchCount(status) == 0 ==> o.txns == [StatusRead(dev), ClearWrite(dev)])
      && (Ready(status) && TouchCount(status) > 0 ==>
            o.txns == [StatusRead(dev), PointRead(dev), ClearWrite(dev)])
      && (o.data.state == Pressed <==>
            Ready(status) && TouchCount(status) > 0 && Head(Tail(rs)).Ok?)
  {
    assert Fit(Head(rs).value, 1)[0] == Head(rs).value[0];
  }

  /** A RELEASED report leaves the previous point as it was. */
  lemma PollReleasedKeepsPoint(dev: byte, prev: IndevData, rs: seq<Reply>)
    ensures Poll(dev, prev, rs).data.state == Released
        ==> Poll(dev, prev, rs).data == prev.(state := Released)
  {
  }

  /** A PRESSED report is always on the panel, and is the little-endian
      point from the point block when that lies on the panel. */
  lemma PollPressedOnPanel(dev: byte, prev: IndevData, rs: seq<Reply>)
    requires Poll(dev, prev, rs).data.state == Pressed
    ensures var d := Poll(dev, prev, rs).data;
      0 <= d.x < AppConfig.LCD_H_RES && 0 <= d.y < AppConfig.LCD_V_RES
    ensures var pt := Fit(Head(Tail(rs)).value, POINT_LEN);
      var d := Poll(dev, prev, rs).data;
      && (Le16(pt[1], pt[2]) < AppConfig.LCD_H_RES ==> d.x == Le16(pt[1], pt[2]))
      && (Le16(pt[3], pt[4]) < AppConfig.LCD_V_RES ==> d.y == Le16(pt[3], pt[4]))
  {
  }

  /** Status 0x81 (ready, one touch) with point block 00 2C 01 C8 00 …
      reports a press at (300, 200). */
  lemma PollExample(dev: byte, prev: IndevData)
    ensures Poll(dev, prev, [Ok([0x81]), Ok([0x00, 0x2C, 0x01, 0xC8, 0x00, 0x00, 0x00, 0x00]), Ok([])]).data
         == IndevData(Pressed, 300, 200)
  {
    var pt: seq<byte> := [0x00, 0x2C, 0x01, 0xC8, 0x00, 0x00, 0x00, 0x00];
    assert Fit(pt, POINT_LEN) == pt;
    assert Fit([0x81], 1)[0] == 0x81;
  }

  // ---------------------------------------------------------------------
  // Initialisation, as a specification
  // ---------------------------------------------------------------------

  /** What `touch_gt911_init` returns, the transactions it issues, the
      replies it leaves, and the address the device handle was created for
      (if it was). */
  datatype InitOutcome = InitOutcome(result: Result<(), EspErr>, txns: seq<Txn>, rest: seq<Reply>, dev: Option<byte>)

  /** The steps after a successful probe: add the device at `devAddr`, read
      the product identifier (its failure is only logged), clear the
      status. */
  function Attach(devAddr: byte, txns: seq<Txn>, rs: seq<Reply>): InitOutcome
  {
    var added := Head(rs);
    if added.Err? then InitOutcome(Err(added.error), txns + [AddDevice(devAddr)], Tail(rs), None)
    else
      InitOutcome(Ok(()),
                  txns + [AddDevice(devAddr), TransmitReceive(devAddr, RegBytes(REG_PRODUCT), PRODUCT_LEN),
                          ClearWrite(devAddr)],
                  Tail(Tail(Tail(rs))), Some(devAddr))
  }

  /** `touch_gt911_init` as written: create the bus, probe `addr` and then
      0x14, and add the device at `addr` whichever address answered. */
  function InitAsWritten(addr: byte, rs: seq<Reply>): InitOutcome
  {
    var bus := Head(rs);
    var rs1 := Tail(rs);
    if bus.Err? then InitOutcome(Err(bus.error), [NewBus], rs1, None)
    else if Head(rs1).Ok? then Attach(addr, [NewBus, Probe(addr)], Tail(rs1))
    else
      var rs2 := Tail(rs1);
      if Head(rs2).Err? then InitOutcome(Err(NotFound), [NewBus, Probe(addr), Probe(ALT_ADDR)], Tail(rs2), None)
      else Attach(addr, [NewBus, Probe(addr), Probe(ALT_ADDR)], Tail(rs2))
  }

  /** `touch_gt911_init` as evidently intended: the device is added at the
      address that answered the probe. */
  function InitIntended(addr: byte, rs: seq<Reply>): InitOutcome
  {
    var bus := Head(rs);
    var rs1 := Tail(rs);
    if bus.Err? then InitOutcome(Err(bus.error), [NewBus], rs1, None)
    else if Head(rs1).Ok? then Attach(addr, [NewBus, Probe(addr)], Tail(rs1))
    else
      var rs2 := Tail(rs1);
      if Head(rs2).Err? then InitOutcome(Err(NotFound), [NewBus, Probe(addr), Probe(ALT_ADDR)], Tail(rs2), None)
      else Attach(ALT_ADDR, [NewBus, Probe(addr), Probe(ALT_ADDR)], Tail(rs2))
  }

  /** True when `txns` contains a probe of `a` whose reply in `rs` was a
      success. */
  predicate Acknowledged(a: byte, txns: seq<Txn>, rs: seq<Reply>)
  {
    exists i :: 0 <= i < |txns| && i < |rs| && txns[i] == Probe(a) && rs[i].Ok?
  }

  /** The error paths and the outcome of both versions: a bus failure is
      returned as is, no answer at either address is NOT_FOUND, and once a
      probe is answered the product read and the clear cannot make the
      result fail. */
  lemma InitResults(addr: byte, rs: seq<Reply>)
    ensures Head(rs).Err? ==> InitAsWritten(addr, rs).result == Err(Head(rs).error)
    ensures Head(rs).Ok? && Head(Tail(rs)).Err? && Head(Tail(Tail(rs))).Err?
            ==> InitAsWritten(addr, rs).result == Err(NotFound)
    ensures InitAsWritten(addr, rs).result.Ok?
            <==> Head(rs).Ok? && (Head(Tail(rs)).Ok? || Head(Tail(Tail(rs))).Ok?)
                 && Head(if Head(Tail(rs)).Ok? then Tail(Tail(rs)) else Tail(Tail(Tail(rs)))).Ok?
    ensures InitIntended(addr, rs).result == InitAsWritten(addr, rs).result
    ensures InitAsWritten(addr, rs).result.Ok?
            ==> InitAsWritten(addr, rs).txns[|InitAsWritten(addr, rs).txns| - 1] == ClearWrite(addr)
  {
  }

  /** The intended version only ever adds the device at an address whose
      probe was answered. */
  lemma InitIntendedUsesAnsweredAddress(addr: byte, rs: seq<Reply>)
    ensures InitIntended(addr, rs).dev.Some?
            ==> Acknowledged(InitIntended(addr, rs).dev.value, InitIntended(addr, rs).txns, rs)
  {
    var o := InitIntended(addr, rs);
    if o.dev.Some? {
      if Head(Tail(rs)).Ok? {
        assert o.txns[1] == Probe(addr) && rs[1].Ok?;
      } else {
        assert o.txns[2] == Probe(ALT_ADDR) && rs[2].Ok?;
      }
    }
  }

  /** As written, when only the alternate address answers, the device is
      still added at the configured address, which did not answer. */
  lemma InitAsWrittenUsesSilentAddress(addr: byte)
    requires addr != ALT_ADDR
    ensures var rs := [Ok([]), Err(Timeout), Ok([]), Ok([]), Ok([0x39, 0x31, 0x31, 0x00]), Ok([])];
      var o := InitAsWritten(addr, rs);
      && o.result == Ok(())
      && o.dev == Some(addr)
      && !Acknowledged(addr, o.txns, rs)
  {
    var rs: seq<Reply> := [Ok([]), Err(Timeout), Ok([]), Ok([]), Ok([0x39, 0x31, 0x31, 0x00]), Ok([])];
    var o := InitAsWritten(addr, rs);
    assert o.txns == [NewBus, Probe(addr), Probe(ALT_ADDR), AddDevice(addr),
                      TransmitReceive(addr, RegBytes(REG_PRODUCT), PRODUCT_LEN), ClearWrite(addr)];
  }

  // ---------------------------------------------------------------------
  // The driver
  // ---------------------------------------------------------------------

  /** The driver's view of the bus: the transactions issued so far, the
      replies still to come, and the address of the device handle
      `s_dev`. */
  class Driver {
    var log: seq<Txn>
    var replies: seq<Reply>
    var dev: byte

    constructor (script: seq<Reply>)
      ensures log == [] && replies == script && dev == 0
    {
      log := [];
      replies := script;
      dev := 0;
    }

    /** Issues one transaction and takes its reply. */
    method Exchange(t: Txn) returns (r: Reply)
      modifies this
      ensures log == old(log) + [t]
      ensures r == Head(old(replies)) && replies == Tail(old(replies))
      ensures dev == old(dev)
    {
      log := log + [t];
      r := Head(replies);
      replies := Tail(replies);
    }

    /** `gt911_read_reg`: sends the register address and reads `len`
      bytes. */
    method ReadReg(reg: nat, len: nat) returns (r: Result<seq<byte>, EspErr>)
      requires reg < 0x10000
      modifies this
      ensures log == old(log) + [TransmitReceive(dev, RegBytes(reg), len)]
      ensures replies == Tail(old(replies)) && dev == old(dev)
      ensures Head(old(replies)).Err? ==> r == Err(Head(old(replies)).error)
      ensures Head(old(replies)).Ok? ==> r == Ok(Fit(Head(old(replies)).value, len))
    {
      var addr: seq<byte> := [reg / 256, reg % 256];
      var reply := Exchange(TransmitReceive(dev, addr, len));
      if reply.Err? {
        r := Err(reply.error);
      } else {
        r := Ok(Fit(reply.value, len));
      }
    }

    /** `gt911_write_reg`: refuses more than eight data bytes; otherwise
      fills the frame buffer with the register address, high byte first,
      then the data, and transmits the `2 + |data|` bytes. */
    method WriteReg(reg: nat, data: seq<byte>) returns (r: Result<(), EspErr>)
      requires reg < 0x10000
      modifies this
      ensures dev == old(dev)
      ensures |data| > MAX_WRITE ==> r == Err(InvalidSize) && log == old(log) && replies == old(replies)
      ensures |data| <= MAX_WRITE ==>
        && log == old(log) + [Transmit(dev, RegBytes(reg) + data)]
        && replies == Tail(old(replies))
        && r == Status(Head(old(replies)))
    {
      var buf := new byte[2 + MAX_WRITE];
      if |data| > MAX_WRITE {
        return Err(InvalidSize);
      }
      buf[0] := reg / 256;
      buf[1] := reg % 256;
      for i := 0 to |data|
        modifies buf
        invariant buf[..2] == RegBytes(reg)
        invariant buf[2..2 + i] == data[..i]
      {
        buf[2 + i] := data[i];
        assert buf[2..2 + i + 1] == buf[2..2 + i] + [data[i]];
        assert data[..i + 1] == data[..i] + [data[i]];
      }
      assert buf[..2 + |data|] == buf[..2] + buf[2..2 + |data|];
      assert data[..|data|] == data;
      var reply := Exchange(Transmit(dev, buf[..2 + |data|]));
      r := Status(reply);
    }

    /** `gt911_clear_status`. */
    method ClearStatus() returns (r: Result<(), EspErr>)
      modifies this
      ensures log == old(log) + [ClearWrite(dev)]
      ensures replies == Tail(old(replies)) && dev == old(dev)
      ensures r == Status(Head(old(replies)))
    {
      r := WriteReg(REG_STATUS, [0]);
    }

    /** `gt911_lvgl_read_cb`: `data` is the record LVGL passes in, and the
      record it gets back is returned. */
    method ReadCb(data: IndevData) returns (out: IndevData)
      modifies this
      ensures var o := Poll(old(dev), data, old(replies));
        out == o.data && log == old(log) + o.txns && replies == o.rest
      ensures dev == old(dev)
    {
      ghost var o := Poll(dev, data, replies);
      ghost var log0 := log;
      out := data.(state := Released);

      var st := ReadReg(REG_STATUS, 1);
      if st.Err? {
        return;
      }
      var status := st.value[0];
      var ready := Ready(status);
      var touches := TouchCount(status);

      if !ready || touches == 0 {
        if ready {
          var _ := ClearStatus();
          Associative(log0, [StatusRead(dev)], [ClearWrite(dev)]);
        }
        return;
      }

      var pt := ReadReg(REG_POINT0, POINT_LEN);
      var _ := ClearStatus();
      Associative(log0, [StatusRead(dev)], [PointRead(dev)]);
      Associative(log0, [StatusRead(dev), PointRead(dev)], [ClearWrite(dev)]);

      if pt.Err? {
        return;
      }

      var x := Le16(pt.value[1], pt.value[2]);
      var y := Le16(pt.value[3], pt.value[4]);

      if x >= AppConfig.LCD_H_RES {
        x := AppConfig.LCD_H_RES - 1;
      }
      if y >= AppConfig.LCD_V_RES {
        y := AppConfig.LCD_V_RES - 1;
      }

      out := IndevData(Pressed, x, y);
    }

    /** The steps of `touch_gt911_init` after a successful probe, adding
      the device at `devAddr`. */
    method AttachAt(devAddr: byte) returns (r: Result<(), EspErr>)
      modifies this
      ensures var o := Attach(devAddr, [], old(replies));
        && r == o.result && log == old(log) + o.txns && replies == o.rest
        && dev == (if o.dev.Some? then o.dev.value else old(dev))
    {
      ghost var log0 := log;
      var added := Exchange(AddDevice(devAddr));
      if added.Err? {
        assert [] + [AddDevice(devAddr)] == [AddDevice(devAddr)];
        return Err(added.error);
      }
      dev := devAddr;
      var _ := ReadReg(REG_PRODUCT, PRODUCT_LEN);
      var _ := ClearStatus();
      ghost var t := [AddDevice(devAddr), TransmitReceive(devAddr, RegBytes(REG_PRODUCT), PRODUCT_LEN)];
      Associative(log0, [AddDevice(devAddr)], [TransmitReceive(devAddr, RegBytes(REG_PRODUCT), PRODUCT_LEN)]);
      Associative(log0, t, [ClearWrite(devAddr)]);
      assert [] + (t + [ClearWrite(devAddr)]) == t + [ClearWrite(devAddr)];
      r := Ok(());
    }

    /** `touch_gt911_init` as written, for the configured address `addr`
      (`APP_TOUCH_GT911_ADDR`). */
    method Init(addr: byte) returns (r: Result<(), EspErr>)
      modifies this
      ensures var o := InitAsWritten(addr, old(replies));
        && r == o.result && log == old(log) + o.txns && replies == o.rest
        && dev == (if o.dev.Some? then o.dev.value else old(dev))
    {
      ghost var log0 := log;
      var bus := Exchange(NewBus);
      if bus.Err? {
        return Err(bus.error);
      }
      var probe := Exchange(Probe(addr));
      ghost var pre := [NewBus, Probe(addr)];
      Associative(log0, [NewBus], [Probe(addr)]);
      if probe.Err? {
        probe := Exchange(Probe(ALT_ADDR));
        Associative(log0, pre, [Probe(ALT_ADDR)]);
        pre := pre + [Probe(ALT_ADDR)];
        if probe.Err? {
          return Err(NotFound);
        }
      }
      ghost var rs1 := replies;
      r := AttachAt(addr);
      AttachPrefix(addr, pre, rs1);
      Associative(log0, pre, Attach(addr, [], rs1).txns);
    }

    /** `touch_gt911_init` with the device added at the address that
      answered the probe. */
    method InitFixed(addr: byte) returns (r: Result<(), EspErr>)
      modifies this
      ensures var o := InitIntended(addr, old(replies));
        && r == o.result && log == old(log) + o.txns && replies == o.rest
        && dev == (if o.dev.Some? then o.dev.value else old(dev))
    {
      ghost var log0 := log;
      var bus := Exchange(NewBus);
      if bus.Err? {
        return Err(bus.error);
      }
      var found := addr;
      var probe := Exchange(Probe(addr));
      ghost var pre := [NewBus, Probe(addr)];
      Associative(log0, [NewBus], [Probe(addr)]);
      if probe.Err? {
        found := ALT_ADDR;
        probe := Exchange(Probe(ALT_ADDR));
        Associative(log0, pre, [Probe(ALT_ADDR)]);
        pre := pre + [Probe(ALT_ADDR)];
        if probe.Err? {
          return Err(NotFound);
        }
      }
      ghost var rs1 := replies;
      r := AttachAt(found);
      AttachPrefix(found, pre, rs1);
      Associative(log0, pre, Attach(found, [], rs1).txns);
    }
  }

  /** The transactions before the attach steps only prefix the log. */
  lemma AttachPrefix(devAddr: byte, txns: seq<Txn>, rs: seq<Reply>)
    ensures Attach(devAddr, txns, rs).txns == txns + Attach(devAddr, [], rs).txns
    ensures Attach(devAddr, txns, rs).(txns := []) == Attach(devAddr, [], rs).(txns := [])
  {
    assert [] + [AddDevice(devAddr)] == [AddDevice(devAddr)];
  }

  lemma Associative<T>(a: seq<T>, b: seq<T>, c: seq<T>)
    ensures a + b + c == a + (b + c)
  {
  }
}
