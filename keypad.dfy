/** The UART keypad read callback of main/gui/gui.c (uart_indev_read_cb):
    each call consumes at most one byte of the UART receive buffer, maps it
    to an LVGL navigation key and tells LVGL whether to call again. */
module Keypad {
  import opened CTypes

  datatype KeyState = Released | Pressed

  /** The LVGL key codes the callback produces; `OtherKey` stands for any
      other value the record's key field may already hold. */
  datatype Key = Prev | Next | Left | Right | Enter | Esc | OtherKey(code: uint32)

  /** The fields of lv_indev_data_t that the callback writes. */
  datatype Indev = Indev(state: KeyState, key: Key, continueReading: bool)

  /** The switch of the callback: the key a received byte stands for, or
      None for a byte the switch ignores. */
  function KeyFor(b: byte): (k: Option<Key>)
    ensures k == Some(Prev) <==> b == 'w' as int || b == 'W' as int
    ensures k == Some(Next) <==> b == 's' as int || b == 'S' as int
    ensures k == Some(Left) <==> b == 'a' as int || b == 'A' as int
    ensures k == Some(Right) <==> b == 'd' as int || b == 'D' as int
    ensures k == Some(Enter) <==> b == '\r' as int || b == '\n' as int
    ensures k == Some(Esc) <==> b == 27
    ensures k.Some? ==> !k.value.OtherKey?
  {
    var c := b as char;
    if c == 'w' || c == 'W' then Some(Prev)
    else if c == 's' || c == 'S' then Some(Next)
    else if c == 'a' || c == 'A' then Some(Left)
    else if c == 'd' || c == 'D' then Some(Right)
    else if c == '\r' || c == '\n' then Some(Enter)
    else if b == 27 then Some(Esc)
    else None
  }

  /** One call of the callback on receive buffer `rx`; `readOk` says whether
      uart_read_bytes delivered the byte (it can also time out or fail).
      Gives the buffer afterwards and the record afterwards. */
  function ReadCb(rx: seq<byte>, readOk: bool, d: Indev): (r: (seq<byte>, Indev))
    ensures r.0 == rx || (|rx| > 0 && r.0 == rx[1..])
    ensures r.1.key != d.key ==> |rx| > 0 && KeyFor(rx[0]) == Some(r.1.key) && r.1.state == Pressed
    ensures r.0 != rx ==> (r.1.continueReading <==> |r.0| > 0)
  {
    if |rx| > 0 && readOk then
      var d' := match KeyFor(rx[0])
        case Some(k) => d.(state := Pressed, key := k)
        case None => d;
      (rx[1..], d'.(continueReading := |rx| > 1))
    else
      (rx, d.(state := Released))
  }

  /** A successful read consumes exactly the first byte; a mapped byte
      presses its key, any other byte leaves state and key as they were; the
      continue flag is set exactly when more than the consumed byte was
      buffered. */
  lemma ReadCbOnByte(rx: seq<byte>, d: Indev)
    requires |rx| > 0
    ensures ReadCb(rx, true, d).0 == rx[1..]
    ensures ReadCb(rx, true, d).1.continueReading <==> |rx| > 1
    ensures KeyFor(rx[0]).Some? ==> ReadCb(rx, true, d).1.state == Pressed && ReadCb(rx, true, d).1.key == KeyFor(rx[0]).value
    ensures KeyFor(rx[0]).None? ==> ReadCb(rx, true, d).1.state == d.state && ReadCb(rx, true, d).1.key == d.key
  {
  }

  /** With an empty buffer or a failed read nothing is consumed, the state
      becomes Released and the key and continue flag are left alone. */
  lemma ReadCbNothingRead(rx: seq<byte>, readOk: bool, d: Indev)
    requires |rx| == 0 || !readOk
    ensures ReadCb(rx, readOk, d) == (rx, Indev(Released, d.key, d.continueReading))
  {
  }

  /** The state is Pressed after a call exactly when a mapped byte was read,
      or when nothing mapped was read but the state already was Pressed and a
      byte was consumed. */
  lemma ReadCbPressedIff(rx: seq<byte>, readOk: bool, d: Indev)
    ensures ReadCb(rx, readOk, d).1.state == Pressed <==>
      |rx| > 0 && readOk && (KeyFor(rx[0]).Some? || d.state == Pressed)
  {
  }

  /** LVGL keeps calling while the continue flag is set: the record after
      successive calls with every read succeeding, stopping at the first
      call that clears the flag. */
  function Drain(rx: seq<byte>, d: Indev): (r: Indev)
    decreases |rx|
  {
    var (rx', d') := ReadCb(rx, true, d);
    if |rx| <= 1 || !d'.continueReading then d' else Drain(rx', d')
  }

  /** From a non-empty buffer those calls end with the flag cleared, and a
      mapped last byte leaves its key pressed. */
  lemma {:induction false} DrainEmptiesBuffer(rx: seq<byte>, d: Indev)
    requires |rx| > 0
    ensures !Drain(rx, d).continueReading
    ensures KeyFor(rx[|rx| - 1]).Some? ==> Drain(rx, d).state == Pressed && Drain(rx, d).key == KeyFor(rx[|rx| - 1]).value
    decreases |rx|
  {
    ReadCbOnByte(rx, d);
    if |rx| > 1 {
      var (rx', d') := ReadCb(rx, true, d);
      assert rx'[|rx'| - 1] == rx[|rx| - 1];
      DrainEmptiesBuffer(rx', d');
    }
  }

  /** The UART driver's receive buffer. */
  class UartRx {
    var buffered: seq<byte>

    constructor (bytes: seq<byte>)
      ensures buffered == bytes
    {
      buffered := bytes;
    }

    /** uart_read_bytes(port, &buf, 1, timeout): on success pops one byte. */
    method ReadOneByte(readOk: bool) returns (readLen: int, b: byte)
      modifies this
      ensures readLen > 0 <==> old(buffered) != [] && readOk
      ensures readLen > 0 ==> readLen == 1 && b == old(buffered)[0] && buffered == old(buffered)[1..]
      ensures readLen <= 0 ==> buffered == old(buffered)
    {
      if buffered != [] && readOk {
        b := buffered[0];
        buffered := buffered[1..];
        readLen := 1;
      } else {
        b := 0;
        readLen := 0;
      }
    }
  }

  /** The lv_indev_data_t record LVGL passes in. */
  class IndevData {
    var state: KeyState
    var key: Key
    var continueReading: bool

    constructor (d: Indev)
      ensures Fields() == d
    {
      state, key, continueReading := d.state, d.key, d.continueReading;
    }

    function Fields(): Indev
      reads this
    {
      Indev(state, key, continueReading)
    }
  }

  /** uart_indev_read_cb. */
  method UartIndevReadCb(uart: UartRx, data: IndevData, readOk: bool)
    modifies uart, data
    ensures (uart.buffered, data.Fields()) == ReadCb(old(uart.buffered), readOk, old(data.Fields()))
  {
    var len := |uart.buffered|;
    if len > 0 {
      var readLen, buf := uart.ReadOneByte(readOk);
      if readLen > 0 {
        var c := buf as char;
        if c == 'w' || c == 'W' {
          data.state, data.key := Pressed, Prev;
        } else if c == 's' || c == 'S' {
          data.state, data.key := Pressed, Next;
        } else if c == 'a' || c == 'A' {
          data.state, data.key := Pressed, Left;
        } else if c == 'd' || c == 'D' {
          data.state, data.key := Pressed, Right;
        } else if c == '\r' || c == '\n' {
          data.state, data.key := Pressed, Enter;
        } else if buf == 27 {
          data.state, data.key := Pressed, Esc;
        }
        data.continueReading := len > readLen;
        return;
      }
    }
    data.state := Released;
  }
}
