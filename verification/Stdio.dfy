/** The buffered stdio writer: a ring of characters in front of a device. */
module Stdio {
  import opened Basics

  const EOF := -1

  datatype Mode = Unbuffered | LineBuffered | FullyBuffered

  /** A debug device takes characters one by one; any other device takes a
      write request, filled through the user's buffer. */
  datatype Target = DebugDevice | OtherDevice | NoDevice

  /** Position `i` places after `tail` in a ring of `len`. */
  function At(tail: nat, i: nat, len: nat): nat
    requires tail < len && i <= len
  {
    if tail + i < len then tail + i else tail + i - len
  }

  /** The `n` characters of the ring from `tail` on. */
  function Ring(b: seq<Byte>, tail: nat, n: nat): (s: seq<Byte>)
    requires tail < |b| && n <= |b|
    ensures |s| == n
  {
    seq(n, i requires 0 <= i < n => b[At(tail, i, |b|)])
  }

  lemma RingPush(b: seq<Byte>, tail: nat, n: nat, c: Byte)
    requires tail < |b| && n < |b|
    ensures Ring(b[At(tail, n, |b|) := c], tail, n + 1) == Ring(b, tail, n) + [c]
  {
  }

  lemma RingPop(b: seq<Byte>, tail: nat, n: nat)
    requires tail < |b| && n < |b|
    ensures Ring(b, tail, n + 1) == [b[tail]] + Ring(b, At(tail, 1, |b|), n)
  {
  }

  /** The first `k` characters, lying straight, and the rest. */
  lemma RingSplit(b: seq<Byte>, tail: nat, n: nat, k: nat)
    requires tail < |b| && k <= n <= |b| && tail + k <= |b|
    ensures Ring(b, tail, n) == b[tail..tail + k] + Ring(b, At(tail, k, |b|), n - k)
  {
  }

  class Stream {
    const buffer: array<Byte>
    var head: nat               // buf_head
    var tail: nat               // buf_tail
    var full: bool              // is_buf_full
    const mode: Mode            // buf_mode
    const target: Target
    var isOpen: bool
    var eof: bool
    var error: bool
    var device: seq<Byte>       // what the debug device was sent
    const payload: array<Byte>  // write_req_buffer->payload
    var requestLength: nat      // write_req_buffer->length
    var requestPos: nat         // write_req_pos

    /** The characters accepted so far, and the payloads of all write requests. */
    ghost var accepted: seq<Byte>
    ghost var requested: seq<Byte>

    /** Characters in the ring. */
    ghost function Count(): nat
      requires Shape()
      reads this
    {
      if full then buffer.Length else if head >= tail then head - tail else head + buffer.Length - tail
    }

    ghost predicate Shape()
      reads this
    {
      && head < buffer.Length && tail < buffer.Length && payload.Length >= buffer.Length && payload != buffer
      && (full ==> head == tail)
    }

    ghost function Pending(): seq<Byte>
      requires Shape()
      reads this, buffer
    {
      Ring(buffer[..], tail, Count())
    }

    ghost function Delivered(): seq<Byte>
      reads this
    {
      if target.DebugDevice? then device else requested
    }

    /** What was delivered followed by what is pending is all that was accepted. */
    ghost predicate Valid()
      reads this, buffer
    {
      && Shape() && requestPos == 0
      && (mode.Unbuffered? ==> Count() == 0)
      && (!target.NoDevice? ==> Delivered() + Pending() == accepted)
    }

    /** An open stream with an empty ring of `size` characters. */
    constructor (size: nat, bufferMode: Mode, device_: Target)
      requires size > 0
      ensures Valid() && accepted == [] && Delivered() == [] && Pending() == [] && isOpen && !eof && !error
      ensures buffer.Length == size && mode == bufferMode && target == device_ && fresh(buffer) && fresh(payload)
    {
      buffer := new Byte[size];
      payload := new Byte[size];
      head, tail, full, mode, target := 0, 0, false, bufferMode, device_;
      isOpen, eof, error := true, false, false;
      device, requestLength, requestPos, accepted, requested := [], 0, 0, [], [];
    }

    /** The oldest character goes to the debug device. */
    method EmitOldest()
      requires Shape() && Count() > 0
      modifies this`tail, this`full, this`device
      ensures Shape() && !full && Count() == old(Count()) - 1
      ensures device + Pending() == old(device) + old(Pending())
    {
      hide Ring;
      ghost var p := Pending();
      RingPop(buffer[..], tail, Count() - 1);
      NextPlace(tail, buffer.Length);
      device := device + [buffer[tail]];
      tail := (tail + 1) % buffer.Length;
      full := false;
      assert old(device) + p == device + Pending();
    }

    /** `_flushToFile` on the debug device. */
    method DrainToDebug()
      requires Shape()
      modifies this`tail, this`full, this`device
      ensures Shape() && !full && tail == head
      ensures device == old(device) + old(Pending())
    {
      hide Ring;
      if full { EmitOldest(); }
      while tail != head
        invariant Shape() && !full && device + Pending() == old(device) + old(Pending())
        decreases Count()
      {
        EmitOldest();
      }
      assert device + Pending() == device;
    }

    /** `memcpy` of `n` characters lying straight in the ring into the payload. */
    method MovePiece(n: nat)
      requires Shape() && 0 < n <= Count() && tail + n <= buffer.Length && requestPos + Count() <= buffer.Length
      modifies this`tail, this`full, this`requestPos, payload
      ensures Shape() && !full && Count() == old(Count()) - n && requestPos == old(requestPos) + n
      ensures tail == At(old(tail), n, buffer.Length)
      ensures payload[..requestPos] + Pending() == old(payload[..requestPos]) + old(Pending())
    {
      hide Ring;
      ghost var p, done, piece := Pending(), payload[..requestPos], buffer[..][tail..tail + n];
      RingSplit(buffer[..], tail, Count(), n);
      forall i | 0 <= i < n {
        payload[requestPos + i] := buffer[tail + i];
      }
      assert payload[..requestPos + n] == done + piece;
      assert buffer[..] == old(buffer[..]);
      requestPos := requestPos + n;
      tail := if tail + n == buffer.Length then 0 else tail + n;
      full := false;
      assert p == piece + Pending();
      assert done + piece + Pending() == done + (piece + Pending());
    }

    /** `_flushToFile` on any other device: the payload is the pending
        characters in order, never longer than the buffer. */
    method DrainToRequest()
      requires Shape() && requestPos == 0
      modifies this`tail, this`full, this`requestPos, this`requestLength, payload
      ensures Shape() && !full && tail == head
      ensures requestLength == old(Count()) <= buffer.Length && payload[..requestLength] == old(Pending())
    {
      hide Ring;
      assert payload[..requestPos] + Pending() == Pending();
      if full { MovePiece(1); }
      while tail != head
        invariant Shape() && !full && requestPos + Count() == old(Count())
        invariant payload[..requestPos] + Pending() == old(Pending())
        decreases Count()
      {
        if head < tail { MovePiece(buffer.Length - tail); }
        if head != tail { MovePiece(head - tail); }
      }
      requestLength := requestPos;
      assert payload[..requestPos] + Pending() == payload[..requestPos];
    }

    /** `fflush` of one stream: everything pending reaches the device or the
        request, and nothing stays pending. */
    method FFlush() returns (r: int)
      requires Valid()
      modifies this`head, this`tail, this`full, this`device, this`error, this`requestPos, this`requestLength,
          this`requested, payload
      ensures Valid()
      ensures r == if isOpen && !target.NoDevice? then 0 else EOF
      ensures r == EOF ==> Delivered() == old(Delivered()) && Pending() == old(Pending())
      ensures r == 0 ==> Delivered() == old(Delivered()) + old(Pending()) && Pending() == [] && !full
      ensures r == 0 && target.OtherDevice? ==>
                requestLength == |old(Pending())| <= buffer.Length && payload[..requestLength] == old(Pending())
    {
      hide Ring;
      if !isOpen { return EOF; }
      if target.NoDevice? {
        error := true;
        return EOF;
      }
      if target.DebugDevice? {
        DrainToDebug();
      } else {
        DrainToRequest();
        requested := requested + payload[..requestLength];
      }
      head, tail, full, requestPos := 0, 0, false, 0;
      assert Delivered() + [] == Delivered();
      r := 0;
    }

    /** `fputc`: on a device, a character is accepted exactly if the stream is
        open and not at its end, and goes behind all accepted before it. */
    method FPutC(c: Byte) returns (r: int)
      requires Valid()
      modifies this, buffer, payload
      ensures Valid()
      ensures isOpen == old(isOpen) && eof == old(eof)
      ensures r == c || r == EOF
      ensures !target.NoDevice? ==>
                (r == c <==> isOpen && !eof) && accepted == old(accepted) + if r == c then [c] else []
      ensures old(Delivered()) <= Delivered()
      ensures !target.NoDevice? && r == c && (mode.Unbuffered? || (mode.LineBuffered? && c == 10)) ==>
                Delivered() == accepted
      ensures !target.NoDevice? && r == c && !mode.Unbuffered? && !(mode.LineBuffered? && c == 10) ==>
                Delivered() == old(if full then accepted else Delivered())
    {
      hide Ring, Pending;
      if !isOpen || eof { return EOF; }
      if mode.Unbuffered? {
        r := WriteChar(c);
        return;
      }
      if full {
        var f := FFlush();
        if f == EOF { return EOF; }
      }
      Accept(c);
      if mode.LineBuffered? && c == 10 {
        var f := FFlush();
        if f == EOF { return EOF; }
      }
      r := c;
    }

    /** The character is stored behind all that are pending. */
    method Accept(c: Byte)
      requires Valid() && !full && !mode.Unbuffered?
      modifies this`head, this`full, this`accepted, buffer
      ensures Valid() && accepted == old(accepted) + [c] && Delivered() == old(Delivered())
    {
      hide Ring;
      ghost var p := Pending();
      Insert(c);
      accepted := accepted + [c];
      assert Delivered() + (p + [c]) == Delivered() + p + [c];
    }

    /** `_writeCharToFile`, as an unbuffered `fputc` uses it. */
    method WriteChar(c: Byte) returns (r: int)
      requires Valid() && mode.Unbuffered?
      modifies this`device, this`requested, this`accepted, this`requestLength, this`error, payload
      ensures Valid()
      ensures r == if target.NoDevice? then EOF else c
      ensures !target.NoDevice? ==> accepted == old(accepted) + [c] && Delivered() == old(Delivered()) + [c]
      ensures !target.NoDevice? ==> Delivered() == accepted
      ensures target.NoDevice? ==> Delivered() == old(Delivered())
    {
      hide Ring;
      if target.NoDevice? {
        error := true;
        return EOF;
      }
      if target.DebugDevice? {
        device := device + [c];
      } else {
        payload[0], requestLength := c, 1;
        requested := requested + payload[..1];
      }
      accepted := accepted + [c];
      r := c;
      assert Delivered() + Pending() == Delivered();
    }

    /** The character is stored at the head of a ring that is not full. */
    method Insert(c: Byte)
      requires Shape() && !full
      modifies this`head, this`full, buffer
      ensures Shape() && Pending() == old(Pending()) + [c]
    {
      hide Ring;
      RingPush(buffer[..], tail, Count(), c);
      buffer[head] := c;
      head := head + 1;
      if head == buffer.Length { head := 0; }
      if head == tail { full := true; }
    }
  }

  lemma NextPlace(tail: nat, len: nat)
    requires tail < len
    ensures (tail + 1) % len == At(tail, 1, len)
  {
  }
}
