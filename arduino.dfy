/** The serial light-level reader of src/arduino.c.

    The C module keeps the port's file descriptor in a global, and getLightLevel keeps a
    10-byte line buffer and its fill index in function statics that survive from one
    call to the next. Here that state is the class `SerialLink`; the bytes the serial
    port has ready for `read` are the queue `pending`, from which each `read` of one
    byte pops the head (an empty queue is a `read` that returns 0 or less). Opening and
    configuring the port are not modelled; the descriptor is given. */
module Arduino {
  import opened Common

  /** The size of the static line buffer (a NUL terminator included). */
  const BufferSize := 10
  /** The most digits a line keeps. */
  const MaxDigits := 9

  /** Nine digits at most make a number no larger than 999,999,999, so atoi of the
      buffer always fits in a 32-bit int. */
  lemma DecimalFits(ds: seq<char>)
    requires AllDigits(ds) && |ds| <= MaxDigits
    ensures Decimal(ds) <= 999_999_999
  {
    DecimalBelow(ds);
    Pow10Mono(|ds|, MaxDigits);
  }

  /** What one getLightLevel call leaves behind: the bytes still queued, the digits
      buffered for the next call, and the light level. */
  datatype Scan = Scan(rest: seq<char>, digits: seq<char>, light: int)

  /** The read loop of getLightLevel over the queued bytes, from the buffered digits and
      the current light level: a newline ends the call, storing the decimal value of
      the buffered digits (if any) and emptying the buffer; a digit is buffered while
      fewer than nine are; every other byte is dropped; running out of bytes ends the
      call with the buffer as it is. */
  function Scanned(input: seq<char>, digits: seq<char>, light: int): (r: Scan)
    requires AllDigits(digits) && |digits| <= MaxDigits
    ensures AllDigits(r.digits) && |r.digits| <= MaxDigits
    ensures r.light == light || r.light <= 999_999_999
    ensures |r.rest| <= |input| && r.rest == input[|input| - |r.rest|..]
    ensures '\n' !in input ==> r.rest == [] && r.light == light
    decreases |input|
  {
    if input == [] then Scan([], digits, light)
    else
      var c := input[0];
      if c == '\n' then
        DecimalFits(digits);
        Scan(input[1..], [], if |digits| > 0 then Decimal(digits) else light)
      else if IsDigit(c) then
        Scanned(input[1..], if |digits| < MaxDigits then digits + [c] else digits, light)
      else
        Scanned(input[1..], digits, light)
  }

  /** One byte of the read loop. */
  lemma ScanStep(input: seq<char>, digits: seq<char>, light: int)
    requires AllDigits(digits) && |digits| <= MaxDigits && input != []
    ensures input[0] == '\n' ==>
      Scanned(input, digits, light) == Scan(input[1..], [], if |digits| > 0 then Decimal(digits) else light)
    ensures input[0] != '\n' && IsDigit(input[0]) && |digits| < MaxDigits ==>
      Scanned(input, digits, light) == Scanned(input[1..], digits + [input[0]], light)
    ensures input[0] != '\n' && !(IsDigit(input[0]) && |digits| < MaxDigits) ==>
      Scanned(input, digits, light) == Scanned(input[1..], digits, light)
  {
  }

  /** The call stops right after the first newline: everything behind it stays queued. */
  lemma {:induction false} StopsAfterNewline(pre: seq<char>, post: seq<char>, digits: seq<char>, light: int)
    requires AllDigits(digits) && |digits| <= MaxDigits && '\n' !in pre
    ensures Scanned(pre + ['\n'] + post, digits, light).rest == post
    ensures Scanned(pre + ['\n'] + post, digits, light).digits == []
  {
    if pre != [] {
      var c := pre[0];
      assert (pre + ['\n'] + post)[1..] == pre[1..] + ['\n'] + post;
      var d := if IsDigit(c) && |digits| < MaxDigits then digits + [c] else digits;
      StopsAfterNewline(pre[1..], post, d, light);
    } else {
      assert pre + ['\n'] + post == ['\n'] + post;
    }
  }

  /** Input that ends before a newline leaves its digits buffered, and the next call
      carries on from them: scanning in two calls is scanning the whole at once. */
  lemma {:induction false} ResumesAcrossCalls(a: seq<char>, b: seq<char>, digits: seq<char>, light: int)
    requires AllDigits(digits) && |digits| <= MaxDigits && '\n' !in a
    ensures var first := Scanned(a, digits, light);
      Scanned(b, first.digits, first.light) == Scanned(a + b, digits, light)
  {
    if a != [] {
      var c := a[0];
      assert (a + b)[1..] == a[1..] + b;
      var d := if IsDigit(c) && |digits| < MaxDigits then digits + [c] else digits;
      ResumesAcrossCalls(a[1..], b, d, light);
    } else {
      assert a + b == b;
    }
  }

  /** The bytes that matter to the scanner: digits and newlines. */
  function Kept(s: seq<char>): (k: seq<char>)
    ensures |k| <= |s|
  {
    if s == [] then []
    else if s[0] == '\n' || IsDigit(s[0]) then [s[0]] + Kept(s[1..])
    else Kept(s[1..])
  }

  /** Bytes other than digits and newlines change nothing: scanning the input with them
      removed buffers the same digits and sets the same light level. */
  lemma {:induction false} NoiseIgnored(input: seq<char>, digits: seq<char>, light: int)
    requires AllDigits(digits) && |digits| <= MaxDigits
    ensures var r, k := Scanned(input, digits, light), Scanned(Kept(input), digits, light);
      r.digits == k.digits && r.light == k.light && Kept(r.rest) == k.rest
  {
    if input != [] {
      var c := input[0];
      var d := if IsDigit(c) && |digits| < MaxDigits then digits + [c] else digits;
      if c == '\n' {
        assert Kept(input) == ['\n'] + Kept(input[1..]);
        assert Kept(input)[1..] == Kept(input[1..]);
      } else if IsDigit(c) {
        assert Kept(input) == [c] + Kept(input[1..]);
        assert Kept(input)[1..] == Kept(input[1..]);
        NoiseIgnored(input[1..], d, light);
      } else {
        NoiseIgnored(input[1..], d, light);
      }
    }
  }

  /** A line of one to nine digits sets the light level to its decimal value; an empty
      line keeps the old level. Either way the buffer is emptied. */
  lemma LineSetsLevel(ds: seq<char>, post: seq<char>, light: int)
    requires AllDigits(ds) && |ds| <= MaxDigits
    ensures var r := Scanned(ds + ['\n'] + post, [], light);
      && r.rest == post && r.digits == []
      && r.light == (if ds == [] then light else Decimal(ds))
  {
    StopsAfterNewline(ds, post, [], light);
    BuffersDigits(ds, ['\n'] + post, [], light);
    assert ds + ['\n'] + post == ds + (['\n'] + post);
    assert ['\n'] + post != [] && (['\n'] + post)[0] == '\n' && (['\n'] + post)[1..] == post;
    assert [] + ds == ds;
  }

  /** Up to the first newline, digits are buffered in order while there is room. */
  lemma {:induction false} BuffersDigits(ds: seq<char>, rest: seq<char>, digits: seq<char>, light: int)
    requires AllDigits(ds) && AllDigits(digits) && |digits| + |ds| <= MaxDigits
    ensures Scanned(ds + rest, digits, light) == Scanned(rest, digits + ds, light)
  {
    if ds == [] {
      assert ds + rest == rest && digits + ds == digits;
    } else {
      assert (ds + rest)[0] == ds[0] && (ds + rest)[1..] == ds[1..] + rest;
      assert digits + [ds[0]] + ds[1..] == digits + ds;
      BuffersDigits(ds[1..], rest, digits + [ds[0]], light);
    }
  }

  /** A tenth and later digit on a line is dropped. */
  lemma ExtraDigitsDropped(digits: seq<char>, c: char, rest: seq<char>, light: int)
    requires AllDigits(digits) && |digits| == MaxDigits && IsDigit(c)
    ensures Scanned([c] + rest, digits, light) == Scanned(rest, digits, light)
  {
    assert ([c] + rest)[1..] == rest;
  }

  class SerialLink {
    /** serial_fd; negative when the port is not open. */
    var fd: int
    /** The bytes the port has ready to be read. */
    var pending: seq<char>
    /** getLightLevel's static `buffer` and `index`. */
    var buffer: array<char>
    var index: int

    ghost predicate Valid()
      reads this, buffer
    {
      && buffer.Length == BufferSize
      && 0 <= index <= MaxDigits
      && AllDigits(buffer[..index])
    }

    /** The digits buffered so far on the current line. */
    ghost function Digits(): seq<char>
      reads this, buffer
      requires Valid()
    {
      buffer[..index]
    }

    /** A port with descriptor `fd` and `pending` bytes ready, and the statics as they
        start: an empty buffer. */
    constructor (fd: int, pending: seq<char>)
      ensures Valid() && fresh(buffer)
      ensures this.fd == fd && this.pending == pending && Digits() == []
    {
      this.fd := fd;
      this.pending := pending;
      buffer := new char[BufferSize](_ => '\0');
      index := 0;
    }

    /** getLightLevel(&light): returns the new value of `*light`. With no open port
        nothing is read and nothing changes; otherwise the queue, the buffered digits
        and the level move as `Scanned` says. */
    method GetLightLevel(light: int) returns (newLight: int)
      requires Valid()
      modifies this, buffer
      ensures Valid() && buffer == old(buffer) && fd == old(fd)
      ensures old(fd) < 0 ==> newLight == light && pending == old(pending) && Digits() == old(Digits())
      ensures old(fd) >= 0 ==> Scan(pending, Digits(), newLight) == Scanned(old(pending), old(Digits()), light)
    {
      newLight := light;
      if fd < 0 {
        return;
      }
      while pending != []
        invariant Valid() && buffer == old(buffer) && fd == old(fd)
        invariant Scanned(pending, Digits(), newLight) == Scanned(old(pending), old(Digits()), light)
        decreases |pending|
      {
        ScanStep(pending, Digits(), newLight);
        var c := pending[0];
        pending := pending[1..];
        var ended;
        ended, newLight := Feed(c, newLight);
        if ended {
          return;
        }
      }
    }

    /** One byte of getLightLevel's read loop: a newline ends the line, storing the
        buffered number (if any) and emptying the buffer; a digit is buffered while
        there is room; anything else is dropped. */
    method Feed(c: char, level: int) returns (ended: bool, newLevel: int)
      requires Valid()
      modifies this, buffer
      ensures Valid() && buffer == old(buffer) && fd == old(fd) && pending == old(pending)
      ensures ended == (c == '\n')
      ensures ended ==> Digits() == [] && newLevel == if old(index) > 0 then Decimal(old(Digits())) else level
      ensures !ended ==> newLevel == level
      ensures !ended ==> Digits() == if IsDigit(c) && old(index) < MaxDigits then old(Digits()) + [c] else old(Digits())
    {
      ghost var line := buffer[..index];
      newLevel := level;
      ended := c == '\n';
      if ended {
        buffer[index] := '\0';
        assert buffer[..index] == line;
        if index > 0 {
          newLevel := Decimal(buffer[..index]);
        }
        index := 0;
        assert buffer[..index] == [];
      } else if IsDigit(c) && index < MaxDigits {
        buffer[index] := c;
        index := index + 1;
        assert buffer[..index] == line + [c];
      }
    }

    /** arduinoDisconnect: closes an open port (returned) and marks it closed; with no
        open port it does nothing. */
    method Disconnect() returns (closed: int)
      modifies this
      ensures old(fd) >= 0 ==> closed == old(fd) && fd == -1
      ensures old(fd) < 0 ==> closed == -1 && fd == old(fd)
      ensures pending == old(pending) && buffer == old(buffer) && index == old(index)
    {
      closed := -1;
      if fd >= 0 {
        closed := fd;
        fd := -1;
      }
    }
  }
}
