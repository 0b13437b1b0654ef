/** Pure part of the USART layer: the byte stream `Serial_print` puts on the
    wire for a C string, and the baud-rate divisor `Serial_begin` computes. */
module Serial {
  import opened Bits
  import Clock

  const NUL: char := '\0'

  /** The characters of a C string: those before the first NUL, or all of
      them when the sequence holds no NUL. */
  function CString(s: seq<char>): (r: seq<char>)
    ensures r <= s
    ensures NUL !in r
    ensures |r| < |s| ==> s[|r|] == NUL
  {
    if s == [] || s[0] == NUL then [] else [s[0]] + CString(s[1..])
  }

  /** The walk of `Serial_print` along `str` stops at index i exactly when the
      characters before i are not NUL and i is at a NUL or at the end: the
      characters it has passed are then the C string. */
  lemma {:induction false} CStringUpTo(s: seq<char>, i: nat)
    requires i <= |s| && NUL !in s[..i]
    requires i == |s| || s[i] == NUL
    ensures CString(s) == s[..i]
  {
    if i > 0 {
      assert s[0] == s[..i][0];
      assert s[1..][..i - 1] == s[..i][1..];
      CStringUpTo(s[1..], i - 1);
    }
  }

  /** What goes on the wire for one character: `'\n'` is preceded by `'\r'`. */
  function Translate(c: char): seq<char>
  {
    if c == '\n' then ['\r', '\n'] else [c]
  }

  /** The bytes written to UDR0 for a NUL-free text. */
  function Transmitted(s: seq<char>): seq<char>
  {
    if s == [] then [] else Translate(s[0]) + Transmitted(s[1..])
  }

  /** One character on its own goes out as its translation. */
  lemma TransmittedOne(c: char)
    ensures Transmitted([c]) == Translate(c)
  {
    assert [c][1..] == [];
  }

  function CountNewlines(s: seq<char>): nat
  {
    if s == [] then 0 else (if s[0] == '\n' then 1 else 0) + CountNewlines(s[1..])
  }

  /** The wire carries one extra byte per newline. */
  lemma {:induction false} TransmittedLength(s: seq<char>)
    ensures |Transmitted(s)| == |s| + CountNewlines(s)
  {
    if s != [] {
      TransmittedLength(s[1..]);
    }
  }

  /** Printing a text piece by piece puts the same bytes on the wire as
      printing it at once. */
  lemma {:induction false} TransmittedAppend(a: seq<char>, b: seq<char>)
    ensures Transmitted(a + b) == Transmitted(a) + Transmitted(b)
  {
    if a == [] {
      assert a + b == b;
    } else {
      assert (a + b)[1..] == a[1..] + b;
      TransmittedAppend(a[1..], b);
    }
  }

  /** Every `'\n'` on the wire comes right after a `'\r'`. */
  lemma {:induction false} CarriageReturnBeforeEveryNewline(s: seq<char>)
    ensures forall i | 0 <= i < |Transmitted(s)| && Transmitted(s)[i] == '\n' ::
      0 < i && Transmitted(s)[i - 1] == '\r'
  {
    if s != [] {
      CarriageReturnBeforeEveryNewline(s[1..]);
      var head, tail := Translate(s[0]), Transmitted(s[1..]);
      assert Transmitted(s) == head + tail;
      forall i | 0 <= i < |head + tail| && (head + tail)[i] == '\n'
        ensures 0 < i && (head + tail)[i - 1] == '\r'
      {
        if i >= |head| {
          var k := i - |head|;
          assert tail[k] == '\n';
        }
      }
    }
  }

  /** The wire stream never starts with a bare `'\n'`. */
  lemma TransmittedHead(s: seq<char>)
    requires Transmitted(s) != []
    ensures Transmitted(s)[0] != '\n'
  {
  }

  /** The receiving side's view: a `"\r\n"` pair is read back as `'\n'`. */
  function Received(t: seq<char>): seq<char>
  {
    if t == [] then []
    else if |t| >= 2 && t[0] == '\r' && t[1] == '\n' then ['\n'] + Received(t[2..])
    else [t[0]] + Received(t[1..])
  }

  /** No information is lost: the text is recovered from the wire bytes,
      carriage returns written by the caller included. */
  lemma {:induction false} TransmittedRoundTrip(s: seq<char>)
    ensures Received(Transmitted(s)) == s
  {
    if s != [] {
      var rest := Transmitted(s[1..]);
      TransmittedRoundTrip(s[1..]);
      if s[0] == '\n' {
        assert Transmitted(s) == ['\r', '\n'] + rest;
        assert (['\r', '\n'] + rest)[2..] == rest;
      } else {
        assert Transmitted(s) == [s[0]] + rest;
        if rest != [] {
          TransmittedHead(s[1..]);
        }
        assert ([s[0]] + rest)[1..] == rest;
      }
    }
  }

  /** `ubrr = F_CPU / 16 / baud - 1` in `unsigned long` arithmetic (C's
      division truncates, which for these non-negative operands is Dafny's). */
  function Ubrr(baud: u32): u32
    requires baud > 0
  {
    (Clock.F_CPU / 16 / baud - 1) % U32
  }

  /** For rates up to F_CPU/16 the divisor is one below the truncated clock
      ratio; above that, the subtraction wraps to the largest value. */
  lemma UbrrRange(baud: u32)
    requires baud > 0
    ensures baud <= 1_000_000 ==> Ubrr(baud) + 1 == 1_000_000 / baud
    ensures baud > 1_000_000 ==> Ubrr(baud) == U32 - 1
  {
    assert Clock.F_CPU / 16 == 1_000_000;
    var q := 1_000_000 / baud;
    assert 1_000_000 == q * baud + 1_000_000 % baud;
    assert 0 <= 1_000_000 % baud < baud;
    if baud <= 1_000_000 {
      assert q >= 1;
      assert q - 1 < U32;
    } else {
      assert q == 0;
    }
  }

  /** The divisors of two common rates. */
  lemma UbrrCommonRates()
    ensures Ubrr(9600) == 103 && Ubrr(115200) == 7
  {
    assert Clock.F_CPU / 16 == 1_000_000;
  }

  /** `UBRR0H = (unsigned char)(ubrr >> 8)` */
  function HighByte(ubrr: u32): u8
  {
    (ubrr / 256) % 256
  }

  /** `UBRR0L = (unsigned char)ubrr` */
  function LowByte(ubrr: u32): u8
  {
    ubrr % 256
  }

  /** The two register bytes hold exactly the low 16 bits of the divisor. */
  lemma UbrrBytesRecombine(ubrr: u32)
    ensures 256 * HighByte(ubrr) + LowByte(ubrr) == ubrr % 0x1_0000
  {
  }
}
