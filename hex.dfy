/**
 * The cookie-key codec of src/main.rs: `bin2hex` writes each byte as two
 * upper-case hexadecimal digits (base16, section 8 of RFC 4648) and `hex2bin`
 * reads them back two characters at a time with `u8::from_str_radix`.
 */
module Hex {
  import opened Wrappers

  type byte = x: int | 0 <= x < 256

  predicate IsHexDigit(c: char) { '0' <= c <= '9' || 'A' <= c <= 'F' || 'a' <= c <= 'f' }

  predicate IsUpperHexDigit(c: char) { '0' <= c <= '9' || 'A' <= c <= 'F' }

  function DigitValue(c: char): (n: int)
    requires IsHexDigit(c)
    ensures 0 <= n < 16
  {
    if '0' <= c <= '9' then c as int - '0' as int
    else if 'A' <= c <= 'F' then c as int - 'A' as int + 10
    else c as int - 'a' as int + 10
  }

  /** One nibble as `{:X}` prints it. */
  function UpperDigit(n: int): (c: char)
    requires 0 <= n < 16
    ensures IsUpperHexDigit(c) && DigitValue(c) == n
  {
    if n < 10 then ('0' as int + n) as char else ('A' as int + n - 10) as char
  }

  /**
   * `u8::from_str_radix(pair, 16)` on a two-character slice: an optional `+`
   * sign and then hexadecimal digits of either case.
   */
  function ParseByte(hi: char, lo: char): (r: Option<byte>)
    ensures IsHexDigit(hi) && IsHexDigit(lo) ==> r == Some(16 * DigitValue(hi) + DigitValue(lo))
    ensures hi == '+' && IsHexDigit(lo) ==> r == Some(DigitValue(lo))
    ensures r.None? <==> !(IsHexDigit(lo) && (hi == '+' || IsHexDigit(hi)))
  {
    if hi == '+' then (if IsHexDigit(lo) then Some(DigitValue(lo)) else None)
    else if IsHexDigit(hi) && IsHexDigit(lo) then Some(16 * DigitValue(hi) + DigitValue(lo))
    else None
  }

  /** `write!(output, "{b:02X}")`: two upper-case digits, high nibble first. */
  function ByteToHex(b: byte): (r: string)
    ensures |r| == 2 && ParseByte(r[0], r[1]) == Some(b)
  {
    [UpperDigit(b / 16), UpperDigit(b % 16)]
  }

  /** `bin2hex`: the fold that appends each byte's two digits in byte order. */
  function Bin2Hex(bytes: seq<byte>): (r: string)
    ensures |r| == 2 * |bytes|
    ensures forall i :: 0 <= i < |bytes| ==> r[2 * i] == UpperDigit(bytes[i] / 16) && r[2 * i + 1] == UpperDigit(bytes[i] % 16)
    ensures forall j :: 0 <= j < |r| ==> IsUpperHexDigit(r[j])
  {
    if |bytes| == 0 then "" else ByteToHex(bytes[0]) + Bin2Hex(bytes[1..])
  }

  /** What `hex2bin` accepts without panicking: whole pairs, each of which parses. */
  predicate WellFormed(hex: string)
  {
    |hex| == 0 || (|hex| >= 2 && ParseByte(hex[0], hex[1]).Some? && WellFormed(hex[2..]))
  }

  /** `hex2bin`: one byte per pair of characters, in order. */
  function Hex2Bin(hex: string): (r: seq<byte>)
    requires WellFormed(hex)
    ensures 2 * |r| == |hex|
    ensures forall i :: 0 <= i < |r| ==> ParseByte(hex[2 * i], hex[2 * i + 1]) == Some(r[i])
  {
    if |hex| == 0 then [] else [ParseByte(hex[0], hex[1]).value] + Hex2Bin(hex[2..])
  }

  /** The precondition of `hex2bin` in plain terms: even length and every pair parses. */
  lemma {:induction false} WellFormedIff(hex: string)
    ensures WellFormed(hex) <==>
      |hex| % 2 == 0 && forall i :: 0 <= i < |hex| / 2 ==> ParseByte(hex[2 * i], hex[2 * i + 1]).Some?
  {
    if |hex| >= 2 {
      var tail := hex[2..];
      WellFormedIff(tail);
      if WellFormed(hex) {
        forall i | 0 <= i < |hex| / 2 ensures ParseByte(hex[2 * i], hex[2 * i + 1]).Some? {
          if i > 0 {
            assert hex[2 * i] == tail[2 * (i - 1)] && hex[2 * i + 1] == tail[2 * (i - 1) + 1];
          }
        }
      }
      if |hex| % 2 == 0 && forall i :: 0 <= i < |hex| / 2 ==> ParseByte(hex[2 * i], hex[2 * i + 1]).Some? {
        assert ParseByte(hex[2 * 0], hex[2 * 0 + 1]).Some?;
        forall j | 0 <= j < |tail| / 2 ensures ParseByte(tail[2 * j], tail[2 * j + 1]).Some? {
          assert tail[2 * j] == hex[2 * (j + 1)] && tail[2 * j + 1] == hex[2 * (j + 1) + 1];
        }
      }
    } else if |hex| == 1 {
      assert |hex| % 2 == 1;
    }
  }

  /** Decoding what `bin2hex` wrote gives back the original bytes. */
  lemma {:induction false} HexRoundTrip(bytes: seq<byte>)
    ensures WellFormed(Bin2Hex(bytes)) && Hex2Bin(Bin2Hex(bytes)) == bytes
  {
    if |bytes| > 0 {
      HexRoundTrip(bytes[1..]);
      var h := Bin2Hex(bytes);
      assert h == ByteToHex(bytes[0]) + Bin2Hex(bytes[1..]);
      assert h[2..] == Bin2Hex(bytes[1..]);
      assert ParseByte(h[0], h[1]) == Some(bytes[0]);
      assert bytes == [bytes[0]] + bytes[1..];
    }
  }

  /** Text in the form `bin2hex` produces: upper-case digits in whole pairs. */
  predicate IsCanonical(hex: string)
  {
    |hex| % 2 == 0 && forall j :: 0 <= j < |hex| ==> IsUpperHexDigit(hex[j])
  }

  /** A canonical pair is the printing of the byte it parses to. */
  lemma CanonicalPair(hi: char, lo: char)
    requires IsUpperHexDigit(hi) && IsUpperHexDigit(lo)
    ensures ParseByte(hi, lo).Some? && ByteToHex(ParseByte(hi, lo).value) == [hi, lo]
  {
  }

  /** On canonical text the codec is inverse the other way round too. */
  lemma {:induction false} CanonicalRoundTrip(hex: string)
    requires IsCanonical(hex)
    ensures WellFormed(hex) && Bin2Hex(Hex2Bin(hex)) == hex
  {
    if |hex| > 0 {
      var tail := hex[2..];
      assert IsCanonical(tail) by {
        forall j | 0 <= j < |tail| ensures IsUpperHexDigit(tail[j]) {
          assert tail[j] == hex[j + 2];
        }
      }
      CanonicalRoundTrip(tail);
      assert IsUpperHexDigit(hex[0]) && IsUpperHexDigit(hex[1]);
      CanonicalPair(hex[0], hex[1]);
      var b := ParseByte(hex[0], hex[1]).value;
      var bytes := Hex2Bin(hex);
      assert bytes == [b] + Hex2Bin(tail);
      assert bytes[1..] == Hex2Bin(tail);
      assert Bin2Hex(bytes) == ByteToHex(b) + Bin2Hex(bytes[1..]);
      assert hex == [hex[0], hex[1]] + tail;
    }
  }

  /** `from_str_radix` also takes a sign and lower-case digits, so decoding is not injective. */
  lemma NonCanonicalInputs()
    ensures WellFormed("+F") && Hex2Bin("+F") == [15] && Bin2Hex([15]) == "0F"
    ensures WellFormed("ff") && Hex2Bin("ff") == [255] && Bin2Hex([255]) == "FF"
  {
  }
}

/**
 * The session-id check of src/main.rs. Rust's `str::len` counts UTF-8 bytes,
 * so the check is on the encoded length, not on the number of characters.
 */
module SessionId {
  const SESSION_ID_BYTES: nat := 64

  /** The alphabet `nanoid!` draws generated ids from: `_-0-9a-zA-Z`. */
  predicate IsNanoidChar(c: char)
  {
    c == '_' || c == '-' || '0' <= c <= '9' || 'a' <= c <= 'z' || 'A' <= c <= 'Z'
  }

  /** Bytes one character takes in UTF-8. */
  function Utf8Width(c: char): (n: nat)
    ensures 1 <= n <= 4
    ensures n == 1 <==> (c as int) < 0x80
  {
    if (c as int) < 0x80 then 1 else if (c as int) < 0x800 then 2 else if (c as int) < 0x1_0000 then 3 else 4
  }

  function Utf8Len(s: string): (n: nat)
    ensures n >= |s|
  {
    if |s| == 0 then 0 else Utf8Width(s[0]) + Utf8Len(s[1..])
  }

  /**
   * `verify_session_id`: the id is exactly 64 bytes long. No id of more than
   * 64 characters passes, and an ASCII id passes exactly when it has 64.
   */
  function VerifySessionId(sid: string): (ok: bool)
    ensures ok ==> |sid| <= SESSION_ID_BYTES
    ensures IsAscii(sid) ==> (ok <==> |sid| == SESSION_ID_BYTES)
  {
    Utf8LenIsLengthIffAscii(sid);
    Utf8Len(sid) == SESSION_ID_BYTES
  }

  predicate IsAscii(s: string)
  {
    forall i :: 0 <= i < |s| ==> (s[i] as int) < 0x80
  }

  /** Encoded length equals character count exactly for ASCII text. */
  lemma {:induction false} Utf8LenIsLengthIffAscii(s: string)
    ensures Utf8Len(s) == |s| <==> IsAscii(s)
  {
    if |s| > 0 {
      Utf8LenIsLengthIffAscii(s[1..]);
      if IsAscii(s) {
        assert IsAscii(s[1..]) by {
          forall i | 0 <= i < |s| - 1 ensures (s[1..][i] as int) < 0x80 {
            assert s[1..][i] == s[i + 1];
          }
        }
      } else if Utf8Width(s[0]) == 1 {
        var i :| 0 <= i < |s| && (s[i] as int) >= 0x80;
        assert s[1..][i - 1] == s[i];
      }
    }
  }

  /** Every id the server generates (64 characters of the nanoid alphabet) passes the check. */
  lemma GeneratedIdsVerify(sid: string)
    requires |sid| == 64
    requires forall i :: 0 <= i < |sid| ==> IsNanoidChar(sid[i])
    ensures VerifySessionId(sid)
  {
    Utf8LenIsLengthIffAscii(sid);
  }

  /** Sixty-four characters are not enough when some of them take more than one byte. */
  lemma MultibyteIdRejected(sid: string)
    requires |sid| == 64 && !IsAscii(sid)
    ensures !VerifySessionId(sid)
  {
    Utf8LenIsLengthIffAscii(sid);
  }
}
