/**
  Hexadecimal text for binary payloads: `bytes.hex()` (lower-case, two digits per byte) and
  `bytes.fromhex`, which screen frames and file chunks travel through inside JSON messages.
 */
module HexText {
  import opened Wrappers
  import opened Bytes

  function HexDigit(n: nat): char
    requires n < 16
  {
    if n < 10 then ('0' as int + n) as char else ('a' as int + n - 10) as char
  }

  /** `bytes.hex()` */
  function Hex(b: seq<byte>): (r: string)
    ensures |r| == 2 * |b|
  {
    if b == [] then [] else [HexDigit(b[0] as nat / 16), HexDigit(b[0] as nat % 16)] + Hex(b[1..])
  }

  predicate IsHexDigit(c: char)
  {
    ('0' <= c <= '9') || ('a' <= c <= 'f') || ('A' <= c <= 'F')
  }

  /** Hexadecimal text without whitespace: pairs of digits, as `bytes.hex()` prints it. */
  predicate IsHexText(s: string)
  {
    |s| % 2 == 0 && forall i :: 0 <= i < |s| ==> IsHexDigit(s[i])
  }

  lemma {:induction false} HexIsHexText(b: seq<byte>)
    ensures IsHexText(Hex(b))
  {
    if b != [] {
      HexIsHexText(b[1..]);
      var r := Hex(b);
      assert r == [HexDigit(b[0] as nat / 16), HexDigit(b[0] as nat % 16)] + Hex(b[1..]);
      forall i | 0 <= i < |r| ensures IsHexDigit(r[i]) {
        if i >= 2 {
          assert r[i] == Hex(b[1..])[i - 2];
        }
      }
    }
  }

  /** The value of one hexadecimal digit, either case. */
  function DigitValue(c: char): (n: nat)
    requires IsHexDigit(c)
    ensures n < 16
  {
    if '0' <= c <= '9' then c as int - '0' as int
    else if 'a' <= c <= 'f' then c as int - 'a' as int + 10
    else c as int - 'A' as int + 10
  }

  /** Text made of pairs of hex digits: the empty text, or one pair before more such text. */
  lemma HexTextCons(s: string)
    requires |s| >= 2
    ensures IsHexText(s) <==> IsHexDigit(s[0]) && IsHexDigit(s[1]) && IsHexText(s[2..])
  {
    if IsHexDigit(s[0]) && IsHexDigit(s[1]) && IsHexText(s[2..]) {
      forall i | 0 <= i < |s| ensures IsHexDigit(s[i]) {
        if i >= 2 {
          assert s[i] == s[2..][i - 2];
        }
      }
    }
  }

  /** The ASCII whitespace `bytes.fromhex` skips: space, tab, line feed, vertical tab, form feed, carriage return. */
  predicate IsHexSpace(c: char)
  {
    c == ' ' || ('\t' <= c <= '\r')
  }

  /** The text with its whitespace removed. */
  function Unspaced(s: string): (r: string)
    ensures |r| <= |s|
    ensures forall i :: 0 <= i < |r| ==> !IsHexSpace(r[i])
  {
    if s == [] then []
    else (if IsHexSpace(s[0]) then [] else [s[0]]) + Unspaced(s[1..])
  }

  lemma {:induction false} UnspacedAppend(a: string, b: string)
    ensures Unspaced(a + b) == Unspaced(a) + Unspaced(b)
  {
    if a == [] {
      assert a + b == b;
    } else {
      var ab := a + b;
      assert ab[0] == a[0] && ab[1..] == a[1..] + b;
      UnspacedAppend(a[1..], b);
    }
  }

  /** Every whitespace character of the text stands after a whole number of bytes. */
  predicate BetweenBytes(s: string)
  {
    forall i :: 0 <= i < |s| && IsHexSpace(s[i]) ==> |Unspaced(s[..i])| % 2 == 0
  }

  /**
    The text `bytes.fromhex` accepts: without its whitespace it is hexadecimal text, and every
    whitespace character stands between two bytes, never between the two digits of one.
   */
  predicate SpacedHexText(s: string)
  {
    IsHexText(Unspaced(s)) && BetweenBytes(s)
  }

  /**
    `bytes.fromhex(s)`: whitespace before a byte is skipped; None where it raises ValueError
    (a character that is neither whitespace nor a digit, whitespace inside a byte, or a lone
    last digit).
   */
  function FromHex(s: string): (r: Option<seq<byte>>)
    ensures r.Some? <==> SpacedHexText(s)
    ensures r.Some? ==> 2 * |r.value| == |Unspaced(s)|
    decreases |s|
  {
    if s == [] then
      assert SpacedHexText(s);
      Some([])
    else if IsHexSpace(s[0]) then
      LeadingSpace(s);
      FromHex(s[1..])
    else if |s| < 2 || !IsHexDigit(s[0]) || !IsHexDigit(s[1]) then
      NoLeadingByte(s);
      None
    else
      LeadingByte(s);
      match FromHex(s[2..])
      case None => None
      case Some(rest) => Some([(16 * DigitValue(s[0]) + DigitValue(s[1])) as byte] + rest)
  }

  /** How the count of non-whitespace characters before each position shifts past the first `k`. */
  lemma {:induction false} PrefixShift(s: string, k: nat, i: nat)
    requires k <= i <= |s|
    ensures |Unspaced(s[..i])| == |Unspaced(s[..k])| + |Unspaced(s[k..][..i - k])|
  {
    assert s[..i] == s[..k] + s[k..][..i - k];
    UnspacedAppend(s[..k], s[k..][..i - k]);
  }

  /** Whitespace in front: skipped, with no effect on acceptance. */
  lemma LeadingSpace(s: string)
    requires s != [] && IsHexSpace(s[0])
    ensures Unspaced(s) == Unspaced(s[1..])
    ensures SpacedHexText(s) <==> SpacedHexText(s[1..])
  {
    assert Unspaced(s[..1]) == [] by { assert s[..1] == [s[0]]; }
    if BetweenBytes(s[1..]) {
      forall i | 0 <= i < |s| && IsHexSpace(s[i]) ensures |Unspaced(s[..i])| % 2 == 0 {
        if i >= 1 {
          PrefixShift(s, 1, i);
          assert s[1..][i - 1] == s[i];
        } else {
          assert s[..i] == [];
        }
      }
    }
    if BetweenBytes(s) {
      forall i | 0 <= i < |s[1..]| && IsHexSpace(s[1..][i]) ensures |Unspaced(s[1..][..i])| % 2 == 0 {
        PrefixShift(s, 1, i + 1);
        assert s[i + 1] == s[1..][i];
      }
    }
  }

  /** A non-whitespace character in front that does not start a pair of digits: refused. */
  lemma NoLeadingByte(s: string)
    requires s != [] && !IsHexSpace(s[0]) && (|s| < 2 || !IsHexDigit(s[0]) || !IsHexDigit(s[1]))
    ensures !SpacedHexText(s)
  {
    var u := Unspaced(s);
    assert u == [s[0]] + Unspaced(s[1..]);
    if |s| < 2 {
      assert s[1..] == [];
    } else if !IsHexDigit(s[0]) {
      assert u[0] == s[0];
    } else if IsHexSpace(s[1]) {
      assert s[..1] == [s[0]];
      assert Unspaced(s[..1]) == [s[0]] + Unspaced(s[..1][1..]);
      assert s[..1][1..] == [];
    } else {
      assert Unspaced(s[1..]) == [s[1]] + Unspaced(s[2..]) by { assert s[1..][1..] == s[2..]; }
      assert u[1] == s[1];
    }
  }

  /** A pair of digits in front: one byte, with the rest of the text accepted or refused on its own. */
  lemma LeadingByte(s: string)
    requires |s| >= 2 && IsHexDigit(s[0]) && IsHexDigit(s[1])
    ensures Unspaced(s) == s[..2] + Unspaced(s[2..])
    ensures SpacedHexText(s) <==> SpacedHexText(s[2..])
  {
    LeadingPairUnspaced(s);
    var u := Unspaced(s);
    HexTextCons(u);
    assert u[2..] == Unspaced(s[2..]);
    SpacesAfterPair(s);
  }

  lemma LeadingPairUnspaced(s: string)
    requires |s| >= 2 && !IsHexSpace(s[0]) && !IsHexSpace(s[1])
    ensures Unspaced(s) == s[..2] + Unspaced(s[2..])
  {
    assert s == s[..2] + s[2..];
    UnspacedAppend(s[..2], s[2..]);
    assert Unspaced(s[..2]) == s[..2] by {
      assert s[..2][1..] == [s[1]] && [s[1]][1..] == [];
    }
  }

  lemma SpacesAfterPair(s: string)
    requires |s| >= 2 && !IsHexSpace(s[0]) && !IsHexSpace(s[1])
    ensures BetweenBytes(s) <==> BetweenBytes(s[2..])
  {
    LeadingPairUnspaced(s[..2]);
    assert |Unspaced(s[..2])| == 2 by { assert s[..2][2..] == []; }
    if BetweenBytes(s[2..]) {
      forall i | 0 <= i < |s| && IsHexSpace(s[i]) ensures |Unspaced(s[..i])| % 2 == 0 {
        PrefixShift(s, 2, i);
        assert s[2..][i - 2] == s[i];
      }
    }
    if BetweenBytes(s) {
      forall i | 0 <= i < |s[2..]| && IsHexSpace(s[2..][i]) ensures |Unspaced(s[2..][..i])| % 2 == 0 {
        PrefixShift(s, 2, i + 2);
        assert s[i + 2] == s[2..][i];
      }
    }
  }

  /** Whitespace between bytes changes nothing: the text decodes as it does without it. */
  lemma {:induction false} FromHexIgnoresSpaces(s: string)
    requires SpacedHexText(s)
    ensures FromHex(Unspaced(s)) == FromHex(s)
    decreases |s|
  {
    if s != [] {
      if IsHexSpace(s[0]) {
        LeadingSpace(s);
        FromHexIgnoresSpaces(s[1..]);
      } else {
        if |s| < 2 || !IsHexDigit(s[0]) || !IsHexDigit(s[1]) {
          NoLeadingByte(s);
          assert false;
        }
        LeadingByte(s);
        FromHexIgnoresSpaces(s[2..]);
        var u := Unspaced(s);
        LeadingByte(u);
        UnspacedIdempotent(s[2..]);
        assert u[2..] == Unspaced(s[2..]);
      }
    }
  }

  /** Text without whitespace is its own unspaced form. */
  lemma {:induction false} UnspacedIdempotent(s: string)
    ensures Unspaced(Unspaced(s)) == Unspaced(s)
  {
    if s != [] {
      UnspacedIdempotent(s[1..]);
      UnspacedAppend(if IsHexSpace(s[0]) then [] else [s[0]], Unspaced(s[1..]));
    }
  }

  /** Hexadecimal text without whitespace is accepted whole, one byte per two digits. */
  lemma HexTextAccepted(s: string)
    requires IsHexText(s)
    ensures FromHex(s).Some? && 2 * |FromHex(s).value| == |s|
  {
    UnspacedNoSpaces(s);
  }

  lemma {:induction false} UnspacedNoSpaces(s: string)
    requires forall i :: 0 <= i < |s| ==> !IsHexSpace(s[i])
    ensures Unspaced(s) == s
  {
    if s != [] {
      UnspacedNoSpaces(s[1..]);
    }
  }

  /** Decoding what `bytes.hex()` printed gives the bytes back. */
  lemma {:induction false} FromHexHex(b: seq<byte>)
    ensures FromHex(Hex(b)) == Some(b)
  {
    if b != [] {
      FromHexHex(b[1..]);
      var x := b[0] as nat;
      var s := Hex(b);
      assert s[2..] == Hex(b[1..]);
      assert DigitValue(s[0]) == x / 16 && DigitValue(s[1]) == x % 16;
      assert b == [b[0]] + b[1..];
    }
  }
}
