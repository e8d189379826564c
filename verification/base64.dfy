/** The base64 decoder of the mobile app, against section 4 of RFC 4648. A string is a sequence of
    UTF-16 code units; a surrogate is one more character outside the alphabet. */
module Base64 {
  import opened Basics

  // ---------------------------------------------------------------- characters

  /** The position in the alphabet A-Z, a-z, 0-9, +, /; or -1, as for '='. */
  function IndexOf(c: char): (i: int)
    ensures -1 <= i < 64
  {
    if 'A' <= c <= 'Z' then c as int - 'A' as int
    else if 'a' <= c <= 'z' then c as int - 'a' as int + 26
    else if '0' <= c <= '9' then c as int - '0' as int + 52
    else if c == '+' then 62
    else if c == '/' then 63
    else -1
  }

  function CharAt(i: nat): (c: char)
    requires i < 64
  {
    if i < 26 then 'A' + i as char
    else if i < 52 then 'a' + (i - 26) as char
    else if i < 62 then '0' + (i - 52) as char
    else if i == 62 then '+' else '/'
  }

  lemma CharIndex(i: nat)
    requires i < 64
    ensures IndexOf(CharAt(i)) == i && CharAt(i) != '=' && !Space(CharAt(i))
  {
  }

  /** What \\s matches. */
  predicate Space(c: char) {
    || '\t' <= c <= '\r' || c == ' ' || c == '\U{00a0}' || c == '\U{1680}' || '\U{2000}' <= c <= '\U{200a}'
      || c == '\U{2028}'
    || c == '\U{2029}' || c == '\U{202f}' || c == '\U{205f}' || c == '\U{3000}' || c == '\U{feff}'
  }

  function Clean(s: string): string {
    if s == "" then "" else (if Space(s[0]) then "" else [s[0]]) + Clean(s[1..])
  }

  /** Cleaning drops exactly the white space, wherever it stands, and keeps every other character. */
  lemma {:induction false} CleanExactly(a: string, c: char, b: string)
    ensures Clean(a + ([c] + b)) == Clean(a) + ((if WhiteSpace(c as int) then "" else [c]) + Clean(b))
    decreases |a|
  {
    SpaceExactly(c);
    hide Space, WhiteSpace;
    if a == "" {
      assert a + ([c] + b) == [c] + b && ([c] + b)[1..] == b;
    } else {
      assert (a + ([c] + b))[1..] == a[1..] + ([c] + b);
      CleanExactly(a[1..], c, b);
    }
  }

  lemma SpaceExactly(c: char)
    ensures Space(c) <==> WhiteSpace(c as int)
  {
  }

  /** The code units ECMAScript counts as white space or line terminators. */
  predicate WhiteSpace(c: int) {
    || 9 <= c <= 13 || c == 32 || c == 160 || c == 5760 || 8192 <= c <= 8202 || c == 8232 || c == 8233
    || c == 8239 || c == 8287 || c == 12288 || c == 65279
  }

  // ---------------------------------------------------------------- four characters to three bytes

  /** The low 24 bits of (first << 18) | (second << 12) | ((third & 63) << 6) | (fourth & 63). An
      index of -1 sets every bit from its shift upwards; the two lower ones are masked to 63. */
  function Chunk(first: int, second: int, third: int, fourth: int): (chunk: nat)
    requires -1 <= first < 64 && -1 <= second < 64 && -1 <= third < 64 && -1 <= fourth < 64
    ensures chunk < 0x100_0000
  {
    (if second == -1 then 0xFFF000 else first % 64 * 0x40000 + second * 0x1000) + third % 64 * 0x40 + fourth % 64
  }

  function GroupBytes(c0: char, c1: char, c2: char, c3: char): (bytes: Bytes)
    ensures 1 <= |bytes| <= 3
  {
    var chunk := Chunk(IndexOf(c0), IndexOf(c1), IndexOf(c2), IndexOf(c3));
    [chunk / 0x10000 % 256] + (if c2 != '=' then [chunk / 0x100 % 256] else [])
      + (if c3 != '=' then [chunk % 256] else [])
  }

  /** A character that is not there reads as 'A'. */
  function At(s: string, i: nat): char { if i < |s| then s[i] else 'A' }

  function DecodeAll(clean: string): Bytes {
    if clean == "" then []
    else GroupBytes(At(clean, 0), At(clean, 1), At(clean, 2), At(clean, 3)) + DecodeAll(clean[Min(4, |clean|)..])
  }

  predicate EndsWith(s: string, t: string) { |s| >= |t| && s[|s| - |t|..] == t }

  /** How many padding characters end the string. */
  function Pads(s: string): nat { if EndsWith(s, "==") then 2 else if EndsWith(s, "=") then 1 else 0 }

  /** The length of the typed array: a fractional or slightly negative number is cut to an integer. */
  function OutputLength(clean: string): nat {
    Max(0, |clean| * 3 / 4 - Pads(clean))
  }

  /** Writes beyond the end of a typed array are dropped, places never written stay zero. */
  function Fit(bytes: Bytes, n: nat): (out: Bytes)
    ensures |out| == n
  {
    seq(n, i requires 0 <= i < n => if i < |bytes| then bytes[i] else 0)
  }

  // ---------------------------------------------------------------- the decoder

  method Base64ToBytes(base64: string) returns (bytes: array<Byte>)
    ensures fresh(bytes)
    ensures bytes[..] == Fit(DecodeAll(Clean(base64)), OutputLength(Clean(base64)))
  {
    var clean := Clean(base64);
    var length := |clean| * 3 / 4 - (if EndsWith(clean, "==") then 2 else if EndsWith(clean, "=") then 1 else 0);
    bytes := new Byte[Max(0, length)](_ => 0);
    var byteIndex, index := 0, 0;
    ghost var written: Bytes := [];
    hide GroupBytes, DecodeAll;
    while index < |clean|
      invariant 0 <= index && fresh(bytes) && bytes.Length == OutputLength(clean)
      invariant byteIndex == |written| && written + DecodeAll(clean[Min(index, |clean|)..]) == DecodeAll(clean)
      invariant bytes[..] == Fit(written, bytes.Length)
      decreases |clean| - index
    {
      NextGroup(clean, index, written);
      ghost var group := GroupBytes(clean[index], At(clean, index + 1), At(clean, index + 2), At(clean, index + 3));
      byteIndex :=
        WriteGroup(bytes, byteIndex, clean[index], At(clean, index + 1), At(clean, index + 2), At(clean, index + 3),
        written);
      written := written + group;
      index := index + 4;
    }
  }

  lemma NextGroup(clean: string, index: nat, written: Bytes)
    requires index < |clean|
    ensures written + DecodeAll(clean[index..]) ==
            (written + GroupBytes(clean[index], At(clean, index + 1), At(clean, index + 2), At(clean, index + 3)))
              + DecodeAll(clean[Min(index + 4, |clean|)..])
  {
    var rest := clean[index..];
    assert rest[Min(4, |rest|)..] == clean[Min(index + 4, |clean|)..];
    assert At(rest, 0) == clean[index] && At(rest, 1) == At(clean, index + 1) && At(rest, 2) == At(clean, index + 2)
      && At(rest, 3) == At(clean, index + 3);
    hide GroupBytes;
  }

  /** One turn of the loop: one, two or three bytes. */
  method WriteGroup(bytes: array<Byte>, byteIndex: nat, c0: char, c1: char, thirdChar: char, fourthChar: char,
      ghost written: Bytes) returns (next: nat)
    requires byteIndex == |written| && bytes[..] == Fit(written, bytes.Length)
    modifies bytes
    ensures bytes[..] == Fit(written + GroupBytes(c0, c1, thirdChar, fourthChar), bytes.Length)
    ensures next == |written + GroupBytes(c0, c1, thirdChar, fourthChar)|
  {
    var chunk := Chunk(IndexOf(c0), IndexOf(c1), IndexOf(thirdChar), IndexOf(fourthChar));
    hide Fit;
    next := byteIndex;
    ghost var done := written;
    Write(bytes, next, chunk / 0x10000 % 256, done);
    next, done := next + 1, done + [chunk / 0x10000 % 256];
    if thirdChar != '=' {
      Write(bytes, next, chunk / 0x100 % 256, done);
      next, done := next + 1, done + [chunk / 0x100 % 256];
    }
    if fourthChar != '=' {
      Write(bytes, next, chunk % 256, done);
      next, done := next + 1, done + [chunk % 256];
    }
    assert done == written + GroupBytes(c0, c1, thirdChar, fourthChar);
  }

  /** bytes[i] = value on a typed array. */
  method Write(bytes: array<Byte>, i: nat, value: Byte, ghost written: Bytes)
    requires i == |written| && bytes[..] == Fit(written, bytes.Length)
    modifies bytes
    ensures bytes[..] == Fit(written + [value], bytes.Length)
  {
    if i < bytes.Length { bytes[i] := value; }
  }

  // ---------------------------------------------------------------- bounds

  lemma {:induction false} GroupsFit(clean: string)
    requires |clean| % 4 == 0
    ensures |DecodeAll(clean)| <= OutputLength(clean)
    decreases |clean|
  {
    if |clean| == 4 {
      assert clean[4..] == "";
      assert clean[3..] == [clean[3]] && clean[2..] == [clean[2], clean[3]];
    } else if clean != "" {
      var rest := clean[4..];
      GroupsFit(rest);
      assert rest[|rest| - 1..] == clean[|clean| - 1..] && rest[|rest| - 2..] == clean[|clean| - 2..];
    }
  }

  /** With whole groups no byte is dropped, whatever the characters are. */
  lemma NothingDropped(clean: string)
    requires |clean| % 4 == 0
    ensures DecodeAll(clean) <= Fit(DecodeAll(clean), OutputLength(clean))
  {
    GroupsFit(clean);
  }

  // ---------------------------------------------------------------- the inverse

  /** Three bytes as four characters, section 4 of RFC 4648. */
  function Quad(b0: Byte, b1: Byte, b2: Byte): (q: string)
    ensures |q| == 4
  {
    [CharAt(b0 / 4), CharAt(b0 % 4 * 16 + b1 / 16), CharAt(b1 % 16 * 4 + b2 / 64), CharAt(b2 % 64)]
  }

  /** The rest of one or two bytes, padded. */
  function Tail(bytes: Bytes): (q: string)
    requires 1 <= |bytes| <= 2
    ensures |q| == 4
  {
    if |bytes| == 1 then [CharAt(bytes[0] / 4), CharAt(bytes[0] % 4 * 16), '=', '=']
    else [CharAt(bytes[0] / 4), CharAt(bytes[0] % 4 * 16 + bytes[1] / 16), CharAt(bytes[1] % 16 * 4), '=']
  }

  function Encode(bytes: Bytes): string {
    if bytes == [] then "" else if |bytes| <= 2 then Tail(bytes)
    else Quad(bytes[0], bytes[1], bytes[2]) + Encode(bytes[3..])
  }

  lemma Reassembled(chunk: nat, b0: Byte, b1: Byte, b2: Byte)
    requires chunk == b0 * 0x10000 + b1 * 0x100 + b2
    ensures chunk / 0x10000 % 256 == b0 && chunk / 0x100 % 256 == b1 && chunk % 256 == b2
  {
    assert chunk / 0x10000 == b0;
    assert chunk / 0x100 == b0 * 256 + b1;
  }

  /** The six-bit groups of three bytes put together again; c and d may be padding. */
  lemma Sextets(b0: Byte, b1: Byte, b2: Byte)
    ensures Chunk(b0 / 4, b0 % 4 * 16 + b1 / 16, b1 % 16 * 4 + b2 / 64, b2 % 64) == b0 * 0x10000 + b1 * 0x100 + b2
  {
    var a, r := b0 / 4, b0 % 4;
    var b, s := b1 / 16, b1 % 16;
    var c, t := b2 / 64, b2 % 64;
    assert a % 64 == a && (s * 4 + c) % 64 == s * 4 + c && t % 64 == t;
    assert b0 == 4 * a + r && b1 == 16 * b + s && b2 == 64 * c + t;
  }

  lemma QuadDecodes(b0: Byte, b1: Byte, b2: Byte)
    ensures var q := Quad(b0, b1, b2); GroupBytes(q[0], q[1], q[2], q[3]) == [b0, b1, b2]
  {
    CharIndex(b0 / 4);
    CharIndex(b0 % 4 * 16 + b1 / 16);
    CharIndex(b1 % 16 * 4 + b2 / 64);
    CharIndex(b2 % 64);
    Sextets(b0, b1, b2);
    hide CharAt, IndexOf, Chunk;
    Reassembled(Chunk(b0 / 4, b0 % 4 * 16 + b1 / 16, b1 % 16 * 4 + b2 / 64, b2 % 64), b0, b1, b2);
  }

  /** Padding reads as 63: the bits below the last byte are ones, and are not written. */
  lemma PaddedSextets(first: nat, second: nat, third: nat)
    requires first < 64 && second < 64 && third < 64
    ensures Chunk(first, second, third, -1) == Chunk(first, second, third, 63)
            && Chunk(first, second, -1, -1) == Chunk(first, second, 63, 63)
  {
  }

  lemma TailDecodes(bytes: Bytes)
    requires 1 <= |bytes| <= 2
    ensures var q := Tail(bytes); GroupBytes(q[0], q[1], q[2], q[3]) == bytes
  {
    var b0: int := bytes[0];
    CharIndex(b0 / 4);
    if |bytes| == 1 {
      CharIndex(b0 % 4 * 16);
      PaddedSextets(b0 / 4, b0 % 4 * 16, 0);
      Sextets(b0, 15, 255);
      Shifted(b0 / 4, b0 % 4 * 16, 63, 63, b0 * 0x10000 + 0xFFF);
      hide CharAt, Chunk;
      Reassembled(Chunk(b0 / 4, b0 % 4 * 16, 63, 63), b0, 15, 255);
    } else {
      var b1 := bytes[1];
      CharIndex(b0 % 4 * 16 + b1 / 16);
      CharIndex(b1 % 16 * 4);
      PaddedSextets(b0 / 4, b0 % 4 * 16 + b1 / 16, b1 % 16 * 4);
      Sextets(b0, b1, 63);
      hide CharAt, Chunk;
      Reassembled(Chunk(b0 / 4, b0 % 4 * 16 + b1 / 16, b1 % 16 * 4, 63), b0, b1, 63);
    }
  }

  lemma Shifted(first: nat, second: nat, third: nat, fourth: nat, chunk: nat)
    requires first < 64 && second < 64 && third < 64 && fourth < 64
    requires chunk == first * 0x40000 + second * 0x1000 + third * 0x40 + fourth
    ensures Chunk(first, second, third, fourth) == chunk
  {
  }

  lemma FirstGroup(q: string, rest: string)
    requires |q| == 4
    ensures DecodeAll(q + rest) == GroupBytes(q[0], q[1], q[2], q[3]) + DecodeAll(rest)
  {
    assert (q + rest)[4..] == rest;
    hide GroupBytes;
  }

  lemma {:induction false} DecodesEncoding(bytes: Bytes)
    ensures DecodeAll(Encode(bytes)) == bytes
    decreases |bytes|
  {
    hide GroupBytes, Quad, Tail;
    if bytes != [] && |bytes| <= 2 {
      TailDecodes(bytes);
      FirstGroup(Tail(bytes), "");
      assert Tail(bytes) + "" == Tail(bytes);
      assert DecodeAll("") == [];
    } else if bytes != [] {
      QuadDecodes(bytes[0], bytes[1], bytes[2]);
      FirstGroup(Quad(bytes[0], bytes[1], bytes[2]), Encode(bytes[3..]));
      DecodesEncoding(bytes[3..]);
      assert bytes == [bytes[0], bytes[1], bytes[2]] + bytes[3..];
    }
  }

  lemma PadsOfTail(bytes: Bytes)
    requires 1 <= |bytes| <= 2
    ensures Pads(Tail(bytes)) == 3 - |bytes|
  {
    var s := Tail(bytes);
    assert s[3..] == [s[3]] && s[2..] == [s[2], s[3]];
    if |bytes| == 2 { CharIndex(bytes[1] % 16 * 4); }
  }

  lemma PadsOfQuad(b0: Byte, b1: Byte, b2: Byte)
    ensures Pads(Quad(b0, b1, b2)) == 0
  {
    var s := Quad(b0, b1, b2);
    CharIndex(b2 % 64);
    assert s[3..] == [s[3]] && s[2..] == [s[2], s[3]];
  }

  lemma PadsOfMore(q: string, rest: string)
    requires |rest| >= 2
    ensures Pads(q + rest) == Pads(rest)
  {
    var s := q + rest;
    assert s[|s| - 1..] == rest[|rest| - 1..] && s[|s| - 2..] == rest[|rest| - 2..];
  }

  /** The precomputed length of an encoding is the number of bytes it encodes. */
  lemma {:induction false} LengthOfEncoding(bytes: Bytes)
    ensures |Encode(bytes)| % 4 == 0 && (bytes != [] ==> |Encode(bytes)| >= 4)
            && |Encode(bytes)| / 4 * 3 == |bytes| + Pads(Encode(bytes))
    decreases |bytes|
  {
    hide Quad, Tail, Pads;
    if bytes == [] {
      assert Pads("") == 0 by { NoPads(); }
    } else if |bytes| <= 2 {
      PadsOfTail(bytes);
    } else {
      LengthOfEncoding(bytes[3..]);
      var q := Quad(bytes[0], bytes[1], bytes[2]);
      if bytes[3..] == [] {
        PadsOfQuad(bytes[0], bytes[1], bytes[2]);
        assert q + "" == q;
        NoPads();
      } else {
        PadsOfMore(q, Encode(bytes[3..]));
      }
    }
  }

  lemma NoPads()
    ensures Pads("") == 0
  {
  }

  /** `s` is `t` with whitespace inserted anywhere. */
  predicate Spread(s: string, t: string) {
    if s == "" then t == ""
    else (Space(s[0]) && Spread(s[1..], t)) || (t != "" && s[0] == t[0] && Spread(s[1..], t[1..]))
  }

  predicate NoSpace(t: string) { forall i :: 0 <= i < |t| ==> !Space(t[i]) }

  lemma {:induction false} SpreadCleans(s: string, t: string)
    requires Spread(s, t) && NoSpace(t)
    ensures Clean(s) == t
    decreases |s|
  {
    if s != "" {
      if Space(s[0]) { SpreadCleans(s[1..], t); } else { SpreadCleans(s[1..], t[1..]); }
    }
  }

  lemma QuadHasNoSpace(b0: Byte, b1: Byte, b2: Byte)
    ensures NoSpace(Quad(b0, b1, b2))
  {
    CharIndex(b0 / 4);
    CharIndex(b0 % 4 * 16 + b1 / 16);
    CharIndex(b1 % 16 * 4 + b2 / 64);
    CharIndex(b2 % 64);
    hide CharAt, IndexOf;
  }

  lemma TailHasNoSpace(bytes: Bytes)
    requires 1 <= |bytes| <= 2
    ensures NoSpace(Tail(bytes))
  {
    CharIndex(bytes[0] / 4);
    if |bytes| == 1 {
      CharIndex(bytes[0] % 4 * 16);
    } else {
      CharIndex(bytes[0] % 4 * 16 + bytes[1] / 16);
      CharIndex(bytes[1] % 16 * 4);
    }
    hide CharAt, IndexOf;
  }

  lemma {:induction false} EncodingHasNoSpace(bytes: Bytes)
    ensures NoSpace(Encode(bytes))
    decreases |bytes|
  {
    hide Quad, Tail, Space;
    if bytes != [] && |bytes| <= 2 {
      TailHasNoSpace(bytes);
    } else if bytes != [] {
      QuadHasNoSpace(bytes[0], bytes[1], bytes[2]);
      EncodingHasNoSpace(bytes[3..]);
    }
  }

  /** Decoding an encoding with whitespace inserted anywhere returns the bytes: none dropped, none left zero. */
  lemma DecodingInverts(bytes: Bytes, s: string)
    requires Spread(s, Encode(bytes))
    ensures Fit(DecodeAll(Clean(s)), OutputLength(Clean(s))) == bytes && |DecodeAll(Clean(s))| == OutputLength(Clean(s))
  {
    EncodingHasNoSpace(bytes);
    SpreadCleans(s, Encode(bytes));
    DecodesEncoding(bytes);
    LengthOfEncoding(bytes);
    hide Encode, DecodeAll, Clean, Spread;
    assert OutputLength(Encode(bytes)) == |bytes|;
  }
}
