/** Open files with a position, and the checksums read from them. */
module Checksums {
  type Byte = x: int | 0 <= x < 256

  /** One character in UTF-8. */
  function Utf8Char(c: char): seq<Byte> {
    var n := c as int;
    if n < 0x80 then [n]
    else if n < 0x800 then [0xC0 + n / 0x40, 0x80 + n % 0x40]
    else if n < 0x1_0000 then [0xE0 + n / 0x1000, 0x80 + n / 0x40 % 0x40, 0x80 + n % 0x40]
    else [0xF0 + n / 0x4_0000, 0x80 + n / 0x1000 % 0x40, 0x80 + n / 0x40 % 0x40, 0x80 + n % 0x40]
  }

  function Utf8(text: string): seq<Byte> {
    if text == "" then [] else Utf8Char(text[0]) + Utf8(text[1..])
  }

  predicate Ascii(text: string) {
    forall i :: 0 <= i < |text| ==> text[i] as int < 0x80
  }

  /** A text has at least as many bytes as characters, and just as many if and only if it is ASCII. */
  lemma {:induction false} Utf8Length(text: string)
    ensures |Utf8(text)| >= |text|
    ensures |Utf8(text)| == |text| <==> Ascii(text)
  {
    if text != "" {
      Utf8Length(text[1..]);
      assert forall i :: 0 < i < |text| ==> text[i] == text[1..][i - 1];
    }
  }

  /** The lead byte tells how many follow, and together they are the character. */
  lemma Utf8Reads(c: char)
    ensures var u, n := Utf8Char(c), c as int;
            && 1 <= |u| <= 4
            && (|u| == 1 ==> u[0] == n < 0x80)
            && (|u| == 2 ==> 0xC0 <= u[0] < 0xE0 && n == 0x40 * (u[0] as int) + (u[1] as int) - 0x3080)
            && (|u| == 3 ==> 0xE0 <= u[0] < 0xF0)
            && (|u| == 3 ==> n == 0x1000 * (u[0] as int) + 0x40 * (u[1] as int) + (u[2] as int) - 0xE2080)
            && (|u| == 4 ==> 0xF0 <= u[0])
            && (|u| == 4 ==> n == 0x4_0000 * (u[0] as int) + 0x1000 * (u[1] as int) + 0x40 * (u[2] as int)
                                  + (u[3] as int) - 0x3C82080)
  {
    var n := c as int;
    Base64(n);
    Base64(n / 0x40);
    Base64(n / 0x1000);
  }

  lemma Base64(n: nat)
    ensures n == 0x40 * (n / 0x40) + n % 0x40
    ensures n / 0x40 / 0x40 == n / 0x1000 && n / 0x1000 / 0x40 == n / 0x4_0000
  {
  }

  lemma Utf8Parts(c: char, d: char, s: seq<Byte>, t: seq<Byte>)
    requires Utf8Char(c) + s == Utf8Char(d) + t
    ensures c == d && s == t
  {
    var u, v := Utf8Char(c), Utf8Char(d);
    Utf8Reads(c);
    Utf8Reads(d);
    hide Utf8Char;
    assert (u + s)[0] == u[0] == (v + t)[0] == v[0];
    assert |u| == |v|;
    assert forall i :: 0 <= i < |u| ==> u[i] == (u + s)[i] == (v + t)[i] == v[i];
    assert s == (u + s)[|u|..] == (v + t)[|v|..] == t;
  }

  /** No two texts have the same bytes. */
  lemma {:induction false} Utf8Injective(a: string, b: string)
    ensures Utf8(a) == Utf8(b) ==> a == b
  {
    if Utf8(a) == Utf8(b) {
      if a == "" || b == "" {
        Utf8Length(a);
        Utf8Length(b);
      } else {
        Utf8Parts(a[0], b[0], Utf8(a[1..]), Utf8(b[1..]));
        Utf8Injective(a[1..], b[1..]);
        assert a == [a[0]] + a[1..] && b == [b[0]] + b[1..];
      }
    }
  }

  /** Samples with one to four bytes. */
  lemma Utf8Samples()
    ensures Utf8("A") == [0x41] && Utf8("\U{E9}") == [0xC3, 0xA9] && Utf8("\U{20AC}") == [0xE2, 0x82, 0xAC]
    ensures Utf8("\U{1F600}") == [0xF0, 0x9F, 0x98, 0x80]
  {
  }

  /** An incremental hash: a state, and what one more byte does to it. */
  datatype Hash<!H> = Hash(initial: H, absorb: (H, Byte) -> H)

  function Absorb<H>(hash: Hash<H>, h: H, bytes: seq<Byte>): H
    decreases |bytes|
  {
    if bytes == [] then h else Absorb(hash, hash.absorb(h, bytes[0]), bytes[1..])
  }

  /** The one-shot hash. */
  function HashOf<H>(hash: Hash<H>, bytes: seq<Byte>): H {
    Absorb(hash, hash.initial, bytes)
  }

  /** Hashing in two parts is hashing the whole. */
  lemma {:induction false} AbsorbParts<H>(hash: Hash<H>, h: H, first: seq<Byte>, second: seq<Byte>)
    ensures Absorb(hash, Absorb(hash, h, first), second) == Absorb(hash, h, first + second)
    decreases |first|
  {
    if first == [] {
      assert first + second == second;
    } else {
      AbsorbParts(hash, hash.absorb(h, first[0]), first[1..], second);
      assert (first + second)[1..] == first[1..] + second;
    }
  }

  /** The hash of nothing is the initial state, and each byte is absorbed after those before it. */
  lemma HashLaws<H>(hash: Hash<H>, bytes: seq<Byte>, b: Byte)
    ensures HashOf(hash, []) == hash.initial
    ensures HashOf(hash, bytes + [b]) == hash.absorb(HashOf(hash, bytes), b)
  {
    AbsorbParts(hash, hash.initial, bytes, [b]);
  }

  /** The hash that writes down what it gets. */
  function Recorder(): Hash<seq<Byte>> {
    Hash([], (h: seq<Byte>, b: Byte) => h + [b])
  }

  lemma {:induction false} RecorderKeeps(h: seq<Byte>, bytes: seq<Byte>)
    ensures Absorb(Recorder(), h, bytes) == h + bytes
    decreases |bytes|
  {
    if bytes != [] {
      RecorderKeeps(h + [bytes[0]], bytes[1..]);
      assert bytes == [bytes[0]] + bytes[1..];
    }
  }

  /** Every byte goes into a hash, in order. */
  lemma NothingLost(bytes: seq<Byte>)
    ensures HashOf(Recorder(), bytes) == bytes
  {
    RecorderKeeps([], bytes);
  }

  function Join(chunks: seq<seq<Byte>>): seq<Byte> {
    if chunks == [] then [] else chunks[0] + Join(chunks[1..])
  }

  function AbsorbAll<H>(hash: Hash<H>, h: H, chunks: seq<seq<Byte>>): H
    decreases |chunks|
  {
    if chunks == [] then h else AbsorbAll(hash, Absorb(hash, h, chunks[0]), chunks[1..])
  }

  /** However a file comes in chunks, the result is the one-shot hash of the whole. */
  lemma {:induction false} ChunkingDoesNotMatter<H>(hash: Hash<H>, h: H, chunks: seq<seq<Byte>>)
    ensures AbsorbAll(hash, h, chunks) == Absorb(hash, h, Join(chunks))
    decreases |chunks|
  {
    if chunks != [] {
      ChunkingDoesNotMatter(hash, Absorb(hash, h, chunks[0]), chunks[1..]);
      AbsorbParts(hash, h, chunks[0], Join(chunks[1..]));
    }
  }

  class FileHandle {
    var bytes: seq<Byte>
    var pos: nat

    ghost predicate Valid()
      reads this
    {
      pos <= |bytes|
    }

    /** A new temporary file. */
    constructor ()
      ensures Valid() && bytes == [] && pos == 0
    {
      bytes, pos := [], 0;
    }

    /** Filled by name, behind the handle's back: the position stays. */
    method Download(content: seq<Byte>)
      requires Valid() && bytes == []
      modifies this
      ensures Valid() && bytes == content && pos == old(pos)
    {
      bytes := content;
    }

    /** copyfileobj: written through the handle, which ends up behind what was written. */
    method CopyFrom(content: seq<Byte>)
      requires Valid() && pos == |bytes|
      modifies this
      ensures Valid() && bytes == old(bytes) + content && pos == |bytes|
    {
      bytes := bytes + content;
      pos := |bytes|;
    }

    method SeekStart()
      modifies this`pos
      ensures Valid() && pos == 0
    {
      pos := 0;
    }

    /** Up to `n` bytes, as many as come; none only at the end. */
    method Read(n: nat) returns (buf: seq<Byte>)
      requires Valid() && n > 0
      modifies this`pos
      ensures Valid() && old(pos) <= pos && buf == bytes[old(pos)..pos] && |buf| <= n
      ensures buf == [] <==> old(pos) == |bytes|
    {
      if pos == |bytes| {
        return [];
      }
      var k: nat :| 1 <= k <= n && pos + k <= |bytes|;
      buf := bytes[pos..pos + k];
      pos := pos + k;
    }

    method ReadAll() returns (buf: seq<Byte>)
      requires Valid()
      modifies this`pos
      ensures Valid() && pos == |bytes| && buf == bytes[old(pos)..]
    {
      buf := bytes[pos..];
      pos := |bytes|;
    }
  }

  /** The hash of what is between the position and the end, whatever sizes the reads come in. */
  method ComputeMd5<H>(hash: Hash<H>, file: FileHandle) returns (md5: H)
    requires file.Valid()
    modifies file`pos
    ensures file.Valid() && file.pos == |file.bytes|
    ensures md5 == HashOf(hash, file.bytes[old(file.pos)..])
  {
    ghost var start := file.pos;
    md5 := hash.initial;
    assert file.bytes[start..start] == [];
    while true
      invariant start <= file.pos && file.Valid()
      invariant md5 == HashOf(hash, file.bytes[start..file.pos])
      decreases |file.bytes| - file.pos
    {
      ghost var before := file.pos;
      var buf := file.Read(8192);
      if buf == [] {
        assert file.bytes[start..file.pos] == file.bytes[start..];
        break;
      }
      AbsorbParts(hash, hash.initial, file.bytes[start..before], buf);
      assert file.bytes[start..before] + buf == file.bytes[start..file.pos];
      md5 := Absorb(hash, md5, buf);
    }
  }

  // ----- the two ways a file's checksum is taken -----

  /** A local file: downloaded, hashed from the start, and read again from the start for the upload. */
  method HashAndUpload<H>(hash: Hash<H>, content: seq<Byte>) returns (md5: H, uploaded: seq<Byte>)
    ensures uploaded == content && md5 == HashOf(hash, uploaded)
  {
    var temp := new FileHandle();
    temp.Download(content);
    temp.SeekStart();
    md5 := ComputeMd5(hash, temp);
    temp.SeekStart();
    uploaded := temp.ReadAll();
    assert content[0..] == content;
  }

  /** An external file: hashed from where copyfileobj left the position. */
  method HashExternal<H>(hash: Hash<H>, content: seq<Byte>) returns (md5: H)
    ensures md5 == HashOf(hash, []) == hash.initial
  {
    var temp := new FileHandle();
    temp.CopyFrom(content);
    md5 := ComputeMd5(hash, temp);
    assert temp.bytes[|temp.bytes|..] == [];
  }
}
