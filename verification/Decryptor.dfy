/** Decrypting a file at any position: counter mode (section 6.5 of NIST
    SP 800-38A) over an arbitrary block cipher. */
module CounterMode {
  import opened BigEndian
  import opened Words

  const BLOCK_SIZE: nat := 16

  const HIGH_IV: seq<nat> := [0x72, 0xe0, 0x67, 0xfb, 0xdd, 0xcb, 0xcf, 0x77]
  const LOW_IV: seq<nat> := [0xeb, 0xe8, 0xbc, 0x64, 0x3f, 0x63, 0x0d, 0x93]
  const BASE_IV: seq<nat> := HIGH_IV + LOW_IV

  /** Byte i of the encryption of a counter block. */
  type Cipher = (nat, nat) -> bv8

  /** Byte i of the key stream that starts with a counter block. */
  function KeyByte(cipher: Cipher, counter: nat, i: nat): bv8 {
    cipher((counter + i / BLOCK_SIZE) % TWO_128, i % BLOCK_SIZE)
  }

  /** The whole file decrypted from its beginning. */
  function Plain(cipher: Cipher, content: seq<bv8>): (plain: seq<bv8>)
    ensures |plain| == |content|
  {
    if content == [] then []
    else
      var n := |content| - 1;
      Plain(cipher, content[..n]) + [content[n] ^ KeyByte(cipher, Value(256, BASE_IV), n)]
  }

  lemma {:induction false} PlainAt(cipher: Cipher, content: seq<bv8>, i: nat)
    requires i < |content|
    ensures Plain(cipher, content)[i] == content[i] ^ KeyByte(cipher, Value(256, BASE_IV), i)
  {
    hide KeyByte, Value;
    if i < |content| - 1 {
      PlainAt(cipher, content[..|content|-1], i);
    }
  }

  /** The initial vector for starting at a block: the last eight bytes of the base
      vector, as a 64-bit number, advanced by that many. */
  function NewIv(block: nat): seq<nat> {
    HIGH_IV + Spell(256, (Value(256, LOW_IV) + block) % TWO_64, 8)
  }

  /** Advancing the low half advances the whole counter if and only if the 64-bit
      addition does not overflow. */
  lemma NewIvValue(block: nat)
    requires block < TWO_64
    ensures Value(256, NewIv(block)) == Value(256, BASE_IV) + block <==> Value(256, LOW_IV) + block < TWO_64
  {
    hide Value, Spell, Times, Pow;
    var low := Value(256, LOW_IV);
    var sum := (low + block) % TWO_64;
    Powers();
    ValueBound(256, LOW_IV);
    ValueSpell(256, sum, 8);
    ValueJoin(256, HIGH_IV, Spell(256, sum, 8));
    ValueJoin(256, HIGH_IV, LOW_IV);
  }

  /** The addition overflows for no position a 64-bit signed number can name. */
  lemma NoOverflow(pos: nat)
    requires pos < TWO_63
    ensures Value(256, LOW_IV) + pos / BLOCK_SIZE < TWO_64
    ensures Value(256, NewIv(pos / BLOCK_SIZE)) == Value(256, BASE_IV) + pos / BLOCK_SIZE
  {
    hide Value, Spell, Times, Pow;
    Powers();
    var rest := LOW_IV[1..];
    assert LOW_IV == [0xeb] + rest;
    ValueJoin(256, [0xeb], rest);
    ValueBound(256, rest);
    OneDigit(0xeb);
    TimesIs(0xeb, Pow(256, 7));
    assert pos / BLOCK_SIZE < TWO_59;
    NewIvValue(pos / BLOCK_SIZE);
  }

  lemma OneDigit(d: nat)
    ensures Value(256, [d]) == d
  {
    assert [d][..0] == [];
  }

  /** Starting at the block of a position and skipping to it gives the key stream
      of the whole file from there. */
  lemma KeyStreamShifts(cipher: Cipher, pos: nat, k: nat)
    requires pos < TWO_63
    ensures KeyByte(cipher, Value(256, NewIv(pos / BLOCK_SIZE)), pos % BLOCK_SIZE + k)
         == KeyByte(cipher, Value(256, BASE_IV), pos + k)
  {
    hide Value, NewIv;
    NoOverflow(pos);
    assert pos / BLOCK_SIZE + (pos % BLOCK_SIZE + k) / BLOCK_SIZE == (pos + k) / BLOCK_SIZE;
    assert (pos % BLOCK_SIZE + k) % BLOCK_SIZE == (pos + k) % BLOCK_SIZE;
  }
}

module Decryptors {
  import opened Extremes
  import opened BigEndian
  import opened Words
  import opened CounterMode
  import opened ChunkRanges
  import opened ChunkedReaders

  /** A key stream and how much of it has been used. */
  class CtrStream {
    const cipher: Cipher
    const counter: nat
    var used: nat

    constructor (cipher: Cipher, iv: seq<nat>)
      ensures this.cipher == cipher && counter == Value(256, iv) && used == 0
    {
      this.cipher, counter, used := cipher, Value(256, iv), 0;
    }

    method XorKeyStream(p: array<bv8>, n: nat)
      requires n <= p.Length
      modifies p, this
      ensures used == old(used) + n
      ensures forall i :: 0 <= i < n ==> p[i] == old(p[i]) ^ KeyByte(cipher, counter, old(used) + i)
      ensures forall i :: n <= i < p.Length ==> p[i] == old(p[i])
    {
      hide KeyByte;
      var i := 0;
      while i < n
        invariant i <= n && used == old(used) + i
        invariant forall j :: 0 <= j < i ==> p[j] == old(p[j]) ^ KeyByte(cipher, counter, old(used) + j)
        invariant forall j :: i <= j < p.Length ==> p[j] == old(p[j])
      {
        p[i] := p[i] ^ KeyByte(cipher, counter, used);
        used := used + 1;
        i := i + 1;
      }
    }
  }

  class Decryptor {
    const reader: HttpChunkedReader
    const cipher: Cipher

    constructor (reader: HttpChunkedReader, cipher: Cipher)
      ensures this.reader == reader && this.cipher == cipher
    {
      this.reader, this.cipher := reader, cipher;
    }

    /** Reads any part of the decrypted file without decrypting what is before it. */
    method ReadAt(p: array<bv8>, pos: nat) returns (n: nat, outcome: Outcome)
      requires reader.Valid() && pos < TWO_63
      modifies reader`chunks, p
      ensures reader.Valid() && n <= p.Length && ReadSoFar(Plain(cipher, reader.content), pos, p[..n])
      ensures p[n..] == old(p[n..])
      ensures outcome.Done? || outcome.Eof? ==> n == Min(p.Length, Left(reader.content, pos))
      ensures outcome.Done? || outcome.Eof? ==>
        (outcome.Eof? <==> p.Length > Left(reader.content, pos) || pos / CHUNK_SIZE >= TotalChunks(reader.len))
      ensures outcome.Closed? <==> reader.closed
      ensures !reader.closed && (reader.online || old(reader.Cached(pos, p.Length))) ==> outcome.Done? || outcome.Eof?
    {
      hide KeyByte, Value, NewIv, Plain;
      var block, off := pos / BLOCK_SIZE, pos % BLOCK_SIZE;
      var stream := new CtrStream(cipher, NewIv(block));
      if off > 0 {
        var throwaway := new bv8[BLOCK_SIZE];
        stream.XorKeyStream(throwaway, off);
      }
      n, outcome := reader.ReadAt(p, pos);
      ghost var got := p[..n];
      if n > 0 {
        stream.XorKeyStream(p, n);
      }
      Decrypts(cipher, reader.content, pos, got, p[..n]);
    }
  }

  /** Bytes of the file, each combined with its byte of the shifted key stream, are
      bytes of the decrypted file. */
  lemma Decrypts(cipher: Cipher, content: seq<bv8>, pos: nat, got: seq<bv8>, plain: seq<bv8>)
    requires pos < TWO_63 && ReadSoFar(content, pos, got) && |plain| == |got|
    requires forall i :: 0 <= i < |got| ==>
      plain[i] == got[i] ^ KeyByte(cipher, Value(256, NewIv(pos / BLOCK_SIZE)), pos % BLOCK_SIZE + i)
    ensures ReadSoFar(Plain(cipher, content), pos, plain)
  {
    hide KeyByte, Value, NewIv, Plain;
    forall i | 0 <= i < |got| ensures plain[i] == Plain(cipher, content)[pos + i] {
      KeyStreamShifts(cipher, pos, i);
      PlainAt(cipher, content, pos + i);
      assert got[i] == content[pos + i];
    }
  }
}
