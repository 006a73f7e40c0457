/** Files as lists of blocks, blocks as lists of pieces, and file ids. */
module FileBlocks {
  import opened Types

  datatype Block = Block(md5: Md5, start: nat, length: nat)

  /** The block list of `file` from position `start` on, one read of at most BLOCK_SIZE bytes after
      the other. */
  function Split(h: Hash, file: Bytes, start: nat): seq<Block>
    requires start <= |file|
    decreases |file| - start
  {
    if start == |file| then
      []
    else
      var n := Min(BLOCK_SIZE, |file| - start);
      [Block(h(file[start..start + n]), start, n)] + Split(h, file, start + n)
  }

  function Md5s(blocks: seq<Block>): seq<Md5> {
    seq(|blocks|, i requires 0 <= i < |blocks| => blocks[i].md5)
  }

  ghost predicate Fits(h: Hash, file: Bytes, b: Block) {
    && 1 <= b.length <= BLOCK_SIZE
    && b.start + b.length <= |file|
    && b.md5 == h(file[b.start..b.start + b.length])
  }

  ghost function Content(h: Hash, file: Bytes, b: Block): Bytes
    requires Fits(h, file, b)
  {
    file[b.start..b.start + b.length]
  }

  ghost function Contents(h: Hash, file: Bytes, blocks: seq<Block>): seq<Bytes>
    requires forall b :: b in blocks ==> Fits(h, file, b)
  {
    seq(|blocks|, i requires 0 <= i < |blocks| => Content(h, file, blocks[i]))
  }

  /** Every block lies in the file, has 1 to BLOCK_SIZE bytes and carries the hash of its bytes. */
  lemma {:induction false} SplitFits(h: Hash, file: Bytes, start: nat)
    requires start <= |file|
    ensures forall b :: b in Split(h, file, start) ==> Fits(h, file, b)
    decreases |file| - start
  {
    if start < |file| {
      SplitFits(h, file, start + Min(BLOCK_SIZE, |file| - start));
    }
  }

  /** The blocks in order are exactly the file. */
  lemma {:induction false} SplitCovers(h: Hash, file: Bytes, start: nat)
    requires start <= |file|
    requires forall b :: b in Split(h, file, start) ==> Fits(h, file, b)
    ensures Flatten(Contents(h, file, Split(h, file, start))) == file[start..]
    decreases |file| - start
  {
    if start < |file| {
      var n := Min(BLOCK_SIZE, |file| - start);
      var rest := Split(h, file, start + n);
      SplitFits(h, file, start + n);
      SplitCovers(h, file, start + n);
      var all := Contents(h, file, Split(h, file, start));
      assert all[1..] == Contents(h, file, rest);
      assert all[0] == file[start..start + n];
      assert file[start..] == file[start..start + n] + file[start + n..];
    }
  }

  /** Where the blocks lie: every block but the last has exactly 64 MB (67108864 bytes), they follow each other without a
      gap, and there are as many as it takes. */
  lemma {:induction false} SplitExact(h: Hash, file: Bytes, start: nat)
    requires start <= |file|
    ensures
      var blocks := Split(h, file, start);
      && |blocks| == (|file| - start + 67108863) / 67108864
      && forall i :: 0 <= i < |blocks| ==>
           && blocks[i].start == start + 67108864 * i
           && blocks[i].length == (if i < |blocks| - 1 then 67108864 else |file| - blocks[i].start)
           && 1 <= blocks[i].length <= 67108864
    decreases |file| - start
  {
    if start < |file| {
      var n := Min(BLOCK_SIZE, |file| - start);
      var blocks, rest := Split(h, file, start), Split(h, file, start + n);
      SplitExact(h, file, start + n);
      assert n == 67108864 || (n == |file| - start && rest == []);
      forall i | 1 <= i < |blocks| ensures blocks[i] == rest[i - 1] {
      }
    }
  }

  /** getFileId: the hash of the concatenated md5 texts of a block list. */
  function FileId(h: Hash, md5s: seq<Md5>): Md5 {
    h(Flatten(md5s))
  }

  /** A file id is the hash of the one string that has the md5 texts, of 32 characters each, in list order. */
  lemma FileIdIs(h: Hash, md5s: seq<Md5>, text: Bytes)
    requires |text| == 32 * |md5s| && forall i :: 0 <= i < |md5s| ==> text[32 * i..32 * i + 32] == md5s[i]
    ensures FileId(h, md5s) == h(text)
  {
    FlattenIs(md5s, text);
  }

  lemma {:induction false} FlattenIs(md5s: seq<Md5>, text: Bytes)
    requires |text| == 32 * |md5s| && forall i :: 0 <= i < |md5s| ==> text[32 * i..32 * i + 32] == md5s[i]
    ensures Flatten(md5s) == text
  {
    if md5s != [] {
      var rest := text[32..];
      forall i | 0 <= i < |md5s| - 1 ensures rest[32 * i..32 * i + 32] == md5s[1..][i] {
        assert rest[32 * i..32 * i + 32] == text[32 * (i + 1)..32 * (i + 1) + 32];
      }
      FlattenIs(md5s[1..], rest);
      assert text == text[32 * 0..32 * 0 + 32] + rest;
    }
  }

  /** Md5 texts have a fixed length, so their concatenation determines the list. */
  lemma {:induction false} FlattenInjective(a: seq<Md5>, b: seq<Md5>)
    requires Flatten(a) == Flatten(b)
    ensures a == b
  {
    if a != [] && b != [] {
      var x: Bytes, y: Bytes, fa: Bytes, fb: Bytes := a[0], b[0], Flatten(a[1..]), Flatten(b[1..]);
      assert x == (x + fa)[..32] == (y + fb)[..32] == y;
      assert fa == (x + fa)[32..] == (y + fb)[32..] == fb;
      FlattenInjective(a[1..], b[1..]);
      assert a == [a[0]] + a[1..] && b == [b[0]] + b[1..];
    }
  }

  /** Two block lists have the same file id exactly when they are the same list, as long as the two
      strings hashed do not collide. */
  lemma FileIdDeterminesList(h: Hash, a: seq<Md5>, b: seq<Md5>, strings: set<Bytes>)
    requires NoCollision(h, strings) && Flatten(a) in strings && Flatten(b) in strings
    ensures FileId(h, a) == FileId(h, b) <==> a == b
  {
    if FileId(h, a) == FileId(h, b) {
      FlattenInjective(a, b);
    }
  }

  /** The messages that carry the bytes of a block from `offset` on to flow `f`. */
  function Pieces(md5: Md5, f: FlowId, content: Bytes, offset: nat, index: nat): seq<Message>
    requires offset <= |content|
    decreases |content| - offset
  {
    if offset + PIECE_SIZE >= |content| then
      [TransferBlock(md5, index, true, f, content[offset..])]
    else
      [TransferBlock(md5, index, false, f, content[offset..offset + PIECE_SIZE])]
      + Pieces(md5, f, content, offset + PIECE_SIZE, index + 1)
  }

  function PayloadOf(msgs: seq<Message>): Bytes {
    if msgs == [] then []
    else (if msgs[0].TransferBlock? then msgs[0].content else []) + PayloadOf(msgs[1..])
  }

  /** max(1, ceil(n / PIECE_SIZE)) */
  function PieceCount(n: nat): (k: nat)
    ensures k >= 1
  {
    if n <= PIECE_SIZE then 1 else 1 + PieceCount(n - PIECE_SIZE)
  }

  lemma {:induction false} PieceCountCeiling(n: nat)
    ensures PieceCount(n) == if n == 0 then 1 else (n + 4095) / 4096
  {
    if n > PIECE_SIZE {
      PieceCountCeiling(n - PIECE_SIZE);
    }
  }

  /** What a receiver learns from the pieces: there are max(1, ceil) of them, indexed upwards without
      gaps, all for this block and flow, the eof mark is on the last one and on no other, and their
      payloads concatenate to the bytes asked for. */
  lemma {:induction false} PiecesAreTheBlock(md5: Md5, f: FlowId, content: Bytes, offset: nat, index: nat)
    requires offset <= |content|
    ensures var ms := Pieces(md5, f, content, offset, index);
      && |ms| == PieceCount(|content| - offset)
      && PayloadOf(ms) == content[offset..]
      && (forall i :: 0 <= i < |ms| ==>
            && ms[i].TransferBlock? && ms[i].md5 == md5 && ms[i].flow == f
            && ms[i].index == index + i
            && (ms[i].eof <==> i == |ms| - 1) && |ms[i].content| <= 4096
            && (i < |ms| - 1 ==> |ms[i].content| == 4096))
    decreases |content| - offset
  {
    var ms := Pieces(md5, f, content, offset, index);
    if offset + PIECE_SIZE < |content| {
      PiecesAreTheBlock(md5, f, content, offset + PIECE_SIZE, index + 1);
      assert ms[1..] == Pieces(md5, f, content, offset + PIECE_SIZE, index + 1);
      assert content[offset..] == content[offset..offset + PIECE_SIZE] + content[offset + PIECE_SIZE..];
    } else {
      assert PayloadOf(ms[1..]) == [];
    }
  }
}
