// Acorn tape blocks: parsing a block, the list of blocks of a chunk, and the files that blocks make up.

module AcornBlocks {
  import opened Bits
  import opened Bursts
  import opened Crc

  datatype Block = Block(name: seq<byte>, load: nat, exec: nat, number: nat, flags: byte, next: nat, data: seq<byte>)

  datatype Parsed = Parsed(block: Block, size: nat) | BadSync | NameNotEnded | BadHeaderCrc | BadDataCrc

  // ---------------------------------------------------------------- reading

  /** The source reads past the end of its vector unchecked; here there are zeros. */
  function At(data: seq<byte>, i: nat): byte {
    if i < |data| then data[i] else 0
  }

  function Slice(data: seq<byte>, i: nat, n: nat): (s: seq<byte>)
    ensures |s| == n
  {
    seq<byte>(n, k requires 0 <= k < n => At(data, i + k))
  }

  function U16(data: seq<byte>, i: nat): word {
    At(data, i) + At(data, i + 1) * 256
  }

  /** High byte first, as CRCs are stored. */
  function U16High(data: seq<byte>, i: nat): word {
    At(data, i + 1) + At(data, i) * 256
  }

  function U32(data: seq<byte>, i: nat): nat {
    U16(data, i) + U16(data, i + 2) * 0x10000
  }

  /** How many characters the name reader takes, having taken n: up to ten, or to a zero after the first. */
  function NameLength(data: seq<byte>, i: nat, n: nat): (r: nat)
    ensures n <= r
    decreases 10 - n
  {
    if 10 <= n || At(data, i + n) == 0 then n else NameLength(data, i, n + 1)
  }

  /** The name as a zero-terminated string: empty if its first character is zero. */
  function Name(data: seq<byte>, i: nat): seq<byte> {
    if At(data, i) == 0 then [] else Slice(data, i, NameLength(data, i, 1))
  }

  /** The fields after the name's terminator at i, for a block that begins at offset. */
  function ParseFields(data: seq<byte>, offset: nat, i: nat): (r: Parsed)
    requires offset < i
    ensures r.Parsed? ==> 21 < r.size
  {
    var name, length := Name(data, offset + 1), U16(data, i + 10);
    if U16High(data, i + 17) != BitwiseCrc(Slice(data, offset + 1, 18 + |name|)) then BadHeaderCrc
    else if U16High(data, i + 19 + length) != BitwiseCrc(Slice(data, i + 19, length)) then BadDataCrc
    else
      Parsed(Block(name, U32(data, i) % 0x10000, U32(data, i + 4) % 0x10000, U16(data, i + 8), At(data, i + 12),
                   U32(data, i + 13), Slice(data, i + 19, length)),
             i + 21 + length - offset)
  }

  function ParseBlock(data: seq<byte>, offset: nat): (r: Parsed)
    ensures r.Parsed? ==> 21 < r.size
  {
    if At(data, offset) != 0x2a then BadSync
    else
      var ended := offset + 1 + NameLength(data, offset + 1, 1);
      if At(data, ended) != 0 then NameNotEnded else ParseFields(data, offset, ended + 1)
  }

  /** The blocks from an offset on; fewer than nineteen bytes, or a block that is wrong, end the list. */
  function Blocks(data: seq<byte>, offset: nat): seq<Block>
    decreases |data| - offset
  {
    if |data| < offset + 19 then []
    else
      match ParseBlock(data, offset)
      case Parsed(block, size) => [block] + Blocks(data, offset + size)
      case _ => []
  }

  predicate Zero(data: seq<byte>, i: nat, k: nat) {
    At(data, i + k) == 0
  }

  /** None of the ten bytes after a name's first character ends it. */
  predicate NeverEnds(data: seq<byte>, i: nat) {
    forall k: nat | 1 <= k <= 10 :: !Zero(data, i, k)
  }

  lemma {:induction false} LongName(data: seq<byte>, i: nat, n: nat)
    requires 1 <= n <= 10
    ensures var ended := NameLength(data, i, n);
            && n <= ended <= 10 && (forall k: nat | n <= k < ended :: !Zero(data, i, k))
            && (ended < 10 ==> Zero(data, i, ended))
    decreases 10 - n
  {
    if n < 10 && !Zero(data, i, n) {
      LongName(data, i, n + 1);
    }
  }

  /** The first two errors, exactly: a wrong first byte, and a name that does not end in ten characters. */
  lemma FirstErrors(data: seq<byte>, offset: nat)
    ensures ParseBlock(data, offset) == BadSync <==> At(data, offset) != 0x2a
    ensures ParseBlock(data, offset) == NameNotEnded <==> At(data, offset) == 0x2a && NeverEnds(data, offset + 1)
  {
    hide At, Slice, U16, U16High, U32;
    LongName(data, offset + 1, 1);
    var ended := NameLength(data, offset + 1, 1);
    hide NameLength;
    assert Zero(data, offset + 1, ended) == (At(data, offset + 1 + ended) == 0);
  }

  /** A block's name has at most ten characters, none of them zero; it is empty only if its first byte is zero. */
  lemma NamesAreStrings(data: seq<byte>, offset: nat)
    requires ParseBlock(data, offset).Parsed?
    ensures var name := ParseBlock(data, offset).block.name;
            && |name| <= 10 && (forall k | 0 <= k < |name| :: name[k] != 0)
            && (name == [] <==> At(data, offset + 1) == 0)
  {
    hide At, U16, U16High, U32;
    LongName(data, offset + 1, 1);
    var ended := NameLength(data, offset + 1, 1);
    hide NameLength;
    var name := ParseBlock(data, offset).block.name;
    forall k: nat | 1 <= k < |name| ensures name[k] != 0 {
      assert !Zero(data, offset + 1, k);
    }
  }

  // ---------------------------------------------------------------- writing

  function Le16(v: nat): seq<byte> {
    [v % 256, v / 256 % 256]
  }

  function Le32(v: nat): seq<byte> {
    Le16(v) + Le16(v / 0x10000)
  }

  function Be16(v: nat): seq<byte> {
    [v / 256 % 256, v % 256]
  }

  /** A block that can be written: one to ten characters in the name, none of them zero, and fields in their widths. */
  predicate Writable(b: Block) {
    1 <= |b.name| <= 10 && (forall i | 0 <= i < |b.name| :: b.name[i] != 0) &&
    b.load < 0x100000000 && b.exec < 0x100000000 && b.number < 0x10000 && b.next < 0x100000000 && |b.data| < 0x10000
  }

  function Fields(b: Block): seq<byte> {
    Le32(b.load) + (Le32(b.exec) + (Le16(b.number) + (Le16(|b.data|) + ([b.flags] + Le32(b.next)))))
  }

  function Header(b: Block): seq<byte> {
    b.name + ([0] + Fields(b))
  }

  /** The block on tape: sync byte, header, its CRC, data, its CRC. */
  function Encode(b: Block): seq<byte> {
    [0x2a] + (Header(b) + (Be16(BitwiseCrc(Header(b))) + (b.data + Be16(BitwiseCrc(b.data)))))
  }

  /** Only the low half of an address is kept. */
  function Kept(b: Block): Block {
    b.(load := b.load % 0x10000, exec := b.exec % 0x10000)
  }

  // ---------------------------------------------------------------- what is written is read

  /** The data goes on from i with the piece and then the rest. */
  predicate GoesOn(data: seq<byte>, i: nat, piece: seq<byte>, rest: seq<byte>) {
    i <= |data| && data[i..] == piece + rest
  }

  lemma ReadPiece(data: seq<byte>, i: nat, piece: seq<byte>, rest: seq<byte>)
    requires GoesOn(data, i, piece, rest)
    ensures Slice(data, i, |piece|) == piece && i + |piece| <= |data| && data[i + |piece|..] == rest
    ensures forall k | 0 <= k < |piece| :: At(data, i + k) == piece[k]
  {
    var s := data[i..];
    forall k | 0 <= k < |piece| ensures At(data, i + k) == piece[k] {
      assert s[k] == piece[k];
    }
    assert data[i + |piece|..] == s[|piece|..];
  }

  lemma ReadByte(data: seq<byte>, i: nat, v: byte, rest: seq<byte>)
    requires GoesOn(data, i, [v], rest)
    ensures At(data, i) == v && GoesOn(data, i + 1, rest, [])
  {
    assert data[i] == data[i..][0];
    assert data[i + 1..] == data[i..][1..];
  }

  lemma Read16(data: seq<byte>, i: nat, v: word, rest: seq<byte>)
    requires GoesOn(data, i, Le16(v), rest)
    ensures U16(data, i) == v && GoesOn(data, i + 2, rest, [])
  {
    ReadPiece(data, i, Le16(v), rest);
    assert At(data, i + 0) == v % 256 && At(data, i + 1) == v / 256;
  }

  lemma Read16High(data: seq<byte>, i: nat, v: word, rest: seq<byte>)
    requires GoesOn(data, i, Be16(v), rest)
    ensures U16High(data, i) == v && GoesOn(data, i + 2, rest, [])
  {
    ReadPiece(data, i, Be16(v), rest);
    assert At(data, i + 0) == v / 256 && At(data, i + 1) == v % 256;
  }

  lemma Read32(data: seq<byte>, i: nat, v: nat, rest: seq<byte>)
    requires v < 0x100000000 && GoesOn(data, i, Le32(v), rest)
    ensures U32(data, i) == v && GoesOn(data, i + 4, rest, [])
  {
    assert Le32(v) + rest == Le16(v) + (Le16(v / 0x10000) + rest);
    ReadPiece(data, i, Le16(v), Le16(v / 0x10000) + rest);
    assert At(data, i + 0) == v % 256 && At(data, i + 1) == v / 256 % 256;
    Read16(data, i + 2, v / 0x10000, rest);
    Halves(v);
  }

  lemma Halves(v: nat)
    requires v < 0x100000000
    ensures v / 0x10000 < 0x10000 && v == v % 256 + v / 256 % 256 * 256 + v / 0x10000 * 0x10000
  {
    assert v / 0x10000 == v / 256 / 256;
  }

  lemma {:induction false} ReadNameLength(data: seq<byte>, i: nat, name: seq<byte>, n: nat)
    requires 1 <= n <= |name| <= 10 && forall k | 0 <= k < |name| :: At(data, i + k) == name[k] != 0
    requires At(data, i + |name|) == 0
    ensures NameLength(data, i, n) == |name|
    decreases |name| - n
  {
    if n < |name| {
      assert At(data, i + n) == name[n];
      ReadNameLength(data, i, name, n + 1);
    }
  }

  /** The eighteen fields' bytes from i, after the name's terminator. */
  lemma ReadFields(data: seq<byte>, i: nat, b: Block, rest: seq<byte>)
    requires Writable(b) && GoesOn(data, i, Fields(b), rest)
    ensures U32(data, i) == b.load && U32(data, i + 4) == b.exec && U16(data, i + 8) == b.number
    ensures U16(data, i + 10) == |b.data| && At(data, i + 12) == b.flags && U32(data, i + 13) == b.next
    ensures GoesOn(data, i + 17, rest, [])
  {
    hide Le16, Le32, At, U16, U32;
    var e := Le32(b.next) + rest;
    var d := [b.flags] + e;
    var c := Le16(|b.data|) + d;
    var n := Le16(b.number) + c;
    var x := Le32(b.exec) + n;
    FieldsThen(b, rest);
    Read32(data, i, b.load, x);
    Read32(data, i + 4, b.exec, n);
    Read16(data, i + 8, b.number, c);
    Read16(data, i + 10, |b.data|, d);
    ReadByte(data, i + 12, b.flags, e);
    Read32(data, i + 13, b.next, rest);
  }

  lemma FieldsThen(b: Block, rest: seq<byte>)
    ensures Fields(b) + rest
      == Le32(b.load) + (Le32(b.exec) + (Le16(b.number) + (Le16(|b.data|) + ([b.flags] + (Le32(b.next) + rest)))))
  {
    hide Le16, Le32;
  }

  /** The name, its terminator and the fields follow the sync byte. */
  lemma ReadName(data: seq<byte>, i: nat, b: Block, rest: seq<byte>)
    requires Writable(b) && GoesOn(data, i, Header(b), rest)
    ensures NameLength(data, i, 1) == |b.name| && Name(data, i) == b.name && At(data, i + |b.name|) == 0
    ensures GoesOn(data, i + |b.name| + 1, Fields(b), rest)
    ensures Slice(data, i, 18 + |b.name|) == Header(b)
  {
    hide Fields, At, Slice, NameLength;
    var n := |b.name|;
    FieldsLength(b);
    ReadPiece(data, i, Header(b), rest);
    assert Header(b) + rest == b.name + ([0] + (Fields(b) + rest));
    ReadPiece(data, i, b.name, [0] + (Fields(b) + rest));
    ReadByte(data, i + n, 0, Fields(b) + rest);
    assert At(data, i + 0) == b.name[0];
    ReadNameLength(data, i, b.name, 1);
  }

  lemma FieldsLength(b: Block)
    ensures |Fields(b)| == 17 && |Header(b)| == 18 + |b.name|
  {
  }

  /** What is on tape where a block's CRCs and content may be other than the block's own. */
  function Framed(b: Block, headerCrc: word, content: seq<byte>, dataCrc: word): seq<byte> {
    [0x2a] + (Header(b) + (Be16(headerCrc) + (content + Be16(dataCrc))))
  }

  lemma FrameBegins(data: seq<byte>, offset: nat, b: Block, headerCrc: word, content: seq<byte>, dataCrc: word,
                    rest: seq<byte>)
    requires GoesOn(data, offset, Framed(b, headerCrc, content, dataCrc), rest)
    ensures At(data, offset) == 0x2a && |Framed(b, headerCrc, content, dataCrc)| == 23 + |b.name| + |content|
    ensures GoesOn(data, offset + 1, Header(b), Be16(headerCrc) + (content + (Be16(dataCrc) + rest)))
  {
    hide Header, At, Be16;
    var head := Be16(headerCrc) + (content + (Be16(dataCrc) + rest));
    FieldsLength(b);
    Be16Length(dataCrc);
    Be16Length(headerCrc);
    assert Framed(b, headerCrc, content, dataCrc) + rest == [0x2a] + (Header(b) + head);
    ReadByte(data, offset, 0x2a, Header(b) + head);
  }

  /** The header's CRC, the content and its CRC, from the end of the header. */
  lemma FrameEnds(data: seq<byte>, i: nat, headerCrc: word, content: seq<byte>, dataCrc: word, rest: seq<byte>)
    requires GoesOn(data, i, Be16(headerCrc) + (content + (Be16(dataCrc) + rest)), [])
    ensures U16High(data, i) == headerCrc && Slice(data, i + 2, |content|) == content
    ensures U16High(data, i + 2 + |content|) == dataCrc && GoesOn(data, i + 4 + |content|, rest, [])
  {
    hide At, Slice, U16High, Be16;
    Read16High(data, i, headerCrc, content + (Be16(dataCrc) + rest));
    ReadPiece(data, i + 2, content, Be16(dataCrc) + rest);
    Read16High(data, i + 2 + |content|, dataCrc, rest);
  }

  /** The two checks decide: a block is read, with the content that is there, if both CRCs are right. */
  lemma ReadsFramed(data: seq<byte>, offset: nat, b: Block, headerCrc: word, content: seq<byte>, dataCrc: word,
                    rest: seq<byte>)
    requires Writable(b) && |content| == |b.data| && GoesOn(data, offset, Framed(b, headerCrc, content, dataCrc), rest)
    ensures ParseBlock(data, offset)
         == if headerCrc != BitwiseCrc(Header(b)) then BadHeaderCrc
            else if dataCrc != BitwiseCrc(content) then BadDataCrc
            else Parsed(Kept(b.(data := content)), |Framed(b, headerCrc, content, dataCrc)|)
    ensures GoesOn(data, offset + |Framed(b, headerCrc, content, dataCrc)|, rest, [])
  {
    hide Fields, Header, At, Slice, NameLength, Name, U16, U32, U16High, BitwiseCrc, GoesOn, Writable, Framed;
    var i := offset + |b.name| + 2;
    var head := Be16(headerCrc) + (content + (Be16(dataCrc) + rest));
    FrameBegins(data, offset, b, headerCrc, content, dataCrc, rest);
    ReadName(data, offset + 1, b, head);
    ReadFields(data, i, b, head);
    FrameEnds(data, i + 17, headerCrc, content, dataCrc, rest);
  }

  /** A written block is read as it was, wherever it stands and whatever follows it. */
  lemma ReadsBlock(data: seq<byte>, offset: nat, b: Block, rest: seq<byte>)
    requires Writable(b) && GoesOn(data, offset, Encode(b), rest)
    ensures ParseBlock(data, offset) == Parsed(Kept(b), |Encode(b)|)
    ensures GoesOn(data, offset + |Encode(b)|, rest, [])
  {
    hide ParseBlock, Header, BitwiseCrc, Kept;
    ReadsFramed(data, offset, b, BitwiseCrc(Header(b)), b.data, BitwiseCrc(b.data), rest);
  }

  /** A block whose data has been changed within sixteen consecutive bits is not read as another: it is refused. */
  lemma DamageIsRefused(data: seq<byte>, offset: nat, b: Block, damaged: seq<byte>, from: nat, rest: seq<byte>)
    requires Writable(b) && |damaged| == |b.data| && damaged != b.data
    requires AgreeOutside(Stream(damaged), Stream(b.data), from)
    requires GoesOn(data, offset, Framed(b, BitwiseCrc(Header(b)), damaged, BitwiseCrc(b.data)), rest)
    ensures ParseBlock(data, offset) == BadDataCrc
  {
    hide ParseBlock, Header, BitwiseCrc, Kept, Framed;
    ReadsFramed(data, offset, b, BitwiseCrc(Header(b)), damaged, BitwiseCrc(b.data), rest);
    BurstsAreCaught(damaged, b.data, from);
  }

  lemma Be16Length(v: nat)
    ensures |Be16(v)| == 2
  {
  }

  function EncodeAll(blocks: seq<Block>): seq<byte> {
    if blocks == [] then [] else Encode(blocks[0]) + EncodeAll(blocks[1..])
  }

  function KeptAll(blocks: seq<Block>): seq<Block> {
    if blocks == [] then [] else [Kept(blocks[0])] + KeptAll(blocks[1..])
  }

  /** Any list of blocks, written one after another and followed by fewer than nineteen bytes, is read as that list. */
  lemma {:induction false} ReadsBlocks(data: seq<byte>, offset: nat, blocks: seq<Block>, tail: seq<byte>)
    requires (forall b | b in blocks :: Writable(b)) && |tail| < 19 && GoesOn(data, offset, EncodeAll(blocks), tail)
    ensures Blocks(data, offset) == KeptAll(blocks)
    decreases blocks
  {
    hide ParseBlock, Encode, Writable, Kept;
    if blocks != [] {
      var b, rest := blocks[0], EncodeAll(blocks[1..]) + tail;
      assert EncodeAll(blocks) + tail == Encode(b) + rest;
      ReadsBlock(data, offset, b, rest);
      EncodeLength(b);
      assert rest + [] == rest;
      ReadsBlocks(data, offset + |Encode(b)|, blocks[1..], tail);
    }
  }

  lemma EncodeLength(b: Block)
    ensures |Encode(b)| == 23 + |b.name| + |b.data|
  {
    FieldsLength(b);
    hide Fields, Header, BitwiseCrc;
  }

  // ---------------------------------------------------------------- the loops

  /** The name's characters and how many there are, without the check of what ends them. */
  method ReadFileName(data: seq<byte>, i: nat) returns (name: seq<byte>, taken: nat)
    ensures taken == NameLength(data, i, 1) && name == Name(data, i)
  {
    hide At;
    taken := 1;
    while taken != 10 && At(data, i + taken) != 0
      invariant 1 <= taken <= 10 && NameLength(data, i, taken) == NameLength(data, i, 1)
    {
      taken := taken + 1;
    }
    name := if At(data, i) == 0 then [] else Slice(data, i, taken);
  }

  /** One block, read field by field. */
  method ReadBlock(data: seq<byte>, offset: nat) returns (r: Parsed)
    ensures r == ParseBlock(data, offset)
  {
    hide At, Slice, NameLength, Name, U16, U32, U16High, BitwiseCrc;
    var idx := offset;
    if At(data, idx) != 0x2a { return BadSync; }
    idx := idx + 1;
    var name, taken := ReadFileName(data, idx);
    idx := idx + taken;
    if At(data, idx) != 0 { return NameNotEnded; }
    idx := idx + 1;
    var load, exec := U32(data, idx) % 0x10000, U32(data, idx + 4) % 0x10000;
    var number, length := U16(data, idx + 8), U16(data, idx + 10);
    var flags, next := At(data, idx + 12), U32(data, idx + 13);
    idx := idx + 17;
    var allegedHeader := U16High(data, idx);
    idx := idx + 2;
    var header := Slice(data, offset + 1, 18 + |name|);
    assert header[0..0 + |header|] == header;
    var headerCrc := Checksum(header, 0, |header|);
    if allegedHeader != headerCrc { return BadHeaderCrc; }
    var content := Slice(data, idx, length);
    assert content[0..0 + length] == content;
    var dataCrc := Checksum(content, 0, length);
    idx := idx + length;
    if U16High(data, idx) != dataCrc { return BadDataCrc; }
    idx := idx + 2;
    r := Parsed(Block(name, load, exec, number, flags, next, content), idx - offset);
  }

  /** The list of blocks in a chunk's data. */
  method ParseBlocks(data: seq<byte>) returns (blocks: seq<Block>)
    ensures blocks == Blocks(data, 0)
  {
    hide ParseBlock;
    blocks := [];
    var idx := 0;
    while idx < |data|
      invariant blocks + Blocks(data, idx) == Blocks(data, 0)
      decreases |data| - idx
    {
      if |data| - idx < 19 { return; }
      var r := ReadBlock(data, idx);
      match r {
        case Parsed(block, size) =>
          blocks := blocks + [block];
          idx := idx + size;
        case _ =>
          return;
      }
    }
  }

  // ---------------------------------------------------------------- files

  datatype File = File(load: nat, exec: nat, data: seq<byte>)

  type Files = map<seq<byte>, File>

  function AddBlock(files: Files, b: Block): Files {
    var f := if b.name in files then files[b.name] else File(b.load, b.exec, []);
    files[b.name := f.(data := f.data + b.data)]
  }

  function AddBlocks(files: Files, blocks: seq<Block>): Files
    decreases blocks
  {
    if blocks == [] then files else AddBlocks(AddBlock(files, blocks[0]), blocks[1..])
  }

  /** The data of a name's blocks, in order. */
  function DataOf(blocks: seq<Block>, name: seq<byte>): seq<byte> {
    if blocks == [] then []
    else (if blocks[0].name == name then blocks[0].data else []) + DataOf(blocks[1..], name)
  }

  predicate Named(blocks: seq<Block>, name: seq<byte>) {
    exists i | 0 <= i < |blocks| :: blocks[i].name == name
  }

  /** The first block of a name. */
  function FirstOf(blocks: seq<Block>, name: seq<byte>): Block
    requires Named(blocks, name)
  {
    if blocks[0].name == name then blocks[0] else FirstOf(blocks[1..], name)
  }

  /** Which names the blocks after the first bear. */
  lemma NamedAfter(blocks: seq<Block>, name: seq<byte>)
    requires blocks != []
    ensures Named(blocks, name) <==> blocks[0].name == name || Named(blocks[1..], name)
  {
    var rest := blocks[1..];
    if Named(rest, name) {
      var i :| 0 <= i < |rest| && rest[i].name == name;
      assert blocks[i + 1].name == name;
    }
    if blocks[0].name != name && Named(blocks, name) {
      var i :| 0 <= i < |blocks| && blocks[i].name == name;
      assert rest[i - 1].name == name;
    }
  }

  lemma AddedBlock(files: Files, b: Block, name: seq<byte>)
    ensures var more := AddBlock(files, b);
            && (name in more <==> name in files || b.name == name)
            && (b.name != name && name in files ==> more[name] == files[name])
            && (b.name == name && name in files ==> more[name] == files[name].(data := files[name].data + b.data))
            && (b.name == name && name !in files ==> more[name] == File(b.load, b.exec, [] + b.data))
  {
  }

  /** The blocks' files hold what was there before, then each name's data in order. */
  lemma {:induction false} FilesGrow(files: Files, blocks: seq<Block>, name: seq<byte>)
    ensures name in AddBlocks(files, blocks) <==> name in files || Named(blocks, name)
    ensures name in files ==>
              AddBlocks(files, blocks)[name] == files[name].(data := files[name].data + DataOf(blocks, name))
    ensures name !in files && Named(blocks, name) ==>
              var b := FirstOf(blocks, name);
              AddBlocks(files, blocks)[name] == File(b.load, b.exec, DataOf(blocks, name))
    decreases blocks
  {
    if blocks != [] {
      hide AddBlock, Named;
      var b, rest := blocks[0], blocks[1..];
      FilesGrow(AddBlock(files, b), rest, name);
      NamedAfter(blocks, name);
      AddedBlock(files, b, name);
      if b.name == name {
        DataGrows(if name in files then files[name].data else [], b.data, DataOf(rest, name));
      }
    } else {
      assert !Named(blocks, name);
    }
  }

  lemma DataGrows(a: seq<byte>, b: seq<byte>, c: seq<byte>)
    ensures a + b + c == a + (b + c) && [] + b == b
  {
  }

  lemma {:induction false} KeptData(blocks: seq<Block>, name: seq<byte>)
    ensures DataOf(KeptAll(blocks), name) == DataOf(blocks, name)
  {
    if blocks != [] {
      assert KeptAll(blocks)[1..] == KeptAll(blocks[1..]);
      KeptData(blocks[1..], name);
    }
  }

  /** What is written to tape as blocks comes back as files: each name's data, in order. */
  lemma WrittenFilesReturn(blocks: seq<Block>, tail: seq<byte>, name: seq<byte>)
    requires (forall b | b in blocks :: Writable(b)) && |tail| < 19
    ensures var files := AddBlocks(map[], Blocks(EncodeAll(blocks) + tail, 0));
            (name in files <==> Named(blocks, name)) &&
            (name in files ==> files[name].data == DataOf(blocks, name))
  {
    hide Blocks, EncodeAll, Writable, AddBlocks, DataOf;
    var data := EncodeAll(blocks) + tail;
    assert data[0..] == data;
    ReadsBlocks(data, 0, blocks, tail);
    FilesGrow(map[], KeptAll(blocks), name);
    KeptData(blocks, name);
    KeptNames(blocks, name);
  }

  lemma {:induction false} KeptNames(blocks: seq<Block>, name: seq<byte>)
    ensures |KeptAll(blocks)| == |blocks| && forall i | 0 <= i < |blocks| :: KeptAll(blocks)[i].name == blocks[i].name
  {
    if blocks != [] {
      KeptNames(blocks[1..], name);
      assert KeptAll(blocks)[1..] == KeptAll(blocks[1..]);
    }
  }

  function ChunkBlocks(chunks: seq<seq<byte>>): seq<Block> {
    if chunks == [] then [] else ChunkBlocks(chunks[..|chunks| - 1]) + Blocks(chunks[|chunks| - 1], 0)
  }

  lemma {:induction false} AddMore(files: Files, a: seq<Block>, b: seq<Block>)
    ensures AddBlocks(files, a + b) == AddBlocks(AddBlocks(files, a), b)
    decreases a
  {
    if a == [] {
      assert a + b == b;
    } else {
      assert (a + b)[1..] == a[1..] + b;
      AddMore(AddBlock(files, a[0]), a[1..], b);
    }
  }

  /**
   * The files of a tape's data chunks: there is one for each name that a block bears; its data are those of the
   * name's blocks in order, its addresses those of the first of them.
   */
  method LoadTape(chunks: seq<seq<byte>>) returns (files: Files)
    ensures files == AddBlocks(map[], ChunkBlocks(chunks))
    ensures forall name :: name in files <==> Named(ChunkBlocks(chunks), name)
    ensures forall name | name in files ::
              var b := FirstOf(ChunkBlocks(chunks), name);
              files[name] == File(b.load, b.exec, DataOf(ChunkBlocks(chunks), name))
  {
    hide Blocks, AddBlock;
    files := map[];
    var n := 0;
    while n < |chunks|
      invariant n <= |chunks| && files == AddBlocks(map[], ChunkBlocks(chunks[..n]))
    {
      var blocks := ParseBlocks(chunks[n]);
      ghost var before := files;
      var k := 0;
      while k < |blocks|
        invariant k <= |blocks| && AddBlocks(files, blocks[k..]) == AddBlocks(before, blocks)
      {
        assert blocks[k..][1..] == blocks[k + 1..];
        files := AddBlock(files, blocks[k]);
        k := k + 1;
      }
      assert blocks[k..] == [];
      AddMore(map[], ChunkBlocks(chunks[..n]), blocks);
      assert chunks[..n + 1][..n] == chunks[..n];
      n := n + 1;
    }
    assert chunks[..n] == chunks;
    forall name ensures name in files <==> Named(ChunkBlocks(chunks), name) {
      FilesGrow(map[], ChunkBlocks(chunks), name);
    }
    forall name | name in files
      ensures var b := FirstOf(ChunkBlocks(chunks), name);
              files[name] == File(b.load, b.exec, DataOf(ChunkBlocks(chunks), name))
    {
      FilesGrow(map[], ChunkBlocks(chunks), name);
    }
  }
}
