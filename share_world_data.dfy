/**
 * ShareWorldData: a shared structure, read from a share string (Base64 of Deflate-compressed bytes
 * between the markers "[C&B](" and ")[C&B]") or from the compressed bytes directly. The
 * uncompressed bytes hold a format word, three sizes, a bit width, a block table of model ids,
 * and a table of model records; getBlob looks a position up through both tables.
 *
 * Base64, Inflate, the byte-to-text charset and the unseen ShareFormatReader are oracles.
 * Java ints are `I32`, and the sizes' products wrap as Java's do.
 */
module ShareWorldData {
  import opened Wrappers
  import opened WorldArea
  import opened JavaInt

  const HEADER: string := "[C&B]("
  const FOOTER: string := ")[C&B]"

  predicate OccursAt(s: string, p: string, k: nat) {
    k + |p| <= |s| && s[k..k + |p|] == p
  }

  /** String.indexOf from position `from`: the first occurrence at or after it. */
  function IndexFrom(s: string, p: string, from: nat): (r: Option<nat>)
    ensures r.Some? ==> from <= r.value && OccursAt(s, p, r.value)
    ensures r.Some? ==> forall j :: from <= j < r.value ==> !OccursAt(s, p, j)
    ensures r.None? ==> forall j :: from <= j ==> !OccursAt(s, p, j)
    decreases |s| - from
  {
    if from + |p| > |s| then None
    else if s[from..from + |p|] == p then Some(from)
    else IndexFrom(s, p, from + 1)
  }

  function IndexOf(s: string, p: string): (r: Option<nat>)
    ensures r.Some? ==> OccursAt(s, p, r.value) && forall j :: 0 <= j < r.value ==> !OccursAt(s, p, j)
    ensures r.None? ==> forall j :: 0 <= j ==> !OccursAt(s, p, j)
  {
    IndexFrom(s, p, 0)
  }

  /** The library code the parser calls. */
  datatype Codecs = Codecs(
    /** Base64 decoding (section 4 of RFC 4648); None for the IllegalArgumentException on bad input. */
    base64: string -> Option<seq<bv8>>,
    /** Inflating a Deflate stream to its end; None for a ZipException. */
    inflate: seq<bv8> -> Option<seq<bv8>>,
    /** new String(bytes) in the platform charset. */
    text: seq<bv8> -> string)

  /** The reader's position in the uncompressed bytes. */
  type Cursor = nat

  /** ShareFormatReader over the uncompressed bytes; a read that throws is None. */
  datatype FormatReader = FormatReader(
    readInt: (seq<bv8>, Cursor) -> Option<(I32, Cursor)>,
    readBits: (seq<bv8>, Cursor, I32) -> Option<(I32, Cursor)>,
    snapToByte: Cursor -> Cursor,
    readBytes: (seq<bv8>, Cursor) -> Option<(seq<bv8>, Cursor)>,
    consumedBytes: Cursor -> I32)

  /** Why reading a share fails. */
  datatype ShareError =
    /** The IOException "Unable to locate C&B Data.". */
    | MissingMarkers
    /** The first footer comes before the end of the first header: substring throws. */
    | MarkersOutOfOrder
    | BadBase64
    | BadDeflate
    /** The IOException "Invalid format!". */
    | InvalidFormat
    /** The reader threw. */
    | ReadFailed
    /** A NegativeArraySizeException. */
    | NegativeSize

  /** A model record: a block name, or an encoded blob. */
  datatype SharedWorldBlock = SharedWorldBlock(isBlob: bool, blockName: Option<string>, blob: Option<seq<bv8>>)

  /** The SharedWorldBlock constructor: tag 1 is a block name, tag 2 a blob, anything else air. */
  function SharedWorldBlockOf(codecs: Codecs, bytes: seq<bv8>): (w: SharedWorldBlock)
    ensures |bytes| > 0 && bytes[0] == 1 ==> w == SharedWorldBlock(false, Some(codecs.text(bytes[1..])), None)
    ensures |bytes| > 0 && bytes[0] == 2 ==> w == SharedWorldBlock(true, None, Some(bytes[1..]))
    ensures (|bytes| == 0 || (bytes[0] != 1 && bytes[0] != 2)) ==> w == SharedWorldBlock(false, Some("minecraft:air"), None)
    ensures w.isBlob <==> w.blob.Some?
    ensures w.blob.None? <==> w.blockName.Some?
  {
    if |bytes| > 0 && bytes[0] == 1 then SharedWorldBlock(false, Some(codecs.text(bytes[1..])), None)
    else if |bytes| > 0 && bytes[0] == 2 then SharedWorldBlock(true, None, Some(bytes[1..]))
    else SharedWorldBlock(false, Some("minecraft:air"), None)
  }

  /** One read step of a table. */
  type Step<T> = Cursor -> Option<(T, Cursor)>

  /** n reads in a row from c0: the values and the position after them, or None if one threw. */
  function ReadMany<T>(step: Step<T>, c0: Cursor, n: nat): (r: Option<(seq<T>, Cursor)>)
    ensures r.Some? ==> |r.value.0| == n
  {
    if n == 0 then Some(([], c0))
    else match ReadMany(step, c0, n - 1)
         case None => None
         case Some((vs, c)) =>
           match step(c)
           case None => None
           case Some((v, c')) => Some((vs + [v], c'))
  }

  /** Once a read has thrown, every longer run of reads throws too. */
  lemma {:induction false} ReadManyFailsOnward<T>(step: Step<T>, c0: Cursor, k: nat, n: nat)
    requires k <= n && ReadMany(step, c0, k).None?
    ensures ReadMany(step, c0, n).None?
    decreases n
  {
    if k < n {
      ReadManyFailsOnward(step, c0, k, n - 1);
    }
  }

  /** A successful run of reads extends the successful run one shorter, value by value. */
  lemma {:induction false} ReadManyPrefix<T>(step: Step<T>, c0: Cursor, k: nat, n: nat)
    requires k <= n && ReadMany(step, c0, n).Some?
    ensures ReadMany(step, c0, k).Some? && ReadMany(step, c0, k).value.0 == ReadMany(step, c0, n).value.0[..k]
    decreases n
  {
    if k < n {
      ReadManyPrefix(step, c0, k, n - 1);
      assert ReadMany(step, c0, n).value.0[..n - 1] == ReadMany(step, c0, n - 1).value.0;
    }
  }

  /** Reading one block-table entry with the declared bit width. */
  function BlockStep(reader: FormatReader, u: seq<bv8>, bits: I32): Step<I32> {
    c => reader.readBits(u, c, bits)
  }

  /** Reading one model record. */
  function ModelStep(reader: FormatReader, codecs: Codecs, u: seq<bv8>): Step<SharedWorldBlock> {
    c => match reader.readBytes(u, c)
         case None => None
         case Some((b, c')) => Some((SharedWorldBlockOf(codecs, b), c'))
  }

  /** The tables of a structure that was read. */
  datatype Parsed = Parsed(xSize: I32, ySize: I32, zSize: I32, blocks: seq<I32>, models: seq<SharedWorldBlock>,
                           structure: seq<bv8>)

  /** The four ints after the format word: the three sizes and the bit width. */
  datatype Header = Header(xSize: I32, ySize: I32, zSize: I32, bits: I32, next: Cursor)

  function ReadHeader(reader: FormatReader, u: seq<bv8>, c: Cursor): Option<Header> {
    match reader.readInt(u, c)
    case None => None
    case Some((x, c1)) =>
      match reader.readInt(u, c1)
      case None => None
      case Some((y, c2)) =>
        match reader.readInt(u, c2)
        case None => None
        case Some((z, c3)) =>
          match reader.readInt(u, c3)
          case None => None
          case Some((bits, c4)) => Some(Header(x, y, z, bits, c4))
  }

  /** The block table's length: the sizes' product in Java int arithmetic. */
  function TableLength(h: Header): I32 {
    Wrap32(Wrap32(h.xSize * h.ySize) * h.zSize)
  }

  /** Math.min on ints. */
  function MinInt(a: int, b: int): (m: int)
    ensures m <= a && m <= b && (m == a || m == b)
  {
    if a < b then a else b
  }

  /**
   * The model table and the structure bytes, read from the aligned position after the block table.
   * On success the models are exactly the records read after the model count, and the structure
   * is the first min(consumedBytes, |u|) bytes of the uncompressed data.
   */
  function ReadModels(reader: FormatReader, codecs: Codecs, u: seq<bv8>, h: Header, blocks: seq<I32>, c: Cursor): (r: Result<Parsed, ShareError>)
    ensures r.Ok? ==> r.value.blocks == blocks && r.value.xSize == h.xSize && r.value.ySize == h.ySize && r.value.zSize == h.zSize
    ensures reader.readInt(u, reader.snapToByte(c)).None? ==> r == Err(ReadFailed)
    ensures reader.readInt(u, reader.snapToByte(c)).Some? && reader.readInt(u, reader.snapToByte(c)).value.0 < 0 ==>
              r == Err(NegativeSize)
    ensures r.Ok? ==>
              && reader.readInt(u, reader.snapToByte(c)).Some?
              && var count := reader.readInt(u, reader.snapToByte(c)).value.0;
                 var c1 := reader.readInt(u, reader.snapToByte(c)).value.1;
                 && 0 <= count
                 && ReadMany(ModelStep(reader, codecs, u), c1, count).Some?
                 && var c2 := ReadMany(ModelStep(reader, codecs, u), c1, count).value.1;
                    && r.value.models == ReadMany(ModelStep(reader, codecs, u), c1, count).value.0
                    && |r.value.models| == count
                    && 0 <= reader.consumedBytes(c2)
                    && r.value.structure == u[..MinInt(reader.consumedBytes(c2), |u|)]
  {
    var aligned := reader.snapToByte(c);
    match reader.readInt(u, aligned)
    case None => Err(ReadFailed)
    case Some((modelCount, c1)) =>
      if modelCount < 0 then Err(NegativeSize)
      else match ReadMany(ModelStep(reader, codecs, u), c1, modelCount)
           case None => Err(ReadFailed)
           case Some((models, c2)) =>
             var len := MinInt(reader.consumedBytes(c2), |u|);
             if len < 0 then Err(NegativeSize)
             else Ok(Parsed(h.xSize, h.ySize, h.zSize, blocks, models, u[..len]))
  }

  /** readCompressed on the uncompressed bytes. */
  function ParseUncompressed(reader: FormatReader, codecs: Codecs, u: seq<bv8>): (r: Result<Parsed, ShareError>)
    ensures (exists c :: reader.readInt(u, 0) == Some((1, c))) || r.Err?
    ensures r.Ok? ==> |r.value.blocks| == Wrap32(Wrap32(r.value.xSize * r.value.ySize) * r.value.zSize)
    ensures r.Ok? ==> |r.value.structure| <= |u| && r.value.structure == u[..|r.value.structure|]
    ensures r.Ok? ==>
              && reader.readInt(u, 0).Some? && reader.readInt(u, 0).value.0 == 1
              && ReadHeader(reader, u, reader.readInt(u, 0).value.1).Some?
              && var h := ReadHeader(reader, u, reader.readInt(u, 0).value.1).value;
                 && 0 <= TableLength(h)
                 && ReadMany(BlockStep(reader, u, h.bits), h.next, TableLength(h)).Some?
                 && var table := ReadMany(BlockStep(reader, u, h.bits), h.next, TableLength(h)).value;
                    r == ReadModels(reader, codecs, u, h, table.0, table.1)
  {
    match reader.readInt(u, 0)
    case None => Err(ReadFailed)
    case Some((format, c0)) =>
      if format != 1 then Err(InvalidFormat)
      else match ReadHeader(reader, u, c0)
           case None => Err(ReadFailed)
           case Some(h) =>
             var n := TableLength(h);
             if n < 0 then Err(NegativeSize)
             else match ReadMany(BlockStep(reader, u, h.bits), h.next, n)
                  case None => Err(ReadFailed)
                  case Some((blocks, c)) => ReadModels(reader, codecs, u, h, blocks, c)
  }

  /** A format word other than 1 is rejected before any size is read. */
  lemma FormatChecked(reader: FormatReader, codecs: Codecs, u: seq<bv8>, format: I32, c: Cursor)
    requires reader.readInt(u, 0) == Some((format, c)) && format != 1
    ensures ParseUncompressed(reader, codecs, u) == Err(InvalidFormat)
  {
  }

  /**
   * A parse spelled out read by read: the format word 1, the header, the block table, the aligned
   * model count and the model records. The result carries the header's sizes, exactly the tables
   * that were read, and the first min(consumedBytes, |u|) bytes as the structure; a negative
   * consumed count is the negative array size.
   */
  lemma ParsedFromReads(reader: FormatReader, codecs: Codecs, u: seq<bv8>, c0: Cursor, h: Header,
                        blocks: seq<I32>, c: Cursor, count: I32, c1: Cursor, models: seq<SharedWorldBlock>, c2: Cursor)
    requires reader.readInt(u, 0) == Some((1, c0)) && ReadHeader(reader, u, c0) == Some(h)
    requires 0 <= TableLength(h) && ReadMany(BlockStep(reader, u, h.bits), h.next, TableLength(h)) == Some((blocks, c))
    requires reader.readInt(u, reader.snapToByte(c)) == Some((count, c1)) && 0 <= count
    requires ReadMany(ModelStep(reader, codecs, u), c1, count) == Some((models, c2))
    ensures reader.consumedBytes(c2) < 0 ==> ParseUncompressed(reader, codecs, u) == Err(NegativeSize)
    ensures 0 <= reader.consumedBytes(c2) ==>
              ParseUncompressed(reader, codecs, u)
              == Ok(Parsed(h.xSize, h.ySize, h.zSize, blocks, models, u[..MinInt(reader.consumedBytes(c2), |u|)]))
  {
  }

  /** readCompressed: inflate, then read. */
  function ParseCompressed(reader: FormatReader, codecs: Codecs, compressed: seq<bv8>): (r: Result<Parsed, ShareError>)
    ensures codecs.inflate(compressed).None? <==> r == Err(BadDeflate)
  {
    match codecs.inflate(compressed)
    case None => Err(BadDeflate)
    case Some(u) => ParseUncompressed(reader, codecs, u)
  }

  /** The Base64 payload of a share string: what lies between the end of the first header and the first footer. */
  function Payload(data: string): (r: Result<string, ShareError>)
    ensures r == Err(MissingMarkers) <==> IndexOf(data, HEADER).None? || IndexOf(data, FOOTER).None?
    ensures r.Ok? ==> exists start: nat, end: nat ::
              && OccursAt(data, HEADER, start) && OccursAt(data, FOOTER, end)
              && (forall j :: 0 <= j < start ==> !OccursAt(data, HEADER, j))
              && (forall j :: 0 <= j < end ==> !OccursAt(data, FOOTER, j))
              && start + |HEADER| <= end && r.value == data[start + |HEADER|..end]
    ensures IndexOf(data, HEADER).Some? && IndexOf(data, FOOTER).Some? ==>
              (r.Ok? <==> IndexOf(data, HEADER).value + |HEADER| <= IndexOf(data, FOOTER).value)
    ensures r == Err(MarkersOutOfOrder) <==>
              && IndexOf(data, HEADER).Some? && IndexOf(data, FOOTER).Some?
              && IndexOf(data, HEADER).value + |HEADER| > IndexOf(data, FOOTER).value
  {
    var start := IndexOf(data, HEADER);
    var end := IndexOf(data, FOOTER);
    if start.None? || end.None? then Err(MissingMarkers)
    else if start.value + |HEADER| > end.value then Err(MarkersOutOfOrder)
    else Ok(data[start.value + |HEADER|..end.value])
  }

  /** The ShareWorldData(String) constructor. */
  function ParseString(reader: FormatReader, codecs: Codecs, data: string): (r: Result<Parsed, ShareError>)
    ensures Payload(data).Err? ==> r == Err(Payload(data).error)
    ensures Payload(data).Ok? && codecs.base64(Payload(data).value).None? ==> r == Err(BadBase64)
    ensures Payload(data).Ok? && codecs.base64(Payload(data).value).Some? ==>
              r == ParseCompressed(reader, codecs, codecs.base64(Payload(data).value).value)
  {
    match Payload(data)
    case Err(e) => Err(e)
    case Ok(text) =>
      match codecs.base64(text)
      case None => Err(BadBase64)
      case Some(compressed) => ParseCompressed(reader, codecs, compressed)
  }

  /** getBlob's linear index: x + y*xSize + z*xSize*ySize, in Java int arithmetic. */
  function LinearIndex(x: int, y: int, z: int, xSize: int, xySize: int): I32 {
    Wrap32(x + y * xSize + z * xySize)
  }

  /** For in-range coordinates of a table that fits an int, the index is in range and unwrapped. */
  lemma LinearIndexInRange(x: int, y: int, z: int, xSize: int, ySize: int, zSize: int)
    requires 0 <= x < xSize && 0 <= y < ySize && 0 <= z < zSize
    requires xSize * ySize * zSize < 0x8000_0000
    ensures var i := LinearIndex(x, y, z, xSize, Wrap32(xSize * ySize));
            i == x + y * xSize + z * (xSize * ySize) && 0 <= i < Wrap32(Wrap32(xSize * ySize) * zSize)
  {
    var xy := xSize * ySize;
    MulMonotone(1, ySize, xSize);
    MulMonotone(1, zSize, xy);
    assert xSize * ySize * zSize == xy * zSize;
    MulMonotone(y, ySize - 1, xSize);
    MulMonotone(z, zSize - 1, xy);
    MulMonotone(0, y, xSize);
    MulMonotone(0, z, xy);
    assert (ySize - 1) * xSize == xy - xSize;
    assert (zSize - 1) * xy == xy * zSize - xy;
  }

  lemma MulMonotone(a: int, b: int, c: int)
    requires a <= b && 0 <= c
    ensures a * c <= b * c
  {
    assert b * c - a * c == (b - a) * c;
  }

  /** Distinct in-range positions have distinct indices. */
  lemma LinearIndexInjective(x: int, y: int, z: int, x': int, y': int, z': int, xSize: int, ySize: int)
    requires 0 <= x < xSize && 0 <= y < ySize && 0 <= z && 0 <= x' < xSize && 0 <= y' < ySize && 0 <= z'
    requires x + y * xSize + z * (xSize * ySize) == x' + y' * xSize + z' * (xSize * ySize)
    ensures x == x' && y == y' && z == z'
  {
    var a := y + z * ySize;
    var a' := y' + z' * ySize;
    assert x + xSize * a == x' + xSize * a' by {
      Spread(xSize, y, z, ySize);
      Spread(xSize, y', z', ySize);
    }
    DivModUnique(x, a, xSize);
    DivModUnique(x', a', xSize);
    DivModUnique(y, z, ySize);
    DivModUnique(y', z', ySize);
  }

  /** xSize * (y + z*ySize) spelled as getBlob adds it up. */
  lemma Spread(n: int, y: int, z: int, m: int)
    ensures n * (y + z * m) == y * n + z * (n * m)
  {
    assert n * (y + z * m) == n * y + n * (z * m);
    assert n * (z * m) == z * (n * m);
  }

  /** Division by d recovers quotient and remainder of r + d*q. */
  lemma DivModUnique(r: int, q: int, d: int)
    requires 0 <= r < d
    ensures (r + d * q) % d == r && (r + d * q) / d == q
  {
    var n := r + d * q;
    var k := n / d - q;
    assert d * (n / d) == d * q + d * k;
    assert d * k == r - n % d;
    if k >= 1 {
      MulMonotone(1, k, d);
    } else if k <= -1 {
      MulMonotone(k, -1, d);
    }
  }

  /** A blob reference with no position seed, built from a model. */
  function ModelBlob(codecs: Codecs, stateOf: string -> int, supported: string -> bool, swb: SharedWorldBlock): (b: BlobSource)
    ensures swb.blob.Some? ==> b == FromBytes(swb.blob.value)
    ensures swb.blob.None? && swb.blockName.Some? && supported(swb.blockName.value) ==> b == FromState(stateOf(swb.blockName.value))
    ensures swb.blob.None? && swb.blockName.Some? && !supported(swb.blockName.value) ==> b == FromState(0)
  {
    match swb.blob
    case Some(bytes) => FromBytes(bytes)
    case None =>
      var name := if swb.blockName.Some? then swb.blockName.value else "";
      if supported(name) then FromState(stateOf(name)) else FromState(0)
  }

  /** The empty reference, VoxelBlobStateReference(0, 0). */
  const AIR_BLOB: BlobSource := FromState(0)

  class ShareData {
    var xSize: I32
    var ySize: I32
    var zSize: I32
    var xySize: I32
    var blocks: array<I32>
    var models: array<SharedWorldBlock>
    var structureData: seq<bv8>

    constructor ()
      ensures xSize == 0 && ySize == 0 && zSize == 0 && xySize == 0 && structureData == []
      ensures blocks.Length == 0 && models.Length == 0
    {
      xSize, ySize, zSize, xySize := 0, 0, 0, 0;
      blocks := new I32[0];
      models := new SharedWorldBlock[0];
      structureData := [];
    }

    /** The fields hold the tables that were read. */
    predicate Holds(p: Parsed)
      reads this, blocks, models
    {
      && xSize == p.xSize && ySize == p.ySize && zSize == p.zSize && xySize == Wrap32(p.xSize * p.ySize)
      && blocks[..] == p.blocks && models[..] == p.models && structureData == p.structure
    }

    /**
     * readCompressed: on success the fields hold what ParseCompressed reads; a failure is the
     * exception that ends construction, so the half-read fields are never seen.
     */
    method ReadCompressed(reader: FormatReader, codecs: Codecs, compressed: seq<bv8>) returns (o: Outcome<ShareError>)
      modifies this
      ensures var p := ParseCompressed(reader, codecs, compressed);
              && (o.Fail? <==> p.Err?) && (p.Err? ==> o.error == p.error)
              && (p.Ok? ==> Holds(p.value) && fresh(blocks) && fresh(models))
    {
      var inflated := codecs.inflate(compressed);
      if inflated.None? {
        return Fail(BadDeflate);
      }
      var r, table, list := ReadTables(reader, codecs, inflated.value);
      if r.Err? {
        return Fail(r.error);
      }
      xSize, ySize, zSize := r.value.xSize, r.value.ySize, r.value.zSize;
      xySize := Wrap32(xSize * ySize);
      blocks, models := table, list;
      structureData := r.value.structure;
      return Pass;
    }

    /** The format word, the sizes, the block table, the model table and the structure bytes. */
    static method ReadTables(reader: FormatReader, codecs: Codecs, uncompressed: seq<bv8>)
      returns (r: Result<Parsed, ShareError>, table: array<I32>, list: array<SharedWorldBlock>)
      ensures r == ParseUncompressed(reader, codecs, uncompressed)
      ensures r.Ok? ==> fresh(table) && fresh(list) && table[..] == r.value.blocks && list[..] == r.value.models
    {
      table := new I32[0];
      list := new SharedWorldBlock[0];
      var formatRead := reader.readInt(uncompressed, 0);
      if formatRead.None? {
        return Err(ReadFailed), table, list;
      }
      var (format, c0) := formatRead.value;
      if format != 1 {
        return Err(InvalidFormat), table, list;
      }
      var header := ReadHeader(reader, uncompressed, c0);
      if header.None? {
        return Err(ReadFailed), table, list;
      }
      var h := header.value;
      var n := Wrap32(Wrap32(h.xSize * h.ySize) * h.zSize);
      if n < 0 {
        return Err(NegativeSize), table, list;
      }
      var c;
      table, c := ReadBlockTable(reader, uncompressed, h.bits, h.next, n);
      if c.None? {
        return Err(ReadFailed), table, list;
      }
      r, list := ReadModelTable(reader, codecs, uncompressed, h, table[..], c.value);
    }

    /** The block table: n entries read with the given bit width, or None if a read threw. */
    static method ReadBlockTable(reader: FormatReader, u: seq<bv8>, bits: I32, c0: Cursor, n: nat)
      returns (table: array<I32>, c: Option<Cursor>)
      ensures fresh(table) && table.Length == n
      ensures var r := ReadMany(BlockStep(reader, u, bits), c0, n);
              (c.None? <==> r.None?) && (r.Some? ==> table[..] == r.value.0 && c.value == r.value.1)
    {
      table := new I32[n];
      var cursor := c0;
      for x := 0 to n
        invariant ReadMany(BlockStep(reader, u, bits), c0, x) == Some((table[..x], cursor))
      {
        var read := reader.readBits(u, cursor, bits);
        if read.None? {
          ReadManyFailsOnward(BlockStep(reader, u, bits), c0, x + 1, n);
          return table, None;
        }
        table[x] := read.value.0;
        cursor := read.value.1;
        assert table[..x + 1] == table[..x] + [table[x]];
      }
      assert table[..] == table[..n];
      c := Some(cursor);
    }

    /** After the block table: snap to a byte, read the model count and that many model records, then keep the consumed prefix. */
    static method ReadModelTable(reader: FormatReader, codecs: Codecs, u: seq<bv8>, h: Header, blocks: seq<I32>, c: Cursor)
      returns (r: Result<Parsed, ShareError>, list: array<SharedWorldBlock>)
      ensures r == ReadModels(reader, codecs, u, h, blocks, c)
      ensures fresh(list) && (r.Ok? ==> list[..] == r.value.models)
    {
      list := new SharedWorldBlock[0];
      var countRead := reader.readInt(u, reader.snapToByte(c));
      if countRead.None? {
        return Err(ReadFailed), list;
      }
      var (modelCount, c0) := countRead.value;
      if modelCount < 0 {
        return Err(NegativeSize), list;
      }
      list := new SharedWorldBlock[modelCount];
      var cursor := c0;
      for x := 0 to modelCount
        invariant ReadMany(ModelStep(reader, codecs, u), c0, x) == Some((list[..x], cursor))
      {
        var bytes := reader.readBytes(u, cursor);
        if bytes.None? {
          ReadManyFailsOnward(ModelStep(reader, codecs, u), c0, x + 1, modelCount);
          return Err(ReadFailed), list;
        }
        list[x] := SharedWorldBlockOf(codecs, bytes.value.0);
        cursor := bytes.value.1;
        assert list[..x + 1] == list[..x] + [list[x]];
      }
      assert list[..] == list[..modelCount];
      var len := MinInt(reader.consumedBytes(cursor), |u|);
      if len < 0 {
        return Err(NegativeSize), list;
      }
      r := Ok(Parsed(h.xSize, h.ySize, h.zSize, blocks, list[..], u[..len]));
    }

    /**
     * getBlob: the model's blob, or for a named block its state when supported (else air); the
     * empty reference for a position or model id out of range. None is the
     * ArrayIndexOutOfBoundsException of an index that wrapped past the table.
     */
    function GetBlob(codecs: Codecs, stateOf: string -> int, supported: string -> bool, x: I32, y: I32, z: I32): (r: Option<BlobSource>)
      reads this, blocks, models
      ensures !(0 <= x < xSize && 0 <= y < ySize && 0 <= z < zSize) ==> r == Some(AIR_BLOB)
      ensures 0 <= x < xSize && 0 <= y < ySize && 0 <= z < zSize ==>
                (r.None? <==> !(0 <= LinearIndex(x, y, z, xSize, xySize) < blocks.Length))
      ensures r.Some? && 0 <= x < xSize && 0 <= y < ySize && 0 <= z < zSize && 0 <= LinearIndex(x, y, z, xSize, xySize) < blocks.Length ==>
                var id := blocks[LinearIndex(x, y, z, xSize, xySize)];
                r.value == if 0 <= id < models.Length then ModelBlob(codecs, stateOf, supported, models[id]) else AIR_BLOB
    {
      if 0 <= x && 0 <= y && 0 <= z && x < xSize && y < ySize && z < zSize then
        var index := LinearIndex(x, y, z, xSize, xySize);
        if 0 <= index < blocks.Length then
          var modelid := blocks[index];
          if models.Length > modelid && modelid >= 0 then Some(ModelBlob(codecs, stateOf, supported, models[modelid]))
          else Some(AIR_BLOB)
        else None
      else Some(AIR_BLOB)
    }

    /** After a successful read of a table that fits an int, getBlob never throws and reads entry x + y*xSize + z*xSize*ySize. */
    lemma GetBlobInBounds(p: Parsed, codecs: Codecs, stateOf: string -> int, supported: string -> bool, x: I32, y: I32, z: I32)
      requires Holds(p) && |p.blocks| == Wrap32(Wrap32(p.xSize * p.ySize) * p.zSize)
      requires 0 <= x < xSize && 0 <= y < ySize && 0 <= z < zSize
      requires p.xSize * p.ySize * p.zSize < 0x8000_0000
      ensures var i := x + y * xSize + z * (xSize * ySize);
              0 <= i < |p.blocks| &&
              var id := p.blocks[i];
              GetBlob(codecs, stateOf, supported, x, y, z)
                == Some(if 0 <= id < |p.models| then ModelBlob(codecs, stateOf, supported, p.models[id]) else AIR_BLOB)
    {
      LinearIndexInRange(x, y, z, xSize, ySize, zSize);
      var i := x + y * xSize + z * (xSize * ySize);
      assert LinearIndex(x, y, z, xSize, xySize) == i;
      assert 0 <= i < blocks.Length;
      assert blocks[i] == p.blocks[i];
    }
  }

  /** ShareWorldData(String): on success a new structure holding what ParseString reads. */
  method FromString(reader: FormatReader, codecs: Codecs, data: string) returns (r: Result<ShareData, ShareError>)
    ensures var p := ParseString(reader, codecs, data);
            && (r.Err? <==> p.Err?) && (p.Err? ==> r.error == p.error)
            && (p.Ok? ==> fresh(r.value) && r.value.Holds(p.value))
  {
    var payload := Payload(data);
    if payload.Err? {
      return Err(payload.error);
    }
    var compressed := codecs.base64(payload.value);
    if compressed.None? {
      return Err(BadBase64);
    }
    r := FromCompressed(reader, codecs, compressed.value);
  }

  /** ShareWorldData(byte[]): on success a new structure holding what ParseCompressed reads. */
  method FromCompressed(reader: FormatReader, codecs: Codecs, compressed: seq<bv8>) returns (r: Result<ShareData, ShareError>)
    ensures var p := ParseCompressed(reader, codecs, compressed);
            && (r.Err? <==> p.Err?) && (p.Err? ==> r.error == p.error)
            && (p.Ok? ==> fresh(r.value) && r.value.Holds(p.value))
  {
    var share := new ShareData();
    var o := share.ReadCompressed(reader, codecs, compressed);
    if o.Fail? {
      return Err(o.error);
    }
    return Ok(share);
  }
}
