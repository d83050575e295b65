/**
 * The narrow stream contract the containers consume (the FileHandler of
 * the repository, which is not part of this model): a position that can be
 * sought, told and aligned, a log of the regions written in order, and the
 * decoding of fixed-size records at a position.
 */
module FileIO {
  import opened Wrappers

  /** The only boundary the containers align to. */
  const Alignment: nat := 16

  /** Smallest multiple of 16 that is at least `p`: where `Align(16)` leaves the stream. */
  function AlignUp(p: nat): (r: nat)
    ensures r % Alignment == 0
    ensures p <= r < p + Alignment
  {
    if p % Alignment == 0 then p else p + (Alignment - p % Alignment)
  }

  /** How many times `for (int i = 0; i < n; i++)` runs. */
  function Iterations(n: int): nat {
    if n > 0 then n else 0
  }

  /**
   * The records a counted loop reads back to back: `count` records of
   * `entrySize` bytes each, the first at `start`.
   */
  function Table<T>(decode: int -> T, start: int, entrySize: nat, count: int): (r: seq<T>)
    ensures |r| == Iterations(count)
    ensures forall k :: 0 <= k < |r| ==> r[k] == decode(start + k * entrySize)
  {
    if count <= 0 then []
    else Table(decode, start, entrySize, count - 1) + [decode(start + (count - 1) * entrySize)]
  }

  /** The byte length of a table of `count` records of `entrySize` bytes. */
  function Bytes(count: nat, entrySize: nat): nat {
    count * entrySize
  }

  /** The sections a container writes. */
  datatype Section = HeaderBlock | InfoTable | RefInfoTable | ResourceTable | UserdataTable | StringPool | Payload

  /** `length` bytes of one section written at `start`. */
  datatype Region = Region(section: Section, start: int, length: nat) {
    function End(): int {
      start + length
    }
  }

  /** The first region of a section in a write log, if any. */
  function Find(regions: seq<Region>, section: Section): (r: Option<Region>)
    ensures r.Some? ==> r.value.section == section
  {
    if regions == [] then None
    else if regions[0].section == section then Some(regions[0])
    else Find(regions[1..], section)
  }

  /** The first of two lookups that found something. */
  function OrElse(first: Option<Region>, second: Option<Region>): Option<Region> {
    if first.Some? then first else second
  }

  /** A one-region log has a section exactly when its region does. */
  lemma FindOne(region: Region, section: Section)
    ensures Find([region], section) == if region.section == section then Some(region) else None
  {
    assert [region][1..] == [];
  }

  /** The first region of a section in a concatenated log comes from the first part when it has one. */
  lemma {:induction false} FindAppend(a: seq<Region>, b: seq<Region>, section: Section)
    ensures Find(a + b, section) == OrElse(Find(a, section), Find(b, section))
  {
    if a == [] {
      assert a + b == b;
    } else {
      assert (a + b)[0] == a[0];
      assert (a + b)[1..] == a[1..] + b;
      FindAppend(a[1..], b, section);
    }
  }

  /** Appending two parts one after the other appends their concatenation. */
  lemma AppendTwice(log: seq<Region>, first: seq<Region>, second: seq<Region>)
    ensures log + first + second == log + (first + second)
  {
  }

  /** Regions laid out one after another, none starting before `from`. */
  ghost predicate Sequential(regions: seq<Region>, from: int) {
    && (forall k :: 0 <= k < |regions| ==> from <= regions[k].start)
    && (forall k :: 0 < k < |regions| ==> regions[k - 1].End() <= regions[k].start)
  }

  /** A resource-table entry: the path of an external resource. */
  datatype ResourceInfo = ResourceInfo(path: string)

  /** A userdata-table entry: an embedded userdata class and its path. */
  datatype UserdataInfo = UserdataInfo(typeId: int, crc: int, path: string)

  /**
   * Where an object-graph payload was parsed: through a view whose position
   * 0 is `viewBase`, starting at `start` within that view.
   */
  datatype RszPayload = RszPayload(viewBase: int, start: int)

  /** A container read returns a verdict or throws InvalidDataException. */
  datatype ReadResult = Done(ok: bool) | InvalidData(message: string)

  /**
   * The byte sizes the model treats as opaque: one resource entry, one
   * userdata entry, the pooled strings and the serialized payload.
   */
  datatype Sizes = Sizes(resourceInfo: nat, userdataInfo: nat, stringPool: nat, payload: nat)

  /** The outcome of a container write: the header it patches and the regions it writes, in order. */
  datatype WritePlan<H> = WritePlan(header: H, regions: seq<Region>)

  class FileHandler {
    const filePath: string
    var position: int
    /** Every region written so far, in the order written. */
    var written: seq<Region>

    constructor (filePath: string)
      ensures this.filePath == filePath && position == 0 && written == []
    {
      this.filePath := filePath;
      position := 0;
      written := [];
    }

    method Seek(p: int)
      modifies this`position
      ensures position == p
    {
      position := p;
    }

    method Tell() returns (p: int)
      ensures p == position
    {
      p := position;
    }

    /** `Align(16)`: pads to the next multiple of 16. */
    method Align()
      requires position >= 0
      modifies this`position
      ensures position == AlignUp(old(position))
    {
      position := AlignUp(position);
    }

    /** Writes `length` bytes of `section` at the current position. */
    method Write(section: Section, length: nat)
      modifies this`written, this`position
      ensures written == old(written) + [Region(section, old(position), length)]
      ensures position == old(position) + length
    {
      written := written + [Region(section, position, length)];
      position := position + length;
    }

    /**
     * Patches `length` bytes of `section` back at `at`, a position recorded
     * earlier; the stream's position is left where it was.
     */
    method Rewrite(section: Section, length: nat, at: int)
      modifies this`written
      ensures written == old(written) + [Region(section, at, length)]
    {
      written := written + [Region(section, at, length)];
    }

    /** Reads a struct of `size` bytes; `decode` says what the bytes at a position hold, if they suffice. */
    method ReadStruct<H>(decode: int -> Option<H>, size: nat) returns (r: Option<H>)
      modifies this`position
      ensures r == decode(old(position))
      ensures position == if r.Some? then old(position) + size else old(position)
    {
      r := decode(position);
      if r.Some? {
        position := position + size;
      }
    }

    /**
     * The counted loop `for (int i = 0; i < count; i++)` that reads one
     * record per turn and appends it to a list.
     */
    method ReadTable<T>(decode: int -> T, size: nat, count: int) returns (entries: seq<T>)
      modifies this`position
      ensures entries == Table(decode, old(position), size, count)
      ensures position == old(position) + Bytes(Iterations(count), size)
    {
      entries := [];
      var i := 0;
      while i < count
        invariant 0 <= i <= Iterations(count)
        invariant entries == Table(decode, old(position), size, i)
        invariant position == old(position) + Bytes(i, size)
      {
        var entry := ReadEntry(decode, size);
        entries := entries + [entry];
        i := i + 1;
      }
    }

    /** Reads `length` bytes whose contents the model does not follow. */
    method Skip(length: nat)
      modifies this`position
      ensures position == old(position) + length
    {
      position := position + length;
    }

    /** Reads one record of `size` bytes. */
    method ReadEntry<T>(decode: int -> T, size: nat) returns (r: T)
      modifies this`position
      ensures r == decode(old(position))
      ensures position == old(position) + size
    {
      r := decode(position);
      position := position + size;
    }
  }
}
