/**
 * The user-data container (UserFile.cs): a fixed header checked against
 * its magic, a resource table, a userdata table and an object-graph
 * payload read through a view rebased at `dataOffset`. Writing appends the
 * tables at 16-aligned positions, the pooled strings and the payload, then
 * patches the header back where it was read from.
 */
module User {
  import opened Wrappers
  import opened FileIO

  const Magic: int := 0x525355

  /** `sizeof(HeaderStruct)`: a 4-byte magic and three 4-byte counts, then three 8-byte offsets. */
  const HeaderSize: nat := 40

  datatype HeaderStruct = HeaderStruct(
    magic: int,
    resourceCount: int,
    userdataCount: int,
    infoCount: int,
    resourceInfoOffset: int,
    userdataInfoOffset: int,
    dataOffset: int)

  /**
   * What the bytes of a user file hold, read at a given position: the
   * header (None when the stream cannot supply it) and one record of each
   * table kind.
   */
  datatype UserImage = UserImage(
    header: int -> Option<HeaderStruct>,
    resourceInfo: int -> ResourceInfo,
    userdataInfo: int -> UserdataInfo)

  /**
   * The specification of `DoWrite`: the header it patches and the regions it
   * writes, in order, given the header before the write, the offset it was
   * read from, the two list lengths and the opaque sizes. Both tables start
   * at 16-aligned positions; the payload starts right after the pooled
   * strings, with no alignment of its own.
   */
  function PlanWrite(h: HeaderStruct, headerStart: int, nResource: nat, nUserdata: nat, sizes: Sizes)
    : (plan: WritePlan<HeaderStruct>)
    ensures plan.header.magic == h.magic && plan.header.infoCount == h.infoCount
    ensures plan.header.resourceCount == nResource && plan.header.userdataCount == nUserdata
    ensures plan.header.resourceInfoOffset == AlignUp(HeaderSize)
    ensures plan.header.userdataInfoOffset % Alignment == 0
    ensures plan.header.resourceInfoOffset + Bytes(nResource, sizes.resourceInfo) <= plan.header.userdataInfoOffset
    ensures plan.header.dataOffset
      == plan.header.userdataInfoOffset + Bytes(nUserdata, sizes.userdataInfo) + sizes.stringPool
    ensures plan.regions == [
      Region(ResourceTable, plan.header.resourceInfoOffset, Bytes(nResource, sizes.resourceInfo)),
      Region(UserdataTable, plan.header.userdataInfoOffset, Bytes(nUserdata, sizes.userdataInfo)),
      Region(StringPool, plan.header.dataOffset - sizes.stringPool, sizes.stringPool),
      Region(Payload, plan.header.dataOffset, sizes.payload),
      Region(HeaderBlock, headerStart, HeaderSize)]
  {
    var resourceAt := AlignUp(HeaderSize);
    var userdataAt := AlignUp(resourceAt + Bytes(nResource, sizes.resourceInfo));
    var poolAt := userdataAt + Bytes(nUserdata, sizes.userdataInfo);
    var dataAt := poolAt + sizes.stringPool;
    var header := h.(
      resourceInfoOffset := resourceAt,
      userdataInfoOffset := userdataAt,
      dataOffset := dataAt,
      resourceCount := nResource,
      userdataCount := nUserdata);
    WritePlan(header, [
      Region(ResourceTable, resourceAt, Bytes(nResource, sizes.resourceInfo)),
      Region(UserdataTable, userdataAt, Bytes(nUserdata, sizes.userdataInfo)),
      Region(StringPool, poolAt, sizes.stringPool),
      Region(Payload, dataAt, sizes.payload),
      Region(HeaderBlock, headerStart, HeaderSize)])
  }

  /**
   * Every offset and count the patched header records points at the table
   * written there with that many entries, and the header goes back where
   * it was read from.
   */
  lemma PlanTablesAt(h: HeaderStruct, headerStart: int, nResource: nat, nUserdata: nat, sizes: Sizes)
    ensures
      var plan := PlanWrite(h, headerStart, nResource, nUserdata, sizes);
      var p := plan.header;
      && Find(plan.regions, ResourceTable)
         == Some(Region(ResourceTable, p.resourceInfoOffset, Bytes(nResource, sizes.resourceInfo)))
      && Find(plan.regions, UserdataTable)
         == Some(Region(UserdataTable, p.userdataInfoOffset, Bytes(nUserdata, sizes.userdataInfo)))
      && Find(plan.regions, Payload) == Some(Region(Payload, p.dataOffset, sizes.payload))
      && Find(plan.regions, HeaderBlock) == Some(Region(HeaderBlock, headerStart, HeaderSize))
      && Find(plan.regions, InfoTable).None? && Find(plan.regions, RefInfoTable).None?
  {
    var regions := PlanWrite(h, headerStart, nResource, nUserdata, sizes).regions;
    forall section: Section
      ensures Find(regions, section)
        == OrElse(OrElse(OrElse(OrElse(
             Find([regions[0]], section), Find([regions[1]], section)), Find([regions[2]], section)),
             Find([regions[3]], section)), Find([regions[4]], section))
    {
      assert regions == [regions[0]] + [regions[1]] + [regions[2]] + [regions[3]] + [regions[4]];
      FindAppend([regions[0]], [regions[1]], section);
      FindAppend([regions[0]] + [regions[1]], [regions[2]], section);
      FindAppend([regions[0]] + [regions[1]] + [regions[2]], [regions[3]], section);
      FindAppend([regions[0]] + [regions[1]] + [regions[2]] + [regions[3]], [regions[4]], section);
    }
    forall section: Section, k | 0 <= k < 5
      ensures Find([regions[k]], section) == if regions[k].section == section then Some(regions[k]) else None
    {
      FindOne(regions[k], section);
    }
  }

  /**
   * The payload offset is not realigned: it is 16-aligned exactly when the
   * userdata table and the pooled strings together fill whole 16-byte
   * blocks. With no table entries and one byte of pooled strings, for
   * instance, it lands at 49.
   */
  lemma UnalignedPayload(h: HeaderStruct, headerStart: int, nResource: nat, nUserdata: nat, sizes: Sizes)
    ensures
      var p := PlanWrite(h, headerStart, nResource, nUserdata, sizes).header;
      p.dataOffset % Alignment == 0 <==> (Bytes(nUserdata, sizes.userdataInfo) + sizes.stringPool) % Alignment == 0
    ensures PlanWrite(h, 0, 0, 0, Sizes(0, 0, 1, 0)).header.dataOffset == 49
  {
    var p := PlanWrite(h, headerStart, nResource, nUserdata, sizes).header;
    var tail := Bytes(nUserdata, sizes.userdataInfo) + sizes.stringPool;
    var blocks := p.userdataInfoOffset / Alignment;
    assert p.dataOffset == blocks * Alignment + tail;
  }

  /**
   * A read locates the resource table at `dataOffset`, where a write never
   * puts it: whenever the written resource table holds any bytes, the two
   * offsets differ.
   */
  lemma ResourceTableNotAtDataOffset(h: HeaderStruct, headerStart: int, nResource: nat, nUserdata: nat, sizes: Sizes)
    requires Bytes(nResource, sizes.resourceInfo) > 0
    ensures
      var p := PlanWrite(h, headerStart, nResource, nUserdata, sizes).header;
      p.dataOffset != p.resourceInfoOffset
  {
  }

  class UserFile {
    const handler: FileHandler

    var header: HeaderStruct
    /** Where the header was last read from: where `Rewrite` patches it back. */
    var headerStart: int
    var resourceInfoList: seq<ResourceInfo>
    var userdataInfoList: seq<UserdataInfo>
    /** The parsed payload, absent until a read reaches it. */
    var rsz: Option<RszPayload>

    constructor (handler: FileHandler)
      ensures this.handler == handler
      ensures header == HeaderStruct(0, 0, 0, 0, 0, 0, 0) && headerStart == 0
      ensures resourceInfoList == [] && userdataInfoList == [] && rsz == None
    {
      this.handler := handler;
      header := HeaderStruct(0, 0, 0, 0, 0, 0, 0);
      headerStart := 0;
      resourceInfoList := [];
      userdataInfoList := [];
      rsz := None;
    }

    /**
     * Reads the header at the stream's position: when it cannot be read,
     * returns false and touches nothing; when its magic is wrong, raises
     * InvalidDataException before any table is read. Otherwise appends the
     * resource entries read from `dataOffset` and the userdata entries read
     * from `userdataInfoOffset`, and parses the payload through a view whose
     * position 0 is `dataOffset`.
     */
    method DoRead(image: UserImage, sizes: Sizes) returns (r: ReadResult)
      modifies this, handler
      ensures handler.written == old(handler.written)
      ensures image.header(old(handler.position)).None? ==>
        && r == Done(false)
        && header == old(header) && headerStart == old(headerStart)
        && resourceInfoList == old(resourceInfoList) && userdataInfoList == old(userdataInfoList)
        && rsz == old(rsz) && handler.position == old(handler.position)
      ensures image.header(old(handler.position)).Some? ==>
        var h := image.header(old(handler.position)).value;
        && header == h && headerStart == old(handler.position)
        && (h.magic != Magic ==>
              && r == InvalidData(handler.filePath + " Not a SCN file")
              && resourceInfoList == old(resourceInfoList) && userdataInfoList == old(userdataInfoList)
              && rsz == old(rsz) && handler.position == old(handler.position) + HeaderSize)
        && (h.magic == Magic ==>
              && r == Done(true)
              && resourceInfoList == old(resourceInfoList)
                 + Table(image.resourceInfo, h.dataOffset, sizes.resourceInfo, h.resourceCount)
              && userdataInfoList == old(userdataInfoList)
                 + Table(image.userdataInfo, h.userdataInfoOffset, sizes.userdataInfo, h.userdataCount)
              && rsz == Some(RszPayload(h.dataOffset, 0)))
    {
      var start := handler.position;
      var read := handler.ReadStruct(image.header, HeaderSize);
      if read.None? {
        return Done(false);
      }
      header, headerStart := read.value, start;
      if header.magic != Magic {
        return InvalidData(handler.filePath + " Not a SCN file");
      }

      handler.Seek(header.dataOffset);
      var resourceInfos := handler.ReadTable(image.resourceInfo, sizes.resourceInfo, header.resourceCount);
      resourceInfoList := resourceInfoList + resourceInfos;

      handler.Seek(header.userdataInfoOffset);
      var userdataInfos := handler.ReadTable(image.userdataInfo, sizes.userdataInfo, header.userdataCount);
      userdataInfoList := userdataInfoList + userdataInfos;

      rsz := Some(RszPayload(header.dataOffset, 0));
      return Done(true);
    }

    /**
     * Appends both tables at 16-aligned positions after the header, the
     * pooled strings and the payload through a view rebased at the
     * position the strings end at, then patches the header with the final
     * counts and offsets back where it was read from. The payload must have
     * been read (`RSZ!`).
     */
    method DoWrite(sizes: Sizes) returns (ok: bool)
      requires rsz.Some?
      modifies this`header, handler
      ensures ok
      ensures
        var plan := PlanWrite(old(header), headerStart, |resourceInfoList|, |userdataInfoList|, sizes);
        && header == plan.header
        && handler.written == old(handler.written) + plan.regions
    {
      ghost var before := handler.written;
      handler.Seek(HeaderSize);
      handler.Align();
      var resourceAt := handler.Tell();
      header := header.(resourceInfoOffset := resourceAt);
      handler.Write(ResourceTable, Bytes(|resourceInfoList|, sizes.resourceInfo));

      handler.Align();
      var userdataAt := handler.Tell();
      header := header.(userdataInfoOffset := userdataAt);
      handler.Write(UserdataTable, Bytes(|userdataInfoList|, sizes.userdataInfo));

      handler.Write(StringPool, sizes.stringPool);

      var dataAt := handler.Tell();
      header := header.(dataOffset := dataAt);
      handler.Rewrite(Payload, sizes.payload, dataAt);

      header := header.(resourceCount := |resourceInfoList|, userdataCount := |userdataInfoList|);
      handler.Rewrite(HeaderBlock, HeaderSize, headerStart);
      return true;
    }
  }
}
