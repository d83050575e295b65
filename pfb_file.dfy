/**
 * The prefab container (PfbFile.cs): a fixed header, the game-object table
 * read right after it, three more counted tables at offsets the header
 * declares, and the object-graph payload. Writing appends the tables at
 * 16-aligned positions, except the reference table, which directly follows
 * the game-object table; it records their offsets in the header and patches
 * the header back at offset 0 with the final counts.
 */
module Pfb {
  import opened Wrappers
  import opened FileIO

  const Magic: int := 4343376

  /**
   * `sizeof(HeaderStruct)`: a 4-byte magic and three 4-byte counts, then
   * five 8-byte fields.
   */
  const HeaderSize: nat := 56

  /** `sizeof(GameObjectInfo)`: three 4-byte integers. */
  const GameObjectInfoSize: nat := 12

  /** `sizeof(GameObjectRefInfo)`: four 4-byte integers. */
  const GameObjectRefInfoSize: nat := 16

  datatype HeaderStruct = HeaderStruct(
    magic: int,
    infoCount: int,
    resourceCount: int,
    gameObjectRefInfoCount: int,
    userdataCount: int,
    gameObjectRefInfoOffset: int,
    resourceInfoOffset: int,
    userdataInfoOffset: int,
    dataOffset: int)

  datatype GameObjectInfo = GameObjectInfo(objectId: int, parentId: int, componentCount: int)

  datatype GameObjectRefInfo = GameObjectRefInfo(objectId: int, propertyId: int, arrayIndex: int, targetId: int)

  /**
   * What the bytes of a prefab file hold, read at a given position: the
   * header (None when the stream cannot supply it) and one record of each
   * table kind.
   */
  datatype PfbImage = PfbImage(
    header: int -> Option<HeaderStruct>,
    gameObjectInfo: int -> GameObjectInfo,
    gameObjectRefInfo: int -> GameObjectRefInfo,
    resourceInfo: int -> ResourceInfo,
    userdataInfo: int -> UserdataInfo)

  /** The games whose prefabs carry a versioned extension. */
  const KnownGames: set<string> := {"re2", "re3", "re4", "re8", "re7", "dmc5", "mhrise", "sf6"}

  /**
   * The positions `DoWrite` passes through: where each table starts and
   * where the stream stands after it.
   */
  datatype Layout = Layout(
    infoAt: nat, afterInfo: nat, afterRefs: nat,
    resourceAt: nat, afterResources: nat,
    userdataAt: nat, afterUserdata: nat, dataAt: nat)

  function WriteLayout(writesRefs: bool, nInfo: nat, nRef: nat, nResource: nat, nUserdata: nat, sizes: Sizes): Layout {
    var infoAt := AlignUp(HeaderSize);
    var afterInfo := infoAt + Bytes(nInfo, GameObjectInfoSize);
    var afterRefs := if writesRefs then afterInfo + Bytes(nRef, GameObjectRefInfoSize) else afterInfo;
    var resourceAt := AlignUp(afterRefs);
    var afterResources := resourceAt + Bytes(nResource, sizes.resourceInfo);
    var userdataAt := if nUserdata > 0 then AlignUp(afterResources) else afterResources;
    var afterUserdata := if nUserdata > 0 then userdataAt + Bytes(nUserdata, sizes.userdataInfo) else afterResources;
    Layout(infoAt, afterInfo, afterRefs, resourceAt, afterResources, userdataAt, afterUserdata,
           AlignUp(afterUserdata + sizes.stringPool))
  }

  /** The reference table's region, when it is written. */
  function RefRegions(writesRefs: bool, l: Layout, nRef: nat): seq<Region> {
    if writesRefs then [Region(RefInfoTable, l.afterInfo, Bytes(nRef, GameObjectRefInfoSize))] else []
  }

  /** The userdata table's region, when it is written. */
  function UserdataRegions(l: Layout, nUserdata: nat, sizes: Sizes): seq<Region> {
    if nUserdata > 0 then [Region(UserdataTable, l.userdataAt, Bytes(nUserdata, sizes.userdataInfo))] else []
  }

  /** The game-object table's region, then the reference table's when it is written. */
  function GameObjectRegions(writesRefs: bool, l: Layout, nInfo: nat, nRef: nat): seq<Region> {
    [Region(InfoTable, l.infoAt, Bytes(nInfo, GameObjectInfoSize))] + RefRegions(writesRefs, l, nRef)
  }

  /** The resource table's region, then the userdata table's when it is written. */
  function EntryRegions(l: Layout, nResource: nat, nUserdata: nat, sizes: Sizes): seq<Region> {
    [Region(ResourceTable, l.resourceAt, Bytes(nResource, sizes.resourceInfo))] + UserdataRegions(l, nUserdata, sizes)
  }

  /** The pooled strings' region, then the payload's. */
  function TailRegions(l: Layout, sizes: Sizes): seq<Region> {
    [Region(StringPool, l.afterUserdata, sizes.stringPool), Region(Payload, l.dataAt, sizes.payload)]
  }

  /** Every region `DoWrite` writes, in order: the three groups it writes in turn, then the header at 0. */
  function WriteLog(writesRefs: bool, l: Layout, nInfo: nat, nRef: nat, nResource: nat, nUserdata: nat, sizes: Sizes)
    : seq<Region>
  {
    GameObjectRegions(writesRefs, l, nInfo, nRef) + EntryRegions(l, nResource, nUserdata, sizes)
    + TailRegions(l, sizes) + [Region(HeaderBlock, 0, HeaderSize)]
  }

  /**
   * The specification of `DoWrite`: the header it patches and the regions it
   * writes, in order, given the header before the write, the four list
   * lengths and the opaque sizes. Tables land after the header at
   * 16-aligned positions, except the reference table, which follows the
   * game-object table directly and is written only when the header's count
   * before the write is positive; the userdata table is written only when
   * there are userdata entries. A table not written keeps its old offset.
   */
  function PlanWrite(h: HeaderStruct, nInfo: nat, nRef: nat, nResource: nat, nUserdata: nat, sizes: Sizes)
    : (plan: WritePlan<HeaderStruct>)
    ensures plan.header.magic == h.magic
    ensures plan.header.infoCount == nInfo && plan.header.gameObjectRefInfoCount == nRef
    ensures plan.header.resourceCount == nResource && plan.header.userdataCount == nUserdata
    ensures plan.header.resourceInfoOffset % Alignment == 0 && plan.header.dataOffset % Alignment == 0
    ensures HeaderSize <= plan.header.resourceInfoOffset <= plan.header.dataOffset
    ensures h.gameObjectRefInfoCount > 0 ==>
      plan.header.gameObjectRefInfoOffset == AlignUp(HeaderSize) + Bytes(nInfo, GameObjectInfoSize)
      && plan.header.gameObjectRefInfoOffset <= plan.header.resourceInfoOffset
    ensures h.gameObjectRefInfoCount <= 0 ==> plan.header.gameObjectRefInfoOffset == h.gameObjectRefInfoOffset
    ensures nUserdata > 0 ==>
      plan.header.userdataInfoOffset % Alignment == 0
      && plan.header.resourceInfoOffset <= plan.header.userdataInfoOffset <= plan.header.dataOffset
    ensures nUserdata == 0 ==> plan.header.userdataInfoOffset == h.userdataInfoOffset
    ensures |plan.regions| > 0 && plan.regions[|plan.regions| - 1] == Region(HeaderBlock, 0, HeaderSize)
  {
    var writesRefs := h.gameObjectRefInfoCount > 0;
    var l := WriteLayout(writesRefs, nInfo, nRef, nResource, nUserdata, sizes);
    var header := h.(
      infoCount := nInfo,
      resourceCount := nResource,
      gameObjectRefInfoCount := nRef,
      userdataCount := nUserdata,
      gameObjectRefInfoOffset := if writesRefs then l.afterInfo else h.gameObjectRefInfoOffset,
      resourceInfoOffset := l.resourceAt,
      userdataInfoOffset := if nUserdata > 0 then l.userdataAt else h.userdataInfoOffset,
      dataOffset := l.dataAt);
    WritePlan(header, WriteLog(writesRefs, l, nInfo, nRef, nResource, nUserdata, sizes))
  }

  /**
   * Every offset and count the patched header records points at the table
   * written there with that many entries; the reference table is in the
   * log exactly when the header's count before the write was positive, and
   * the userdata table exactly when there are userdata entries.
   */
  lemma PlanTablesAt(h: HeaderStruct, nInfo: nat, nRef: nat, nResource: nat, nUserdata: nat, sizes: Sizes)
    ensures
      var plan := PlanWrite(h, nInfo, nRef, nResource, nUserdata, sizes);
      var p := plan.header;
      && Find(plan.regions, InfoTable) == Some(Region(InfoTable, AlignUp(HeaderSize), Bytes(nInfo, GameObjectInfoSize)))
      && (Find(plan.regions, RefInfoTable).Some? <==> h.gameObjectRefInfoCount > 0)
      && (h.gameObjectRefInfoCount > 0 ==>
            Find(plan.regions, RefInfoTable)
            == Some(Region(RefInfoTable, p.gameObjectRefInfoOffset, Bytes(nRef, GameObjectRefInfoSize))))
      && Find(plan.regions, ResourceTable)
         == Some(Region(ResourceTable, p.resourceInfoOffset, Bytes(nResource, sizes.resourceInfo)))
      && (Find(plan.regions, UserdataTable).Some? <==> nUserdata > 0)
      && (nUserdata > 0 ==>
            Find(plan.regions, UserdataTable)
            == Some(Region(UserdataTable, p.userdataInfoOffset, Bytes(nUserdata, sizes.userdataInfo))))
      && Find(plan.regions, StringPool).Some?
      && Find(plan.regions, Payload) == Some(Region(Payload, p.dataOffset, sizes.payload))
      && Find(plan.regions, HeaderBlock) == Some(Region(HeaderBlock, 0, HeaderSize))
  {
    var writesRefs := h.gameObjectRefInfoCount > 0;
    var l := WriteLayout(writesRefs, nInfo, nRef, nResource, nUserdata, sizes);
    forall section: Section
      ensures Find(WriteLog(writesRefs, l, nInfo, nRef, nResource, nUserdata, sizes), section)
        == Located(writesRefs, l, nInfo, nRef, nResource, nUserdata, sizes, section)
    {
      LogTablesAt(writesRefs, l, nInfo, nRef, nResource, nUserdata, sizes, section);
    }
  }

  /** Where each section lies in the write log of a given layout, if it is written. */
  function Located(writesRefs: bool, l: Layout, nInfo: nat, nRef: nat, nResource: nat, nUserdata: nat, sizes: Sizes,
                   section: Section): Option<Region>
  {
    match section
    case InfoTable => Some(Region(InfoTable, l.infoAt, Bytes(nInfo, GameObjectInfoSize)))
    case RefInfoTable =>
      if writesRefs then Some(Region(RefInfoTable, l.afterInfo, Bytes(nRef, GameObjectRefInfoSize))) else None
    case ResourceTable => Some(Region(ResourceTable, l.resourceAt, Bytes(nResource, sizes.resourceInfo)))
    case UserdataTable =>
      if nUserdata > 0 then Some(Region(UserdataTable, l.userdataAt, Bytes(nUserdata, sizes.userdataInfo))) else None
    case StringPool => Some(Region(StringPool, l.afterUserdata, sizes.stringPool))
    case Payload => Some(Region(Payload, l.dataAt, sizes.payload))
    case HeaderBlock => Some(Region(HeaderBlock, 0, HeaderSize))
  }

  /** Each section appears in the write log at most once, where `Located` says. */
  lemma LogTablesAt(writesRefs: bool, l: Layout, nInfo: nat, nRef: nat, nResource: nat, nUserdata: nat, sizes: Sizes,
                    section: Section)
    ensures Find(WriteLog(writesRefs, l, nInfo, nRef, nResource, nUserdata, sizes), section)
      == Located(writesRefs, l, nInfo, nRef, nResource, nUserdata, sizes, section)
  {
    var info := [Region(InfoTable, l.infoAt, Bytes(nInfo, GameObjectInfoSize))];
    var refs := RefRegions(writesRefs, l, nRef);
    var resources := [Region(ResourceTable, l.resourceAt, Bytes(nResource, sizes.resourceInfo))];
    var userdata := UserdataRegions(l, nUserdata, sizes);
    var pool := [Region(StringPool, l.afterUserdata, sizes.stringPool)];
    var payload := [Region(Payload, l.dataAt, sizes.payload)];
    var patch := [Region(HeaderBlock, 0, HeaderSize)];
    var objects := GameObjectRegions(writesRefs, l, nInfo, nRef);
    var entries := EntryRegions(l, nResource, nUserdata, sizes);
    var tail := TailRegions(l, sizes);
    assert tail == pool + payload;
    FindAppend(objects, entries, section);
    FindAppend(objects + entries, tail, section);
    FindAppend(objects + entries + tail, patch, section);
    FindAppend(info, refs, section);
    FindAppend(resources, userdata, section);
    FindAppend(pool, payload, section);
    FindOne(info[0], section);
    FindOne(resources[0], section);
    FindOne(pool[0], section);
    FindOne(payload[0], section);
    FindOne(patch[0], section);
    if writesRefs {
      FindOne(refs[0], section);
    }
    if nUserdata > 0 {
      FindOne(userdata[0], section);
    }
  }

  /**
   * Everything before the header patch is laid out after the header, each
   * region starting where the previous one ended or later.
   */
  lemma PlanSequential(h: HeaderStruct, nInfo: nat, nRef: nat, nResource: nat, nUserdata: nat, sizes: Sizes)
    ensures
      var regions := PlanWrite(h, nInfo, nRef, nResource, nUserdata, sizes).regions;
      Sequential(regions[..|regions| - 1], HeaderSize)
  {
    var writesRefs := h.gameObjectRefInfoCount > 0;
    var l := WriteLayout(writesRefs, nInfo, nRef, nResource, nUserdata, sizes);
    var body := GameObjectRegions(writesRefs, l, nInfo, nRef) + EntryRegions(l, nResource, nUserdata, sizes)
      + TailRegions(l, sizes);
    var regions := WriteLog(writesRefs, l, nInfo, nRef, nResource, nUserdata, sizes);
    assert regions[..|regions| - 1] == body;
    var info := Region(InfoTable, l.infoAt, Bytes(nInfo, GameObjectInfoSize));
    var resources := Region(ResourceTable, l.resourceAt, Bytes(nResource, sizes.resourceInfo));
    var pool := Region(StringPool, l.afterUserdata, sizes.stringPool);
    var payload := Region(Payload, l.dataAt, sizes.payload);
    var refs := Region(RefInfoTable, l.afterInfo, Bytes(nRef, GameObjectRefInfoSize));
    var userdata := Region(UserdataTable, l.userdataAt, Bytes(nUserdata, sizes.userdataInfo));
    if writesRefs && nUserdata > 0 {
      assert body == [info, refs, resources, userdata, pool, payload];
    } else if writesRefs {
      assert body == [info, refs, resources, pool, payload];
    } else if nUserdata > 0 {
      assert body == [info, resources, userdata, pool, payload];
    } else {
      assert body == [info, resources, pool, payload];
    }
  }

  /**
   * A reference list filled while the header's count was 0 is counted by
   * the patched header but not written: the header then records refs at an
   * offset where no reference table was written.
   */
  lemma StaleReferenceTable(h: HeaderStruct, nInfo: nat, nRef: nat, nResource: nat, nUserdata: nat, sizes: Sizes)
    requires h.gameObjectRefInfoCount <= 0 < nRef
    ensures
      var plan := PlanWrite(h, nInfo, nRef, nResource, nUserdata, sizes);
      && plan.header.gameObjectRefInfoCount == nRef
      && plan.header.gameObjectRefInfoOffset == h.gameObjectRefInfoOffset
      && Find(plan.regions, RefInfoTable).None?
  {
    PlanTablesAt(h, nInfo, nRef, nResource, nUserdata, sizes);
  }

  class PfbFile {
    const gameName: string
    const tdbVersion: int
    const handler: FileHandler

    var header: HeaderStruct
    var gameObjectInfoList: seq<GameObjectInfo>
    var gameObjectRefInfoList: seq<GameObjectRefInfo>
    var resourceInfoList: seq<ResourceInfo>
    var userdataInfoList: seq<UserdataInfo>
    /** The parsed payload, absent until a read reaches it. */
    var rsz: Option<RszPayload>

    constructor (gameName: string, tdbVersion: int, handler: FileHandler)
      ensures this.gameName == gameName && this.tdbVersion == tdbVersion && this.handler == handler
      ensures header == HeaderStruct(0, 0, 0, 0, 0, 0, 0, 0, 0)
      ensures gameObjectInfoList == [] && gameObjectRefInfoList == []
      ensures resourceInfoList == [] && userdataInfoList == [] && rsz == None
    {
      this.gameName := gameName;
      this.tdbVersion := tdbVersion;
      this.handler := handler;
      header := HeaderStruct(0, 0, 0, 0, 0, 0, 0, 0, 0);
      gameObjectInfoList := [];
      gameObjectRefInfoList := [];
      resourceInfoList := [];
      userdataInfoList := [];
      rsz := None;
    }

    /**
     * The numbered extension of this game's prefabs: ".16" for the older
     * format revisions, ".17" for the other known games, none otherwise.
     */
    function GetExtension(): (ext: Option<string>)
      ensures ext.None? <==> gameName !in KnownGames
      ensures ext == Some(".16") <==>
        (gameName == "re2" && tdbVersion == 66) || (gameName == "re7" && tdbVersion == 49) || gameName == "dmc5"
      ensures ext.Some? ==> ext.value == ".16" || ext.value == ".17"
    {
      match gameName
      case "re2" => Some(if tdbVersion == 66 then ".16" else ".17")
      case "re3" => Some(".17")
      case "re4" => Some(".17")
      case "re8" => Some(".17")
      case "re7" => Some(if tdbVersion == 49 then ".16" else ".17")
      case "dmc5" => Some(".16")
      case "mhrise" => Some(".17")
      case "sf6" => Some(".17")
      case _ => None
    }

    /**
     * Reads the header at the stream's position; when it cannot be read,
     * fails and touches nothing. Otherwise appends (without clearing) the
     * game objects that follow the header directly, then the reference,
     * resource and userdata entries, each table after a seek to its
     * header offset, and parses the payload at `dataOffset` through the
     * same stream, which it leaves after the payload. No magic check is
     * made.
     */
    method DoRead(image: PfbImage, sizes: Sizes) returns (ok: bool)
      modifies this`header, this`gameObjectInfoList, this`gameObjectRefInfoList, this`resourceInfoList
      modifies this`userdataInfoList, this`rsz, handler`position
      ensures handler.written == old(handler.written)
      ensures ok <==> image.header(old(handler.position)).Some?
      ensures !ok ==>
        && header == old(header) && rsz == old(rsz)
        && gameObjectInfoList == old(gameObjectInfoList) && gameObjectRefInfoList == old(gameObjectRefInfoList)
        && resourceInfoList == old(resourceInfoList) && userdataInfoList == old(userdataInfoList)
        && handler.position == old(handler.position)
      ensures ok ==>
        var h := image.header(old(handler.position)).value;
        && header == h
        && gameObjectInfoList == old(gameObjectInfoList)
           + Table(image.gameObjectInfo, old(handler.position) + HeaderSize, GameObjectInfoSize, h.infoCount)
        && gameObjectRefInfoList == old(gameObjectRefInfoList)
           + Table(image.gameObjectRefInfo, h.gameObjectRefInfoOffset, GameObjectRefInfoSize, h.gameObjectRefInfoCount)
        && resourceInfoList == old(resourceInfoList)
           + Table(image.resourceInfo, h.resourceInfoOffset, sizes.resourceInfo, h.resourceCount)
        && userdataInfoList == old(userdataInfoList)
           + Table(image.userdataInfo, h.userdataInfoOffset, sizes.userdataInfo, h.userdataCount)
        && rsz == Some(RszPayload(0, h.dataOffset))
        && handler.position == h.dataOffset + sizes.payload
    {
      var read := handler.ReadStruct(image.header, HeaderSize);
      if read.None? {
        return false;
      }
      header := read.value;
      ReadTables(image, sizes);
      handler.Seek(header.dataOffset);
      rsz := Some(RszPayload(0, header.dataOffset));
      handler.Skip(sizes.payload);
      return true;
    }

    /** The four tables of `DoRead`, read after the header at the stream's position. */
    method ReadTables(image: PfbImage, sizes: Sizes)
      modifies this`gameObjectInfoList, this`gameObjectRefInfoList, this`resourceInfoList, this`userdataInfoList
      modifies handler`position
      ensures gameObjectInfoList == old(gameObjectInfoList)
        + Table(image.gameObjectInfo, old(handler.position), GameObjectInfoSize, header.infoCount)
      ensures gameObjectRefInfoList == old(gameObjectRefInfoList)
        + Table(image.gameObjectRefInfo, header.gameObjectRefInfoOffset, GameObjectRefInfoSize, header.gameObjectRefInfoCount)
      ensures resourceInfoList == old(resourceInfoList)
        + Table(image.resourceInfo, header.resourceInfoOffset, sizes.resourceInfo, header.resourceCount)
      ensures userdataInfoList == old(userdataInfoList)
        + Table(image.userdataInfo, header.userdataInfoOffset, sizes.userdataInfo, header.userdataCount)
    {
      var gameObjectInfos := handler.ReadTable(image.gameObjectInfo, GameObjectInfoSize, header.infoCount);
      gameObjectInfoList := gameObjectInfoList + gameObjectInfos;

      handler.Seek(header.gameObjectRefInfoOffset);
      var gameObjectRefInfos := handler.ReadTable(image.gameObjectRefInfo, GameObjectRefInfoSize,
                                                  header.gameObjectRefInfoCount);
      gameObjectRefInfoList := gameObjectRefInfoList + gameObjectRefInfos;

      handler.Seek(header.resourceInfoOffset);
      var resourceInfos := handler.ReadTable(image.resourceInfo, sizes.resourceInfo, header.resourceCount);
      resourceInfoList := resourceInfoList + resourceInfos;

      handler.Seek(header.userdataInfoOffset);
      var userdataInfos := handler.ReadTable(image.userdataInfo, sizes.userdataInfo, header.userdataCount);
      userdataInfoList := userdataInfoList + userdataInfos;
    }

    /** The positions `DoWrite` passes through, for the header and lists as they stand. */
    ghost function PlannedLayout(sizes: Sizes): Layout
      reads this`header, this`gameObjectInfoList, this`gameObjectRefInfoList, this`resourceInfoList
      reads this`userdataInfoList
    {
      WriteLayout(header.gameObjectRefInfoCount > 0, |gameObjectInfoList|, |gameObjectRefInfoList|,
                  |resourceInfoList|, |userdataInfoList|, sizes)
    }

    /**
     * Appends the tables, the pooled strings and the payload after the
     * header, then seeks to 0 and writes the header with the final counts
     * and offsets. The payload must have been read (`RSZ!`).
     */
    method DoWrite(sizes: Sizes) returns (ok: bool)
      requires rsz.Some?
      modifies this`header, handler`position, handler`written
      ensures ok
      ensures
        var plan := PlanWrite(old(header), |gameObjectInfoList|, |gameObjectRefInfoList|,
                              |resourceInfoList|, |userdataInfoList|, sizes);
        && header == plan.header
        && handler.written == old(handler.written) + plan.regions
        && handler.position == HeaderSize
    {
      ghost var before, h0 := handler.written, header;
      ghost var l := PlannedLayout(sizes);
      ghost var objects := GameObjectRegions(h0.gameObjectRefInfoCount > 0, l, |gameObjectInfoList|,
                                             |gameObjectRefInfoList|);
      ghost var entries := EntryRegions(l, |resourceInfoList|, |userdataInfoList|, sizes);
      ghost var tail := TailRegions(l, sizes);
      WriteGameObjectTables(sizes);
      WriteEntryTables(sizes);
      AppendTwice(before, objects, entries);
      WriteStringsAndPayload(sizes);
      AppendTwice(before, objects + entries, tail);
      PatchHeader();
      AppendTwice(before, objects + entries + tail, [Region(HeaderBlock, 0, HeaderSize)]);
      return true;
    }

    /**
     * The game-object table at the first 16-aligned position after the
     * header, then, when the header's reference count is positive, the
     * reference table right after it, its offset recorded.
     */
    method WriteGameObjectTables(sizes: Sizes)
      modifies this`header, handler`position, handler`written
      ensures
        var l := old(PlannedLayout(sizes));
        && handler.position == l.afterRefs
        && handler.written == old(handler.written)
           + GameObjectRegions(old(header).gameObjectRefInfoCount > 0, l, |gameObjectInfoList|, |gameObjectRefInfoList|)
        && header == old(header).(gameObjectRefInfoOffset :=
             if old(header).gameObjectRefInfoCount > 0 then l.afterInfo else old(header).gameObjectRefInfoOffset)
    {
      ghost var before := handler.written;
      handler.Seek(HeaderSize);
      handler.Align();
      handler.Write(InfoTable, Bytes(|gameObjectInfoList|, GameObjectInfoSize));
      if header.gameObjectRefInfoCount > 0 {
        var at := handler.Tell();
        header := header.(gameObjectRefInfoOffset := at);
        handler.Write(RefInfoTable, Bytes(|gameObjectRefInfoList|, GameObjectRefInfoSize));
      }
      AppendTwice(before, [Region(InfoTable, AlignUp(HeaderSize), Bytes(|gameObjectInfoList|, GameObjectInfoSize))],
                  RefRegions(header.gameObjectRefInfoCount > 0, old(PlannedLayout(sizes)), |gameObjectRefInfoList|));
    }

    /**
     * The resource table at the next 16-aligned position, then, when there
     * are userdata entries, the userdata table at the one after it; each
     * offset written is recorded.
     */
    method WriteEntryTables(sizes: Sizes)
      requires handler.position == PlannedLayout(sizes).afterRefs
      modifies this`header, handler`position, handler`written
      ensures
        var l := old(PlannedLayout(sizes));
        && handler.position == l.afterUserdata
        && handler.written == old(handler.written) + EntryRegions(l, |resourceInfoList|, |userdataInfoList|, sizes)
        && header == old(header).(
             resourceInfoOffset := l.resourceAt,
             userdataInfoOffset := if |userdataInfoList| > 0 then l.userdataAt else old(header).userdataInfoOffset)
    {
      ghost var before := handler.written;
      handler.Align();
      var resourceAt := handler.Tell();
      header := header.(resourceInfoOffset := resourceAt);
      handler.Write(ResourceTable, Bytes(|resourceInfoList|, sizes.resourceInfo));
      if |userdataInfoList| > 0 {
        handler.Align();
        var userdataAt := handler.Tell();
        header := header.(userdataInfoOffset := userdataAt);
        handler.Write(UserdataTable, Bytes(|userdataInfoList|, sizes.userdataInfo));
      }
      ghost var l := old(PlannedLayout(sizes));
      AppendTwice(before, [Region(ResourceTable, l.resourceAt, Bytes(|resourceInfoList|, sizes.resourceInfo))],
                  UserdataRegions(l, |userdataInfoList|, sizes));
    }

    /** The pooled strings, then the payload at the next 16-aligned position, its offset recorded. */
    method WriteStringsAndPayload(sizes: Sizes)
      requires handler.position == PlannedLayout(sizes).afterUserdata
      modifies this`header, handler`position, handler`written
      ensures
        var l := old(PlannedLayout(sizes));
        && handler.position == l.dataAt + sizes.payload
        && handler.written == old(handler.written) + TailRegions(l, sizes)
        && header == old(header).(dataOffset := l.dataAt)
    {
      ghost var before := handler.written;
      handler.Write(StringPool, sizes.stringPool);
      handler.Align();
      var dataAt := handler.Tell();
      header := header.(dataOffset := dataAt);
      handler.Write(Payload, sizes.payload);
      AppendTwice(before, [Region(StringPool, old(handler.position), sizes.stringPool)],
                  [Region(Payload, dataAt, sizes.payload)]);
    }

    /** Seeks to 0 and writes the header with the list lengths as its counts. */
    method PatchHeader()
      modifies this`header, handler`position, handler`written
      ensures header == old(header).(
        infoCount := |gameObjectInfoList|,
        resourceCount := |resourceInfoList|,
        gameObjectRefInfoCount := |gameObjectRefInfoList|,
        userdataCount := |userdataInfoList|)
      ensures handler.written == old(handler.written) + [Region(HeaderBlock, 0, HeaderSize)]
      ensures handler.position == HeaderSize
    {
      handler.Seek(0);
      header := header.(
        infoCount := |gameObjectInfoList|,
        resourceCount := |resourceInfoList|,
        gameObjectRefInfoCount := |gameObjectRefInfoList|,
        userdataCount := |userdataInfoList|);
      handler.Write(HeaderBlock, HeaderSize);
    }
  }
}
