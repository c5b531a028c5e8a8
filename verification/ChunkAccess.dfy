/** Link and range reads of a listed object. */
module ChunkAccess {
  import opened Prelude
  import opened RemoteStore
  import opened ChunkView
  import opened ChunkStates
  import opened ChunkReader
  import opened Mirror

  const NOT_FOUND := "object not found"

  /** A remote's own link: what it returns for a range of a file's bytes.  Which ranges it clamps or
      refuses is the remote's business. */
  type OwnLink = (Bytes, int, int) -> Result<Bytes>

  /** What a range read of a listed object returns.  A plain file is read through the remote's own link. */
  function ReadView(v: View, own: OwnLink, start: int, length: int): Result<Bytes> {
    match v
    case Absent => Err(NOT_FOUND)
    case Plain(_, data) => own(data, start, length)
    case Chunked(size, _, _, parts) => ReadParts(Datas(parts), size, start, length)
  }

  /** The chunk's file lies on the remote where the listing found it, under its canonical name: only there does
      Link look. */
  predicate IsLinked(cfg: Config, rs: Remotes, dir: Path, name: string, p: Part) {
    p.remote < |rs| && FileAt(rs[p.remote], PartPath(cfg, dir, name, p.no, p.xact)).Some?
  }

  predicate AllLinked(cfg: Config, rs: Remotes, dir: Path, name: string, parts: seq<Part>) {
    forall j :: 0 <= j < |parts| ==> IsLinked(cfg, rs, dir, name, parts[j])
  }

  function LinkedBytes(cfg: Config, rs: Remotes, dir: Path, name: string, parts: seq<Part>): (s: seq<Bytes>)
    requires AllLinked(cfg, rs, dir, name, parts)
    ensures |s| == |parts|
  {
    seq(|parts|, j requires 0 <= j < |parts| => FileAt(rs[parts[j].remote], PartPath(cfg, dir, name, parts[j].no, parts[j].xact)).value)
  }

  /** Link: open every chunk of the object. */
  method LinkParts(cfg: Config, rs: Remotes, dir: Path, name: string, parts: seq<Part>) returns (r: Result<seq<Bytes>>)
    ensures r == if AllLinked(cfg, rs, dir, name, parts) then Ok(LinkedBytes(cfg, rs, dir, name, parts)) else Err(NOT_FOUND)
  {
    var linked: seq<Bytes> := [];
    for i := 0 to |parts|
      invariant |linked| == i
      invariant forall j :: 0 <= j < i ==> IsLinked(cfg, rs, dir, name, parts[j])
      invariant forall j :: 0 <= j < i ==>
        FileAt(rs[parts[j].remote], PartPath(cfg, dir, name, parts[j].no, parts[j].xact)) == Some(linked[j])
    {
      var p := parts[i];
      if !IsLinked(cfg, rs, dir, name, p) {
        return Err(NOT_FOUND);
      }
      linked := linked + [FileAt(rs[p.remote], PartPath(cfg, dir, name, p.no, p.xact)).value];
    }
    assert linked == LinkedBytes(cfg, rs, dir, name, parts);
    return Ok(linked);
  }

  /** The files of the selected transaction that are spelled canonically are what Link opens. */
  lemma ProperIsLinked(cfg: Config, rs: Remotes, dir: Path, name: string, v: View)
    requires NamesLawful(cfg) && v == ViewOf(cfg, rs, dir, name) && v.Chunked? && Proper(cfg, rs, dir, name, XactOf(v))
    ensures AllLinked(cfg, rs, dir, name, v.parts) && LinkedBytes(cfg, rs, dir, name, v.parts) == Datas(v.parts)
  {
    hide Seen, Parts, FirstFile, FirstData, PartPath;
    PartsProperties(cfg, rs, dir, name, XactOf(v));
    assert v.parts == Parts(cfg, rs, dir, name, XactOf(v));
    hide ViewOf;
    forall j | 0 <= j < |v.parts|
      ensures var p := v.parts[j];
        p.remote < |rs| && FileAt(rs[p.remote], PartPath(cfg, dir, name, p.no, p.xact)) == Some(p.data)
    {
      var p := v.parts[j];
      assert PartExists(cfg, rs, dir, name, p.no, XactOf(v)) && p == PartOf(cfg, rs, dir, name, XactOf(v), p.no);
      FirstIs(Seen(cfg, rs), PartPath(cfg, dir, name, p.no, XactOf(v)));
      ProperSeen(cfg, rs, dir, name, XactOf(v), p.no, p.remote);
    }
    hide NamesLawful, Proper, PartOf, PartExists;
  }

  lemma FirstIs(rs: Remotes, p: Path)
    requires FirstFile(rs, p).Some?
    ensures FileAt(rs[FirstFile(rs, p).value], p) == Some(FirstData(rs, p))
  {
  }

  /** What Link and a range read make of an object listed as `v`.  A chunk that is there in another spelling only is
      listed but not found. */
  function LinkedRead(cfg: Config, rs: Remotes, dir: Path, name: string, v: View, own: OwnLink, start: int, length: int): Result<Bytes> {
    if !v.Chunked? then ReadView(v, own, start, length)
    else if !AllLinked(cfg, rs, dir, name, v.parts) then Err(NOT_FOUND)
    else ReadParts(LinkedBytes(cfg, rs, dir, name, v.parts), v.size, start, length)
  }

  /** A range read of a name in a state: list it and link what is listed. */
  ghost function ReadNow(cfg: Config, rs: Remotes, dir: Path, name: string, own: OwnLink, start: int, length: int): Result<Bytes> {
    LinkedRead(cfg, rs, dir, name, ViewOf(cfg, rs, dir, name), own, start, length)
  }

  /** Where the listed chunks are spelled canonically it returns what is listed. */
  lemma ProperReads(cfg: Config, rs: Remotes, dir: Path, name: string, own: OwnLink, start: int, length: int)
    requires NamesLawful(cfg) && Proper(cfg, rs, dir, name, XactOf(ViewOf(cfg, rs, dir, name)))
    ensures ReadNow(cfg, rs, dir, name, own, start, length) == ReadView(ViewOf(cfg, rs, dir, name), own, start, length)
  {
    hide ViewOf, NamesLawful, Proper, AllLinked, LinkedBytes;
    var v := ViewOf(cfg, rs, dir, name);
    if v.Chunked? { ProperIsLinked(cfg, rs, dir, name, v); }
  }

  /** The same listing with the same files behind it reads the same. */
  lemma SameRead(cfg: Config, rs0: Remotes, rs: Remotes, dir: Path, name: string, own: OwnLink, start: int, length: int)
    requires ViewOf(cfg, rs, dir, name) == ViewOf(cfg, rs0, dir, name) && |rs| == |rs0|
    requires var v := ViewOf(cfg, rs0, dir, name);
      v.Chunked? ==> forall j :: 0 <= j < |v.parts| ==> Agree(rs0, rs, PartPath(cfg, dir, name, v.parts[j].no, v.parts[j].xact))
    ensures ReadNow(cfg, rs, dir, name, own, start, length) == ReadNow(cfg, rs0, dir, name, own, start, length)
  {
    hide ViewOf, PartPath, ReadParts;
    var v := ViewOf(cfg, rs0, dir, name);
    if v.Chunked? && AllLinked(cfg, rs0, dir, name, v.parts) {
      assert LinkedBytes(cfg, rs, dir, name, v.parts) == LinkedBytes(cfg, rs0, dir, name, v.parts);
    }
  }

  /** A range read through Link, of an object as it is listed now: the remote's own link for a plain
      file, openChunkReader for a chunked one. */
  method ReadObject(cfg: Config, rs: Remotes, dir: Path, name: string, v: View, own: OwnLink, start: int, length: int)
      returns (r: Result<Bytes>)
    requires NamesLawful(cfg) && v == ViewOf(cfg, rs, dir, name)
    requires v.Chunked? ==> IsInt64(v.size)
    requires IsInt64(start) && IsInt64(length)
    ensures r == ReadNow(cfg, rs, dir, name, own, start, length)
    ensures Proper(cfg, rs, dir, name, XactOf(v)) ==> r == ReadView(v, own, start, length)
  {
    if Proper(cfg, rs, dir, name, XactOf(v)) { ProperReads(cfg, rs, dir, name, own, start, length); }
    hide Seen, Parts, NamesLawful, Proper, MetaOf;
    match v
    case Absent =>
      return Err(NOT_FOUND);
    case Plain(remote, data) =>
      var bytes := FileAt(rs[remote], dir + [name]).value;
      r := own(bytes, start, length);
    case Chunked(size, _, meta, parts) =>
      var linked := LinkParts(cfg, rs, dir, name, parts);
      if linked.Err? {
        return Err(linked.error);
      }
      r := OpenChunkReader(linked.value, size, start, length);
  }

  /** buildHashInfo: the digests a listing reports, those of its metadata that are there. */
  function HashInfo(v: View): map<HashType, string> {
    if v.Chunked? && v.meta.Some? then
      (if v.meta.value.md5 != "" then map[Md5 := v.meta.value.md5] else map[])
      + (if v.meta.value.sha1 != "" then map[Sha1 := v.meta.value.sha1] else map[])
    else map[]
  }

  /** An object that holds a byte string whole: its size is the string's, and its chunks concatenate to it. */
  ghost predicate HoldsWhole(v: View, data: Bytes) {
    v.Chunked? && v.size == |data| && Concat(Datas(v.parts)) == data
  }

  /** Every range read of such an object returns the clamped slice of the string. */
  lemma WholeReads(v: View, own: OwnLink, data: Bytes, start: int, length: int)
    requires HoldsWhole(v, data) && 0 <= start <= |data| <= MAX_INT64 && IsInt64(length)
    requires length < 0 || start + length <= MAX_INT64
    ensures ReadView(v, own, start, length) == Ok(data[start..if length < 0 then |data| else Min(start + length, |data|)])
  {
    RangeRead(Datas(v.parts), v.size, start, length);
    var end := if length < 0 then |data| else Min(start + length, |data|);
    assert start == end ==> data[start..end] == "";
  }
}
