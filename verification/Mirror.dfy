/** A copy of a listed object under another directory or name, possibly with only its first chunks, and
    what such a copy lists as. */
module Mirror {
  import opened Prelude
  import opened RemoteStore
  import opened ChunkView
  import opened ChunkStates
  import Names = ChunkNames

  /** The transaction whose chunks a listed object selects. */
  function XactOf(v: View): string {
    if v.Chunked? && v.meta.Some? then v.meta.value.xact else ""
  }

  /** The parts of a listed object are the selected transaction's, in ascending order. */
  lemma ListedParts(cfg: Config, rs: Remotes, dir: Path, name: string)
    requires NamesLawful(cfg) && ViewOf(cfg, rs, dir, name).Chunked?
    ensures var v := ViewOf(cfg, rs, dir, name);
      && v.parts == Parts(cfg, rs, dir, name, XactOf(v))
      && (forall i, j :: 0 <= i < j < |v.parts| ==> v.parts[i].no < v.parts[j].no)
      && (forall j :: 0 <= j < |v.parts| ==>
            v.parts[j] == PartOf(cfg, rs, dir, name, XactOf(v), v.parts[j].no) && v.parts[j].xact == XactOf(v)
            && PartExists(cfg, rs, dir, name, v.parts[j].no, XactOf(v)))
  {
    hide PartExists, Parts, NamesLawful, FirstFile, FirstData, AnyPart;
    PartsProperties(cfg, rs, dir, name, XactOf(ViewOf(cfg, rs, dir, name)));
  }

  /** Is chunk `no` of transaction `x` on remote `i` one of the first `n` parts? */
  ghost predicate IsSent(v: View, n: nat, no: nat, x: string, i: nat)
    requires v.Chunked? && n <= |v.parts|
  {
    exists j :: 0 <= j < n && v.parts[j].no == no && v.parts[j].remote == i && v.parts[j].xact == x
  }

  /** Under `dname` in `dst`, `rs` holds exactly the first `n` chunks of the object listed as `v` under
      `name` in `src` of `rs0`, each on the remote it was on, and its base file if `base` says so. */
  ghost predicate Mirrors(cfg: Config, rs0: Remotes, src: Path, name: string, v: View,
                          rs: Remotes, dst: Path, dname: string, n: nat, base: bool)
    requires v.Chunked?
  {
    && |rs| == |rs0| && n <= |v.parts|
    && (forall i, no: nat, x :: 0 <= i < |rs| && IsNumber(cfg, no) && Names.IsXact(x) ==>
          FileAt(Seen(cfg, rs)[i], PartPath(cfg, dst, dname, no, x)) ==
            if IsSent(v, n, no, x, i) then FileAt(Seen(cfg, rs0)[i], PartPath(cfg, src, name, no, x)) else None)
    && (forall i :: 0 <= i < |rs| && IsBaseName(cfg, dname) ==>
          FileAt(rs[i], dst + [dname]) == if base && i == v.main then FileAt(rs0[i], src + [name]) else None)
  }

  /** A listed object of chunks has a one-line name, and one with a base file a base name. */
  lemma ListedNames(cfg: Config, rs: Remotes, dir: Path, name: string)
    requires NamesLawful(cfg)
    ensures var v := ViewOf(cfg, rs, dir, name);
      && (v.Chunked? ==> Names.PlainName(name))
      && (v.Plain? || (v.Chunked? && v.meta.Some?) ==> IsBaseName(cfg, name))
  {
    var v := ViewOf(cfg, rs, dir, name);
    if v.Chunked? && v.meta.None? {
      ListedParts(cfg, rs, dir, name);
      assert PartExists(cfg, rs, dir, name, v.parts[0].no, "");
    }
  }

  /** What the copy lists as: the metadata text alone as a plain file, then the object with the first
      chunks; without the base file only untagged chunks show. */
  function MirrorView(v: View, text: Bytes, n: nat, base: bool): View
    requires v.Chunked? && n <= |v.parts|
  {
    var parts := v.parts[..n];
    if base then (if parts == [] then Plain(v.main, text) else Chunked(v.size, v.main, v.meta, parts))
    else if parts == [] || XactOf(v) != "" then Absent
    else Chunked(TotalSize(parts), 0, None, parts)
  }

  /** A part that was sent was sent from its remote only. */
  lemma SentWhere(v: View, n: nat, j: nat, i: nat)
    requires v.Chunked? && j < n <= |v.parts| && forall a, b :: 0 <= a < b < |v.parts| ==> v.parts[a].no < v.parts[b].no
    ensures IsSent(v, n, v.parts[j].no, v.parts[j].xact, i) <==> i == v.parts[j].remote
  {
  }

  lemma OnlyCopy(rs: Remotes, p: Path, k: nat)
    requires k < |rs| && forall i :: 0 <= i < |rs| ==> (FileAt(rs[i], p).Some? <==> i == k)
    ensures FirstFile(rs, p) == Some(k) && FirstData(rs, p) == FileAt(rs[k], p).value
  {
    assert FileAt(rs[k], p).Some?;
  }

  lemma SentPart(cfg: Config, rs0: Remotes, src: Path, name: string, v: View, rs: Remotes, dst: Path, dname: string,
                 n: nat, base: bool, j: nat)
    requires NamesLawful(cfg) && Names.PlainName(dname)
    requires v.Chunked? && v == ViewOf(cfg, rs0, src, name)
    requires Mirrors(cfg, rs0, src, name, v, rs, dst, dname, n, base) && j < n
    ensures v.parts[j] == PartOf(cfg, rs, dst, dname, XactOf(v), v.parts[j].no)
    ensures PartExists(cfg, rs, dst, dname, v.parts[j].no, XactOf(v))
  {
    hide ViewOf, Parts, NamesLawful, Seen, FirstFile, FirstData, PartPath, IsSent;
    ListedParts(cfg, rs0, src, name);
    var part := v.parts[j];
    var from, to := PartPath(cfg, src, name, part.no, part.xact), PartPath(cfg, dst, dname, part.no, part.xact);
    ListedPartData(cfg, rs0, src, name, j);
    forall i | 0 <= i < |rs|
      ensures FileAt(Seen(cfg, rs)[i], to) == if i == part.remote then FileAt(Seen(cfg, rs0)[i], from) else None
    {
      SentWhere(v, n, j, i);
    }
    hide Mirrors;
    OnlyCopy(Seen(cfg, rs), to, part.remote);
  }

  /** A listed part is on its remote with its bytes, in whatever spelling. */
  lemma ListedPartData(cfg: Config, rs: Remotes, dir: Path, name: string, j: nat)
    requires NamesLawful(cfg) && ViewOf(cfg, rs, dir, name).Chunked? && j < |ViewOf(cfg, rs, dir, name).parts|
    ensures var part := ViewOf(cfg, rs, dir, name).parts[j];
      && part.remote < |rs| && Names.PlainName(name) && IsNumber(cfg, part.no) && Names.IsXact(part.xact)
      && FileAt(Seen(cfg, rs)[part.remote], PartPath(cfg, dir, name, part.no, part.xact)) == Some(part.data)
  {
    hide ViewOf, Parts, NamesLawful, Seen, PartPath;
    ListedParts(cfg, rs, dir, name);
    var v := ViewOf(cfg, rs, dir, name);
    assert PartExists(cfg, rs, dir, name, v.parts[j].no, XactOf(v));
  }

  lemma OnlySent(cfg: Config, rs0: Remotes, src: Path, name: string, v: View, rs: Remotes, dst: Path, dname: string,
                 n: nat, base: bool, no: nat, x: string) returns (j: nat)
    requires v.Chunked? && Mirrors(cfg, rs0, src, name, v, rs, dst, dname, n, base)
    requires PartExists(cfg, rs, dst, dname, no, x)
    ensures j < n && v.parts[j].no == no && v.parts[j].xact == x
  {
    hide Seen;
    var i := FirstFile(Seen(cfg, rs), PartPath(cfg, dst, dname, no, x)).value;
    assert IsSent(v, n, no, x, i);
    j :| 0 <= j < n && v.parts[j].no == no && v.parts[j].remote == i && v.parts[j].xact == x;
  }

  lemma MirrorParts(cfg: Config, rs0: Remotes, src: Path, name: string, v: View, rs: Remotes, dst: Path, dname: string,
                    n: nat, base: bool)
    requires NamesLawful(cfg) && Names.PlainName(dname)
    requires v.Chunked? && v == ViewOf(cfg, rs0, src, name)
    requires Mirrors(cfg, rs0, src, name, v, rs, dst, dname, n, base)
    ensures Parts(cfg, rs, dst, dname, XactOf(v)) == v.parts[..n]
    ensures forall no: nat, x :: PartExists(cfg, rs, dst, dname, no, x) ==> x == XactOf(v)
    ensures AnyPart(cfg, rs, dst, dname) <==> n > 0
  {
    ListedParts(cfg, rs0, src, name);
    assert n <= |v.parts|;
    hide ViewOf, Parts, NamesLawful, PartOf, Mirrors, PartExists;
    var ps := v.parts[..n];
    forall j | 0 <= j < |ps|
      ensures ps[j] == PartOf(cfg, rs, dst, dname, XactOf(v), ps[j].no)
      ensures PartExists(cfg, rs, dst, dname, ps[j].no, XactOf(v))
    {
      SentPart(cfg, rs0, src, name, v, rs, dst, dname, n, base, j);
    }
    forall no: nat, x | PartExists(cfg, rs, dst, dname, no, x)
      ensures x == XactOf(v) && exists j :: 0 <= j < |ps| && ps[j].no == no
    {
      var j := OnlySent(cfg, rs0, src, name, v, rs, dst, dname, n, base, no, x);
      assert ps[j].no == no;
    }
    PartsAre(cfg, rs, dst, dname, XactOf(v), ps);
    if n > 0 { assert PartExists(cfg, rs, dst, dname, ps[0].no, XactOf(v)); }
  }

  // ---- views from facts ----

  lemma ViewWithMeta(cfg: Config, rs: Remotes, dir: Path, name: string, main: nat, text: Bytes, meta: Meta)
    requires IsBaseName(cfg, name) && FirstFile(rs, dir + [name]) == Some(main) && FirstData(rs, dir + [name]) == text
    requires |text| <= MAX_META_READ && AnyPart(cfg, rs, dir, name) && cfg.unmarshal(text) == Some(meta)
    ensures ViewOf(cfg, rs, dir, name) == Chunked(meta.size, main, Some(meta), Parts(cfg, rs, dir, name, meta.xact))
  {
  }

  lemma ViewPlain(cfg: Config, rs: Remotes, dir: Path, name: string, main: nat, text: Bytes)
    requires IsBaseName(cfg, name) && FirstFile(rs, dir + [name]) == Some(main) && FirstData(rs, dir + [name]) == text
    requires !AnyPart(cfg, rs, dir, name)
    ensures ViewOf(cfg, rs, dir, name) == Plain(main, text)
  {
  }

  lemma ViewBare(cfg: Config, rs: Remotes, dir: Path, name: string)
    requires IsBaseName(cfg, name) ==> FirstFile(rs, dir + [name]).None?
    ensures var parts := Parts(cfg, rs, dir, name, "");
      ViewOf(cfg, rs, dir, name) == if parts == [] then Absent else Chunked(TotalSize(parts), 0, None, parts)
  {
  }

  /** What a chunked view says about the base file. */
  lemma ListedMeta(cfg: Config, rs: Remotes, dir: Path, name: string)
    requires ViewOf(cfg, rs, dir, name).Chunked?
    ensures var v := ViewOf(cfg, rs, dir, name); var text := FirstData(rs, dir + [name]);
      if v.meta.Some? then
        && IsBaseName(cfg, name) && FirstFile(rs, dir + [name]) == Some(v.main)
        && FileAt(rs[v.main], dir + [name]) == Some(text)
        && |text| <= MAX_META_READ && cfg.unmarshal(text) == v.meta && v.size == v.meta.value.size
      else v.main == 0 && v.size == TotalSize(v.parts) && v.parts != []
  {
  }

  lemma NoParts(cfg: Config, rs: Remotes, dir: Path, name: string, x: string)
    requires NamesLawful(cfg) && forall no: nat :: !PartExists(cfg, rs, dir, name, no, x)
    ensures Parts(cfg, rs, dir, name, x) == []
  {
    PartNosMembers(cfg, rs, dir, name, x);
    assert PartNos(cfg, rs, dir, name, x) == {};
  }

  /** A name is unlisted exactly if it has no base file and no file reads as an untagged chunk of it. */
  lemma AbsentExactly(cfg: Config, rs: Remotes, dir: Path, name: string)
    requires NamesLawful(cfg)
    ensures ViewOf(cfg, rs, dir, name) == Absent <==>
      && (IsBaseName(cfg, name) ==> forall i :: 0 <= i < |rs| ==> FileAt(rs[i], dir + [name]).None?)
      && (forall i, file :: 0 <= i < |rs| && ReadsAs(cfg, file, name, "") ==> FileAt(rs[i], dir + [file]).None?)
  {
    hide Seen, Parts;
    PartIsRead(cfg, rs, dir, name, "");
    if no :| PartExists(cfg, rs, dir, name, no, "") {
      var j := PartsComplete(cfg, rs, dir, name, "", no);
    } else {
      NoParts(cfg, rs, dir, name, "");
    }
    hide PartExists;
  }

  /** A mirrored object lists as MirrorView says. */
  lemma MirrorLists(cfg: Config, rs0: Remotes, src: Path, name: string, v: View, rs: Remotes, dst: Path, dname: string,
                    n: nat, base: bool)
    requires NamesLawful(cfg) && Names.PlainName(dname) && (base ==> IsBaseName(cfg, dname) && v.Chunked? && v.meta.Some?)
    requires v.Chunked? && v == ViewOf(cfg, rs0, src, name)
    requires Mirrors(cfg, rs0, src, name, v, rs, dst, dname, n, base)
    ensures ViewOf(cfg, rs, dst, dname) == MirrorView(v, FirstData(rs0, src + [name]), n, base)
  {
    ListedMeta(cfg, rs0, src, name);
    MirrorParts(cfg, rs0, src, name, v, rs, dst, dname, n, base);
    hide NamesLawful, Parts, AnyPart, ViewOf, PartExists;
    var path := dst + [dname];
    if base {
      var text := FirstData(rs0, src + [name]);
      assert FileAt(rs[v.main], path) == Some(text);
      if n > 0 {
        ViewWithMeta(cfg, rs, dst, dname, v.main, text, v.meta.value);
      } else {
        ViewPlain(cfg, rs, dst, dname, v.main, text);
      }
    } else {
      ViewBare(cfg, rs, dst, dname);
      if XactOf(v) != "" {
        NoParts(cfg, rs, dst, dname, "");
      }
    }
  }
}
