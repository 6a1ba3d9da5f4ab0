/**
 Making a backup: dump into an owned temporary file, describe it in a second one,
 then give both their final names without ever replacing anything. Any operation
 may fail and other processes may act at any point.
 */
module Backup {
  import opened Wrappers
  import opened BackupFiles

  type Digest = string

  /** The five names a backup uses. Those of the temporary files are drawn at random. */
  datatype Names = Names(output: Path, manifest: Path, lock: Path, dumpTemp: Path, manifestTemp: Path) {
    predicate Free(dir: map<Path, Inode>) {
      FreeInside(dir) && lock !in dir && lock !in {output, manifest, dumpTemp, manifestTemp}
    }

    /** All but the lock. */
    predicate FreeInside(dir: map<Path, Inode>) {
      && FinalFree(dir) && dumpTemp !in dir && manifestTemp !in dir
      && dumpTemp !in {output, manifest, manifestTemp} && manifestTemp !in {output, manifest}
    }

    predicate FinalFree(dir: map<Path, Inode>) {
      output !in dir && manifest !in dir && output != manifest
    }
  }

  datatype Manifest = Manifest(details: string, dumpSha256: Digest)

  /** The files an operation holds at some point, to be removed when it fails. */
  datatype Held = Held(
    dumpTemp: Option<OwnedFile>, manifestTemp: Option<OwnedFile>,
    dump: Option<OwnedFile>, manifest: Option<OwnedFile>)
  {
    predicate Ours(own: set<Inode>) {
      && (dumpTemp.Some? ==> dumpTemp.value.inode in own)
      && (manifestTemp.Some? ==> manifestTemp.value.inode in own)
      && (dump.Some? ==> dump.value.inode in own)
      && (manifest.Some? ==> manifest.value.inode in own)
    }

    /** Two temporary files and nothing published. */
    predicate Drafts() {
      && dumpTemp.Some? && manifestTemp.Some? && dump.None? && manifest.None?
      && dumpTemp.value.inode != manifestTemp.value.inode
    }

    /** None of the files is at one of these paths. */
    predicate Apart(paths: set<Path>) {
      && (dumpTemp.Some? ==> dumpTemp.value.path !in paths)
      && (manifestTemp.Some? ==> manifestTemp.value.path !in paths)
      && (dump.Some? ==> dump.value.path !in paths)
      && (manifest.Some? ==> manifest.value.path !in paths)
    }

    predicate Drafted(base: map<Path, Inode>, live: map<Path, Inode>)
      requires Drafts()
    {
      var d, m := dumpTemp.value, manifestTemp.value;
      && d.path !in base && m.path !in base && d.path != m.path
      && live == base[d.path := d.inode][m.path := m.inode]
    }
  }

  function TakeHeld(live: map<Path, Inode>, f: Option<OwnedFile>): map<Path, Inode> {
    if f.Some? then Take(live, f.value) else live
  }

  /** The entries left when everything held is removed. */
  function Cleaned(live: map<Path, Inode>, h: Held): map<Path, Inode> {
    TakeHeld(TakeHeld(TakeHeld(TakeHeld(live, h.manifest), h.dump), h.dumpTemp), h.manifestTemp)
  }

  lemma EntryTaken(base: map<Path, Inode>, f: OwnedFile)
    requires f.path !in base
    ensures Take(base[f.path := f.inode], f) == base
  {
    assert base[f.path := f.inode] - {f.path} == base;
  }

  lemma CleanedDrafts(base: map<Path, Inode>, d: OwnedFile, m: OwnedFile)
    requires d.path !in base && m.path !in base && d.path != m.path
    ensures Take(Take(base[d.path := d.inode][m.path := m.inode], d), m) == base
    ensures Take(base[d.path := d.inode], d) == base
  {
    EntryTaken(base, d);
    EntryTaken(base, m);
    assert base[d.path := d.inode][m.path := m.inode] - {d.path} == base[m.path := m.inode];
  }

  lemma DraftsCleaned(base: map<Path, Inode>, live: map<Path, Inode>, h: Held)
    requires h.Drafts() && h.Drafted(base, live)
    ensures Cleaned(live, h) == base
  {
    CleanedDrafts(base, h.dumpTemp.value, h.manifestTemp.value);
  }

  lemma DraftsHeld(base: map<Path, Inode>, v: Fs, h: Held)
    requires h.Drafts() && h.Drafted(base, v.Live())
    ensures v.Holds(h.dumpTemp.value) && v.Holds(h.manifestTemp.value)
  {
    assert h.dumpTemp.value.path in v.Live() && h.manifestTemp.value.path in v.Live();
    assert v.Live()[h.dumpTemp.value.path] == h.dumpTemp.value.inode;
    assert v.Live()[h.manifestTemp.value.path] == h.manifestTemp.value.inode;
  }

  lemma DumpMoved(base: map<Path, Inode>, drafted: map<Path, Inode>, moved: map<Path, Inode>,
                  d: OwnedFile, m: OwnedFile, output: Path)
    requires d.path !in base && m.path !in base && d.path != m.path
    requires drafted == base[d.path := d.inode][m.path := m.inode]
    requires output !in drafted && moved == (drafted - {d.path})[output := d.inode]
    ensures output !in base && output != m.path
    ensures moved == base[m.path := m.inode][output := d.inode]
    ensures Take(Take(moved, OwnedFile(output, d.inode)), m) == base
  {
    assert drafted - {d.path} == base[m.path := m.inode];
    CleanedDrafts(base, m, OwnedFile(output, d.inode));
    CleanedDrafts(base, OwnedFile(output, d.inode), m);
    assert moved == base[output := d.inode][m.path := m.inode];
  }

  lemma TakeCommutes(live: map<Path, Inode>, f: OwnedFile, g: OwnedFile)
    requires f.path != g.path
    ensures Take(Take(live, f), g) == Take(Take(live, g), f)
  {
    assert (live - {f.path}) - {g.path} == (live - {g.path}) - {f.path};
  }

  lemma ManifestLeft(base: map<Path, Inode>, before: map<Path, Inode>, left: map<Path, Inode>, m: OwnedFile,
      p: OwnedFile)
    requires p.path !in base && m.path !in base && p.path != m.path
    requires before == base[m.path := m.inode][p.path := p.inode] && Take(left, m) == Take(before, m)
    ensures Take(Take(left, p), m) == base
  {
    TakeCommutes(left, m, p);
    TakeCommutes(before, m, p);
    CleanedDrafts(base, m, p);
  }

  lemma NothingLive(v: Fs)
    requires v.Live() == map[] && v.Stuck() <= v.Entries().Keys
    ensures v.Entries().Keys == v.Stuck()
  {
    forall p | p in v.Entries() ensures p in v.Stuck() {
      assert p !in v.Live();
    }
  }

  /** The file has left its old name for a new one. */
  ghost predicate Moved(b: Fs, a: Fs, source: OwnedFile, destination: Path) {
    && destination !in b.Live() && a.Live() == (b.Live() - {source.path})[destination := source.inode]
    && a.Contents() == b.Contents() && SameStuck(b, a)
  }

  lemma TakenBack(before: map<Path, Inode>, claimed: map<Path, Inode>, left: map<Path, Inode>,
                  source: OwnedFile, published: OwnedFile)
    requires Has(before, source) && published.path !in before && published.inode == source.inode
    requires claimed == before[published.path := source.inode]
    requires left in {Take(claimed, published), Take(Take(claimed, source), published)}
    ensures Take(left, source) == Take(before, source)
  {
    assert (claimed - {published.path}) == before;
    assert (claimed - {source.path}) - {published.path} == before - {source.path};
  }

  /** The identity of one of two temporary files is lost: two readings of it in a row fail. */
  predicate LosesTemporary(stats: Script) {
    (At(stats, 0) && At(stats, 1)) || (!At(stats, 0) && At(stats, 1) && At(stats, 2))
  }

  /** The same with the lock before them, whose identity is read only once. */
  predicate LosesIdentity(stats: Script) {
    At(stats, 0) || LosesTemporary(Tail(stats))
  }

  class BackupOperation {
    const fs: FileSystem
    const sha256: Bytes -> Digest
    const serialize: Manifest -> Bytes

    constructor (fs: FileSystem, sha256: Bytes -> Digest, serialize: Manifest -> Bytes)
      ensures this.fs == fs && this.sha256 == sha256 && this.serialize == serialize
    {
      this.fs, this.sha256, this.serialize := fs, sha256, serialize;
    }

    /**
     Reads the identity of a new file and checks that its path leads to it;
     otherwise cleans up. `fallback`: a second attempt to read it is made.
     */
    method Confirm(f: OwnedFile, fallback: bool) returns (ok: bool)
      requires fs.View().Wf() && f.inode in fs.own
      modifies fs
      ensures Follows(old(fs.View()), fs.View())
      ensures ok ==> !At(old(fs.stats), 0) && Idles(old(fs.View()).(stats := Tail(old(fs.stats))), fs.View())
      ensures !ok && !fs.meddled ==> fs.View().Live() == Take(old(fs.View()).Live(), f)
      ensures fs.unread <= old(fs.unread) + (if Unreadable(old(fs.stats), fallback) then {f.path} else {})
      ensures Calm(old(fs.unlinks)) ==> fs.raised <= old(fs.raised)
      ensures Unreadable(old(fs.stats), fallback) && Has(old(fs.View()).Entries(), f) ==> f.path in fs.unread
      ensures Smooth(old(fs.View()), fs.View()) && old(fs.View()).Holds(f) ==> (ok <==> !At(old(fs.stats), 0))
    {
      var raises := fs.StatRaises();
      if !raises {
        ok := fs.AssertOwned(f);
        if ok {
          return;
        }
      } else if fallback {
        raises := fs.StatRaises();
      }
      GiveUp(f, raises);
      ok := false;
    }

    /** A file whose identity was read is cleaned up, any other stays behind. */
    method GiveUp(f: OwnedFile, unreadable: bool)
      requires fs.View().Wf() && f.inode in fs.own
      modifies fs
      ensures Follows(old(fs.View()), fs.View())
      ensures !fs.meddled ==> fs.View().Live() == Take(old(fs.View()).Live(), f)
      ensures fs.unread <= old(fs.unread) + (if unreadable then {f.path} else {})
      ensures Calm(old(fs.unlinks)) ==> fs.raised <= old(fs.raised)
      ensures unreadable && Has(old(fs.View()).Entries(), f) ==> f.path in fs.unread
    {
      if unreadable {
        fs.Abandon(f);
      } else {
        fs.CleanUp(f);
      }
    }

    /** A new file was created; either it is returned or it is cleaned up. */
    ghost predicate Fresh(b: Fs, a: Fs, r: Result<OwnedFile, ()>) {
      && Follows(b, a) && (Calm(b.unlinks) ==> a.raised <= b.raised)
      && (!a.meddled && r.Failure? ==> a.Live() == b.Live())
      && (r.Success? ==>
            && r.value.inode !in b.own && a.own == b.own + {r.value.inode} && a.raised == b.raised
            && a.unread == b.unread
            && a.stats == Tail(b.stats)
            && (!a.meddled ==>
                  && r.value.path !in b.Live() && a.Live() == b.Live()[r.value.path := r.value.inode]
                  && a.Contents() == b.Contents()[r.value.inode := []]))
    }

    /**
     A new file under this name, or nothing but what could not be cleaned up.
     `fallback`: a second attempt to read its identity is made.
     */
    method CreateOwned(path: Path, fallback: bool) returns (r: Result<OwnedFile, ()>)
      requires fs.View().Wf()
      modifies fs
      ensures Fresh(old(fs.View()), fs.View(), r)
      ensures r.Success? ==> r.value.path == path && !At(old(fs.stats), 0)
      ensures fs.unread <= old(fs.unread) + (if Unreadable(old(fs.stats), fallback) then {path} else {})
      ensures Smooth(old(fs.View()), fs.View()) && path !in old(fs.dir) ==>
        && (r.Success? <==> !At(old(fs.stats), 0))
        && (Unreadable(old(fs.stats), fallback) ==> path in fs.unread)
      ensures r.Success? && fs.alone ==> fs.dir == old(fs.dir)[path := r.value.inode]
    {
      var created := fs.CreateExclusive(path);
      if created.Failure? {
        return Failure(());
      }
      var f := OwnedFile(path, created.value);
      ghost var mid := fs.View();
      assert Has(mid.Entries(), f);
      var ok := Confirm(f, fallback);
      r := if ok then Success(f) else Failure(());
      if !ok && !fs.meddled {
        EntryTaken(old(fs.View()).Live(), f);
      }
    }

    /**
     Gives the file a name nobody has, then takes its old one away. On failure
     after the link, the new name is taken away again.
     */
    method Publish(source: OwnedFile, destination: Path) returns (r: Result<OwnedFile, ()>)
      requires fs.View().Wf() && source.inode in fs.own
      modifies fs
      ensures Tied(old(fs.View()), fs.View()) && fs.own == old(fs.own)
      ensures r.Success? ==> r.value == OwnedFile(destination, source.inode)
      ensures r.Success? && !fs.meddled && Has(old(fs.View()).Live(), source) ==>
        Moved(old(fs.View()), fs.View(), source, destination)
      ensures r.Failure? && !fs.meddled && Has(old(fs.View()).Live(), source) ==>
        Take(fs.View().Live(), source) == Take(old(fs.View()).Live(), source)
      ensures fs.alone && r.Success? && old(fs.View()).Holds(source) ==>
        fs.dir == old(fs.dir)[destination := source.inode] - {source.path}
      ensures Fine(old(fs.View()), fs.View()) && Has(old(fs.View()).Live(), source) && destination !in old(fs.dir) ==>
        r.Success?
    {
      var published := OwnedFile(destination, source.inode);
      ghost var before := fs.View().Live();
      var ok := Claim(source, published);
      if !ok {
        return Failure(());
      }
      ghost var claimed := fs.View().Live();
      ok := Settle(source, published);
      r := if ok then Success(published) else Failure(());
      if !fs.meddled && Has(before, source) {
        if ok {
          NameMoved(before, claimed, source, destination);
        } else {
          TakenBack(before, claimed, fs.View().Live(), source, published);
        }
      }
    }

    lemma NameMoved(before: map<Path, Inode>, claimed: map<Path, Inode>, source: OwnedFile, destination: Path)
      requires destination != source.path && claimed == before[destination := source.inode]
      ensures claimed - {source.path} == (before - {source.path})[destination := source.inode]
    {
    }

    /** The old name goes, or the new one. */
    method Settle(source: OwnedFile, published: OwnedFile) returns (ok: bool)
      requires fs.View().Wf() && source.inode in fs.own && published.inode == source.inode
      modifies fs
      ensures Tied(old(fs.View()), fs.View()) && fs.own == old(fs.own)
      ensures ok && !fs.meddled && Has(old(fs.View()).Live(), source) ==>
        && fs.View().Contents() == old(fs.View()).Contents()
        && fs.View().Live() == old(fs.View()).Live() - {source.path} && SameStuck(old(fs.View()), fs.View())
      ensures !ok && !fs.meddled ==>
        var live := old(fs.View()).Live();
        fs.View().Live() in {Take(live, published), Take(Take(live, source), published)}
      ensures fs.alone && ok ==> fs.dir == old(fs.dir) - {source.path}
      ensures
        && Fine(old(fs.View()), fs.View()) && Has(old(fs.View()).Live(), source)
        && old(fs.View()).Holds(published) && published.path != source.path
        ==> ok
    {
      ok := DropSource(source, published);
      if !ok {
        fs.CleanUp(published);
      }
    }

    /** The new name is linked, and leads to the file. */
    method Claim(source: OwnedFile, published: OwnedFile) returns (ok: bool)
      requires fs.View().Wf() && source.inode in fs.own && published.inode == source.inode
      modifies fs
      ensures Follows(old(fs.View()), fs.View()) && fs.own == old(fs.own) && SameStuck(old(fs.View()), fs.View())
      ensures !fs.meddled && Has(old(fs.View()).Live(), source) ==>
        && fs.View().Contents() == old(fs.View()).Contents()
        && (ok ==> published.path !in old(fs.View()).Live())
        && fs.View().Live() ==
             if ok then old(fs.View()).Live()[published.path := source.inode] else old(fs.View()).Live()
      ensures fs.alone && ok && old(fs.View()).Holds(source) ==> fs.dir == old(fs.dir)[published.path := source.inode]
      ensures Smooth(old(fs.View()), fs.View()) && old(fs.View()).Holds(source) && published.path !in old(fs.dir) ==> ok
    {
      ok := fs.AssertOwned(source);
      if !ok {
        return false;
      }
      ok := fs.Link(source, published.path);
      if !ok {
        return false;
      }
      ok := fs.Leads(published);
    }

    /** The old name of a file that has just got its new one. */
    method DropSource(source: OwnedFile, published: OwnedFile) returns (ok: bool)
      requires fs.View().Wf() && source.inode in fs.own && published.inode == source.inode
      modifies fs
      ensures Tied(old(fs.View()), fs.View()) && fs.own == old(fs.own)
      ensures !fs.meddled ==>
        && fs.View().Contents() == old(fs.View()).Contents()
        && fs.View().Live() in {old(fs.View()).Live(), Take(old(fs.View()).Live(), source)}
        && (ok && Has(old(fs.View()).Live(), source) ==>
              && fs.View().Live() == old(fs.View()).Live() - {source.path}
              && SameStuck(old(fs.View()), fs.View()))
      ensures fs.alone && ok ==> fs.dir == old(fs.dir) - {source.path}
      ensures
        && Fine(old(fs.View()), fs.View()) && Has(old(fs.View()).Live(), source)
        && old(fs.View()).Holds(published) && published.path != source.path
        ==> ok
    {
      ok := fs.AssertOwned(source);
      if ok {
        var removal := fs.RemoveIfOwned(source);
        ok := removal.Removed?;
      }
      if ok {
        ok := fs.AssertOwned(published);
      }
    }

    /** Both temporary files, under names nobody has. */
    method CreateTemporaries(dumpPath: Path, manifestPath: Path) returns (ok: bool, h: Held)
      requires fs.View().Wf()
      modifies fs
      ensures Follows(old(fs.View()), fs.View()) && h.Ours(fs.own)
      ensures !fs.meddled ==> Cleaned(fs.View().Live(), h) == old(fs.View()).Live()
      ensures Calm(old(fs.unlinks)) ==> fs.raised <= old(fs.raised)
      ensures !LosesTemporary(old(fs.stats)) ==> fs.unread <= old(fs.unread)
      ensures ok ==> h.Drafts() && h.dumpTemp.value.path == dumpPath && h.manifestTemp.value.path == manifestPath
      ensures ok ==> fs.raised == old(fs.raised) && fs.unread == old(fs.unread)
      ensures ok && !fs.meddled ==> h.Drafted(old(fs.View()).Live(), fs.View().Live())
      ensures ok && fs.alone ==>
        fs.dir == old(fs.dir)[dumpPath := h.dumpTemp.value.inode][manifestPath := h.manifestTemp.value.inode]
      ensures
        && Smooth(old(fs.View()), fs.View()) && dumpPath !in old(fs.dir) && manifestPath !in old(fs.dir)
        && dumpPath != manifestPath
        ==> && (ok <==> !At(old(fs.stats), 0) && !At(old(fs.stats), 1))
            && (LosesTemporary(old(fs.stats)) ==> fs.unread != {} && h.Apart(fs.unread))
    {
      TailAt(old(fs.stats), 0);
      TailAt(old(fs.stats), 1);
      var dump := CreateOwned(dumpPath, true);
      if dump.Failure? {
        return false, Held(None, None, None, None);
      }
      ok, h := CreateSecond(dump.value, manifestPath, old(fs.View()).Live());
    }

    /** The second temporary file, beside the first. */
    method CreateSecond(dump: OwnedFile, path: Path, ghost base: map<Path, Inode>) returns (ok: bool, h: Held)
      requires fs.View().Wf() && dump.inode in fs.own
      requires !fs.meddled ==> dump.path !in base && fs.View().Live() == base[dump.path := dump.inode]
      modifies fs
      ensures Follows(old(fs.View()), fs.View()) && h.Ours(fs.own) && h.dumpTemp == Some(dump)
      ensures !fs.meddled ==> Cleaned(fs.View().Live(), h) == base
      ensures Calm(old(fs.unlinks)) ==> fs.raised <= old(fs.raised)
      ensures !Unreadable(old(fs.stats), true) ==> fs.unread <= old(fs.unread)
      ensures ok ==> h.Drafts() && h.manifestTemp.value.path == path && !At(old(fs.stats), 0)
      ensures ok ==> fs.raised == old(fs.raised) && fs.unread == old(fs.unread)
      ensures ok && !fs.meddled ==> h.Drafted(base, fs.View().Live())
      ensures ok && fs.alone ==> fs.dir == old(fs.dir)[path := h.manifestTemp.value.inode]
      ensures
        Smooth(old(fs.View()), fs.View()) && path !in old(fs.dir)
        ==> && (ok <==> !At(old(fs.stats), 0))
            && (Unreadable(old(fs.stats), true) ==> fs.unread != {} && h.Apart(fs.unread))
    {
      var manifest := CreateOwned(path, true);
      if manifest.Failure? {
        h := Held(Some(dump), None, None, None);
        if !fs.meddled {
          EntryTaken(base, dump);
        }
        return false, h;
      }
      h := Held(Some(dump), Some(manifest.value), None, None);
      ok := true;
      if !fs.meddled {
        CleanedDrafts(base, dump, manifest.value);
      }
    }

    /** Dumps, hashes, and describes the dump. */
    method Fill(d: OwnedFile, m: OwnedFile, output: Bytes, details: string) returns (r: Result<Manifest, ()>)
      requires fs.View().Wf() && d.inode in fs.own && m.inode in fs.own && d.inode != m.inode
      modifies fs
      ensures Follows(old(fs.View()), fs.View()) && fs.own == old(fs.own) && SameStuck(old(fs.View()), fs.View())
      ensures !fs.meddled ==> fs.View().Live() == old(fs.View()).Live()
      ensures !fs.meddled && r.Success? ==> Describes(fs.View().Contents(), d.inode, m.inode, r.value)
      ensures !fs.meddled && r.Success? && Has(old(fs.View()).Live(), d) ==>
        r.value == Manifest(details, sha256(output)) && fs.View().Contents()[d.inode] == output
      ensures fs.alone ==> fs.dir == old(fs.dir)
      ensures
        && Smooth(old(fs.View()), fs.View()) && old(fs.View()).Holds(d) && old(fs.View()).Holds(m) && output != []
        ==> && r == Success(Manifest(details, sha256(output))) && fs.View().Contents()[d.inode] == output
    {
      var content := Dump(d, output);
      if content.Failure? {
        return Failure(());
      }
      var raises := fs.Raises();
      if raises {
        return Failure(());
      }
      var manifest := Manifest(details, sha256(content.value));
      var ok := fs.WriteOwned(m, serialize(manifest));
      r := if ok then Success(manifest) else Failure(());
    }

    /** Runs the dump tool and reads back what it wrote. */
    method Dump(d: OwnedFile, output: Bytes) returns (r: Result<Bytes, ()>)
      requires fs.View().Wf() && d.inode in fs.own
      modifies fs
      ensures Follows(old(fs.View()), fs.View()) && fs.own == old(fs.own) && SameStuck(old(fs.View()), fs.View())
      ensures !fs.meddled ==> fs.View().Live() == old(fs.View()).Live()
      ensures !fs.meddled && r.Success? ==> r.value == fs.View().Contents()[d.inode]
      ensures !fs.meddled && r.Success? && Has(old(fs.View()).Live(), d) ==> r.value == output
      ensures fs.alone ==> fs.dir == old(fs.dir)
      ensures
        Smooth(old(fs.View()), fs.View()) && old(fs.View()).Holds(d) && output != []
        ==> r == Success(output) && fs.View().Contents()[d.inode] == output
    {
      var ok := fs.RunTool(d, output);
      if !ok {
        return Failure(());
      }
      ghost var dumped := fs.View();
      assert dumped.Contents()[d.inode] == fs.bytes[d.inode];
      r := fs.ReadOwned(d, true);
      assert fs.alone ==> fs.View().Contents() == dumped.Contents();
    }

    ghost predicate Describes(contents: map<Inode, Bytes>, d: Inode, m: Inode, manifest: Manifest) {
      && d in contents && m in contents
      && sha256(contents[d]) == manifest.dumpSha256 && contents[m] == serialize(manifest)
    }

    method VerifyDump(f: OwnedFile, digest: Digest) returns (ok: bool)
      requires fs.View().Wf() && f.inode in fs.own
      modifies fs
      ensures Idles(old(fs.View()), fs.View())
      ensures ok ==> fs.View().Holds(f)
      ensures ok && !fs.meddled ==> sha256(fs.View().Contents()[f.inode]) == digest
      ensures
        && Smooth(old(fs.View()), fs.View()) && old(fs.View()).Holds(f)
        && old(fs.bytes)[f.inode] != [] && sha256(old(fs.bytes)[f.inode]) == digest
        ==> ok
    {
      var content := fs.ReadOwned(f, true);
      ok := content.Success? && sha256(content.value) == digest;
    }

    method VerifyManifest(f: OwnedFile, expected: Bytes) returns (ok: bool)
      requires fs.View().Wf() && f.inode in fs.own
      modifies fs
      ensures Idles(old(fs.View()), fs.View())
      ensures ok ==> fs.View().Holds(f)
      ensures ok && !fs.meddled ==> fs.View().Contents()[f.inode] == expected
      ensures
        && Smooth(old(fs.View()), fs.View()) && old(fs.View()).Holds(f)
        && old(fs.bytes)[f.inode] == expected && expected != []
        ==> ok
    {
      var content := fs.ReadOwned(f, true);
      ok := content.Success? && content.value == expected;
    }

    method AnyOccupied(output: Path, manifestPath: Path) returns (occupied: bool)
      requires fs.View().Wf()
      modifies fs
      ensures Idles(old(fs.View()), fs.View())
      ensures fs.alone ==> (occupied <==> output in old(fs.dir) || manifestPath in old(fs.dir))
    {
      occupied := fs.Occupied(output);
      if !occupied {
        occupied := fs.Occupied(manifestPath);
      }
    }

    /** Publishes the dump and checks it under its new name. */
    method PublishDump(d: OwnedFile, m: OwnedFile, output: Path, manifest: Manifest, ghost base: map<Path, Inode>)
      returns (ok: bool, h: Held)
      requires fs.View().Wf() && d.inode in fs.own && m.inode in fs.own && d.inode != m.inode
      requires !fs.meddled ==> Held(Some(d), Some(m), None, None).Drafted(base, fs.View().Live())
      modifies fs
      ensures Tied(old(fs.View()), fs.View()) && fs.own == old(fs.own) && h.Ours(fs.own)
      ensures !fs.meddled ==> Cleaned(fs.View().Live(), h) == base
      ensures ok ==> h == Held(None, Some(m), Some(OwnedFile(output, d.inode)), None)
      ensures ok && !fs.meddled ==>
        && output !in base && output != m.path
        && fs.View().Live() == base[m.path := m.inode][output := d.inode]
        && fs.View().Contents() == old(fs.View()).Contents() && SameStuck(old(fs.View()), fs.View())
      ensures ok && fs.alone ==> fs.dir == old(fs.dir)[output := d.inode] - {d.path}
      ensures
        && Fine(old(fs.View()), fs.View()) && output !in old(fs.dir) && old(fs.View()).Contents()[d.inode] != []
        && sha256(old(fs.View()).Contents()[d.inode]) == manifest.dumpSha256
        ==> ok
    {
      ghost var drafted := fs.View().Live();
      assert !fs.meddled ==> Has(drafted, d);
      var published;
      published, ok := PublishVerified(d, output, manifest.dumpSha256);
      h := if published then Held(None, Some(m), Some(OwnedFile(output, d.inode)), None)
        else Held(Some(d), Some(m), None, None);
      if !fs.meddled {
        if published {
          DumpMoved(base, drafted, fs.View().Live(), d, m, output);
        } else {
          CleanedDrafts(base, d, m);
        }
      }
    }

    /** `published`: the file has its new name; `ok`: and was verified there. */
    method PublishVerified(d: OwnedFile, output: Path, digest: Digest) returns (published: bool, ok: bool)
      requires fs.View().Wf() && d.inode in fs.own
      modifies fs
      ensures Tied(old(fs.View()), fs.View()) && fs.own == old(fs.own) && (ok ==> published)
      ensures published && !fs.meddled && Has(old(fs.View()).Live(), d) ==> Moved(old(fs.View()), fs.View(), d, output)
      ensures !published && !fs.meddled && Has(old(fs.View()).Live(), d) ==>
        Take(fs.View().Live(), d) == Take(old(fs.View()).Live(), d)
      ensures ok && fs.alone && old(fs.View()).Holds(d) ==> fs.dir == old(fs.dir)[output := d.inode] - {d.path}
      ensures
        && Fine(old(fs.View()), fs.View()) && Has(old(fs.View()).Live(), d) && output !in old(fs.dir)
        && old(fs.View()).Contents()[d.inode] != [] && sha256(old(fs.View()).Contents()[d.inode]) == digest
        ==> ok
    {
      var file := Publish(d, output);
      if file.Failure? {
        return false, false;
      }
      ok := VerifyDump(file.value, digest);
      published := true;
    }

    /** Publishes the manifest beside the published dump and checks both. */
    method PublishManifest(p: OwnedFile, m: OwnedFile, path: Path, manifest: Manifest, ghost base: map<Path, Inode>)
      returns (ok: bool, h: Held)
      requires fs.View().Wf() && p.inode in fs.own && m.inode in fs.own && p.inode != m.inode
      requires !fs.meddled ==>
        && p.path !in base && m.path !in base && p.path != m.path
        && fs.View().Live() == base[m.path := m.inode][p.path := p.inode]
      modifies fs
      ensures Tied(old(fs.View()), fs.View()) && fs.own == old(fs.own) && h.Ours(fs.own)
      ensures !ok && !fs.meddled ==> Cleaned(fs.View().Live(), h) == base
      ensures ok ==> fs.View().Holds(p)
      ensures ok && !fs.meddled ==>
        && fs.View().Live() == base[p.path := p.inode][path := m.inode]
        && path !in base && path != p.path && SameStuck(old(fs.View()), fs.View())
        && Describes(fs.View().Contents(), p.inode, m.inode, manifest)
        && fs.View().Contents() == old(fs.View()).Contents()
      ensures
        && Fine(old(fs.View()), fs.View()) && path !in old(fs.dir)
        && Describes(old(fs.View()).Contents(), p.inode, m.inode, manifest)
        && old(fs.View()).Contents()[p.inode] != [] && serialize(manifest) != []
        ==> ok
    {
      ghost var before := fs.View().Live();
      var published;
      published, ok := PublishDescribing(p, m, path, manifest);
      h := if published then Held(None, None, Some(p), Some(OwnedFile(path, m.inode)))
        else Held(None, Some(m), Some(p), None);
      if !fs.meddled {
        if published {
          DumpMoved(base, before, fs.View().Live(), m, p, path);
        } else {
          ManifestLeft(base, before, fs.View().Live(), m, p);
        }
      }
    }

    /** `published`: the manifest has its new name; `ok`: and both files were verified. */
    method PublishDescribing(p: OwnedFile, m: OwnedFile, path: Path, manifest: Manifest)
      returns (published: bool, ok: bool)
      requires fs.View().Wf() && p.inode in fs.own && m.inode in fs.own
      modifies fs
      ensures Tied(old(fs.View()), fs.View()) && fs.own == old(fs.own) && (ok ==> published && fs.View().Holds(p))
      ensures published && !fs.meddled && Has(old(fs.View()).Live(), m) ==> Moved(old(fs.View()), fs.View(), m, path)
      ensures !published && !fs.meddled && Has(old(fs.View()).Live(), m) ==>
        Take(fs.View().Live(), m) == Take(old(fs.View()).Live(), m)
      ensures ok && !fs.meddled ==> Describes(fs.View().Contents(), p.inode, m.inode, manifest)
      ensures
        && Fine(old(fs.View()), fs.View()) && path !in old(fs.dir)
        && Has(old(fs.View()).Live(), m) && Has(old(fs.View()).Live(), p) && p.path != m.path
        && Describes(old(fs.View()).Contents(), p.inode, m.inode, manifest)
        && old(fs.View()).Contents()[p.inode] != [] && serialize(manifest) != []
        ==> ok
    {
      var file := Publish(m, path);
      if file.Failure? {
        return false, false;
      }
      published := true;
      ok := VerifyBoth(p, file.value, manifest);
    }

    method VerifyBoth(p: OwnedFile, m: OwnedFile, manifest: Manifest) returns (ok: bool)
      requires fs.View().Wf() && p.inode in fs.own && m.inode in fs.own
      modifies fs
      ensures Idles(old(fs.View()), fs.View())
      ensures ok ==> fs.View().Holds(p)
      ensures ok && !fs.meddled ==> Describes(fs.View().Contents(), p.inode, m.inode, manifest)
      ensures
        && Smooth(old(fs.View()), fs.View()) && old(fs.View()).Holds(p) && old(fs.View()).Holds(m)
        && Describes(old(fs.View()).Contents(), p.inode, m.inode, manifest)
        && old(fs.View()).Contents()[p.inode] != [] && serialize(manifest) != []
        ==> ok
    {
      ghost var was := fs.View().Contents();
      assert was[p.inode] == fs.bytes[p.inode] && was[m.inode] == fs.bytes[m.inode];
      ok := VerifyManifest(m, serialize(manifest));
      if ok {
        ok := VerifyDump(p, manifest.dumpSha256);
      }
    }

    /** Removes whatever is still held. */
    method CleanUpAll(h: Held)
      requires fs.View().Wf() && h.Ours(fs.own)
      modifies fs
      ensures Tied(old(fs.View()), fs.View()) && fs.own == old(fs.own)
      ensures !fs.meddled ==> fs.View().Live() == Cleaned(old(fs.View()).Live(), h)
      ensures h.Apart(old(fs.unread)) ==> fs.unread == old(fs.unread)
    {
      CleanUpTwo(h.manifest, h.dump);
      CleanUpTwo(h.dumpTemp, h.manifestTemp);
    }

    method CleanUpTwo(f: Option<OwnedFile>, g: Option<OwnedFile>)
      requires fs.View().Wf() && (f.Some? ==> f.value.inode in fs.own) && (g.Some? ==> g.value.inode in fs.own)
      modifies fs
      ensures Tied(old(fs.View()), fs.View()) && fs.own == old(fs.own)
      ensures !fs.meddled ==> fs.View().Live() == TakeHeld(TakeHeld(old(fs.View()).Live(), f), g)
      ensures
        (f.None? || f.value.path !in old(fs.unread)) && (g.None? || g.value.path !in old(fs.unread))
        ==> fs.unread == old(fs.unread)
    {
      CleanUpHeld(f);
      CleanUpHeld(g);
    }

    method CleanUpHeld(f: Option<OwnedFile>)
      requires fs.View().Wf() && (f.Some? ==> f.value.inode in fs.own)
      modifies fs
      ensures Tied(old(fs.View()), fs.View()) && fs.own == old(fs.own)
      ensures !fs.meddled ==> fs.View().Live() == TakeHeld(old(fs.View()).Live(), f)
      ensures f.None? || f.value.path !in old(fs.unread) ==> fs.unread == old(fs.unread)
    {
      if f.Some? {
        fs.CleanUp(f.value);
      }
    }

    /** Everything between taking and releasing the operation lock. */
    method Attempt(n: Names, dump: Bytes, details: string) returns (r: Result<Manifest, ()>, h: Held)
      requires fs.View().Wf()
      modifies fs
      ensures Follows(old(fs.View()), fs.View()) && h.Ours(fs.own)
      ensures r.Failure? && !fs.meddled ==> Cleaned(fs.View().Live(), h) == old(fs.View()).Live()
      ensures r.Success? && !fs.meddled ==>
        && Complete(old(fs.View()).Live(), fs.View(), n, r.value, dump)
        && r.value == Manifest(details, sha256(dump))
      ensures r.Success? && !fs.meddled ==> fs.raised == old(fs.raised) && fs.unread == old(fs.unread)
      ensures Calm(old(fs.unlinks)) ==> fs.raised <= old(fs.raised)
      ensures !LosesTemporary(old(fs.stats)) ==> fs.unread <= old(fs.unread)
      ensures Fine(old(fs.View()), fs.View()) && n.FreeInside(old(fs.dir)) && PlainDump(dump, details) ==>
        && (r.Failure? <==> At(old(fs.stats), 0) || At(old(fs.stats), 1))
        && (r.Success? ==> r.value == Manifest(details, sha256(dump)))
        && (LosesTemporary(old(fs.stats)) ==> fs.unread != {} && h.Apart(fs.unread))
    {
      var ok;
      ok, h := Prepare(n);
      if !ok {
        return Failure(()), h;
      }
      r, h := FillAndPublish(n, h, dump, details, old(fs.View()).Live());
    }

    /** Both temporary files, unless a final name is taken. */
    method Prepare(n: Names) returns (ok: bool, h: Held)
      requires fs.View().Wf()
      modifies fs
      ensures Follows(old(fs.View()), fs.View()) && h.Ours(fs.own)
      ensures !fs.meddled ==> Cleaned(fs.View().Live(), h) == old(fs.View()).Live()
      ensures Calm(old(fs.unlinks)) ==> fs.raised <= old(fs.raised)
      ensures !LosesTemporary(old(fs.stats)) ==> fs.unread <= old(fs.unread)
      ensures ok ==> h.Drafts() && fs.raised == old(fs.raised) && fs.unread == old(fs.unread)
      ensures ok && !fs.meddled ==> h.Drafted(old(fs.View()).Live(), fs.View().Live())
      ensures ok && fs.alone && n.FreeInside(old(fs.dir)) ==> n.FinalFree(fs.dir)
      ensures Smooth(old(fs.View()), fs.View()) && n.FreeInside(old(fs.dir)) ==>
        && (ok <==> !At(old(fs.stats), 0) && !At(old(fs.stats), 1))
        && (LosesTemporary(old(fs.stats)) ==> fs.unread != {} && h.Apart(fs.unread))
    {
      var occupied := AnyOccupied(n.output, n.manifest);
      if occupied {
        return false, Held(None, None, None, None);
      }
      ok, h := CreateTemporaries(n.dumpTemp, n.manifestTemp);
    }

    /** Fills two temporary files and publishes them. */
    method FillAndPublish(n: Names, drafts: Held, dump: Bytes, details: string, ghost base: map<Path, Inode>)
      returns (r: Result<Manifest, ()>, h: Held)
      requires fs.View().Wf() && drafts.Drafts() && drafts.Ours(fs.own)
      requires !fs.meddled ==> drafts.Drafted(base, fs.View().Live())
      modifies fs
      ensures Tied(old(fs.View()), fs.View()) && h.Ours(fs.own)
      ensures r.Failure? && !fs.meddled ==> Cleaned(fs.View().Live(), h) == base
      ensures r.Success? && !fs.meddled ==>
        && Complete(base, fs.View(), n, r.value, dump) && r.value == Manifest(details, sha256(dump))
        && SameStuck(old(fs.View()), fs.View())
      ensures
        Fine(old(fs.View()), fs.View()) && n.FinalFree(old(fs.dir)) && PlainDump(dump, details)
        ==> r == Success(Manifest(details, sha256(dump)))
    {
      h := drafts;
      if !fs.meddled {
        DraftsHeld(base, fs.View(), h);
      }
      r := FillUnoccupied(h.dumpTemp.value, h.manifestTemp.value, n, dump, details);
      if r.Failure? {
        if !fs.meddled {
          DraftsCleaned(base, fs.View().Live(), h);
        }
        return;
      }
      var ok;
      ok, h := PublishBoth(h, n, r.value, base, dump);
      if !ok {
        r := Failure(());
      }
    }

    /** Fills the files, and looks once more whether the final names are free. */
    method FillUnoccupied(d: OwnedFile, m: OwnedFile, n: Names, dump: Bytes, details: string)
      returns (r: Result<Manifest, ()>)
      requires fs.View().Wf() && d.inode in fs.own && m.inode in fs.own && d.inode != m.inode
      modifies fs
      ensures Follows(old(fs.View()), fs.View()) && fs.own == old(fs.own) && SameStuck(old(fs.View()), fs.View())
      ensures !fs.meddled ==> fs.View().Live() == old(fs.View()).Live()
      ensures !fs.meddled && r.Success? ==> Describes(fs.View().Contents(), d.inode, m.inode, r.value)
      ensures !fs.meddled && r.Success? && Has(old(fs.View()).Live(), d) ==>
        r.value == Manifest(details, sha256(dump)) && fs.View().Contents()[d.inode] == dump
      ensures fs.alone ==> fs.dir == old(fs.dir)
      ensures
        && Smooth(old(fs.View()), fs.View()) && old(fs.View()).Holds(d) && old(fs.View()).Holds(m)
        && PlainDump(dump, details) && n.FinalFree(old(fs.dir))
        ==> && r == Success(Manifest(details, sha256(dump)))
            && Publishable(fs.View(), d.inode, m.inode, n, Manifest(details, sha256(dump)))
    {
      r := Fill(d, m, dump, details);
      if r.Success? {
        var occupied := AnyOccupied(n.output, n.manifest);
        if occupied {
          r := Failure(());
        }
      }
    }

    /** A dump that is not empty, and a manifest for it that is not either. */
    predicate PlainDump(dump: Bytes, details: string) {
      dump != [] && serialize(Manifest(details, sha256(dump))) != []
    }

    /** Two filled files whose final names are free. */
    ghost predicate Publishable(v: Fs, d: Inode, m: Inode, n: Names, manifest: Manifest) {
      && n.FinalFree(v.dir) && Describes(v.Contents(), d, m, manifest)
      && v.Contents()[d] != [] && serialize(manifest) != []
    }

    /** Both final names, on top of what was there before, lead to the dump and to the manifest about it. */
    ghost predicate Complete(base: map<Path, Inode>, v: Fs, n: Names, manifest: Manifest, dump: Bytes) {
      && n.output !in base && n.manifest !in base && n.output != n.manifest
      && exists d, m ::
           && d != m && v.Live() == base[n.output := d][n.manifest := m] && Describes(v.Contents(), d, m, manifest)
           && v.Contents()[d] == dump
    }

    method PublishBoth(
      drafts: Held, n: Names, manifest: Manifest, ghost base: map<Path, Inode>, ghost content: Bytes)
      returns (ok: bool, h: Held)
      requires fs.View().Wf() && drafts.Drafts() && drafts.Ours(fs.own)
      requires !fs.meddled ==>
        drafts.Drafted(base, fs.View().Live()) && fs.View().Contents()[drafts.dumpTemp.value.inode] == content
      modifies fs
      ensures Tied(old(fs.View()), fs.View()) && h.Ours(fs.own)
      ensures !ok && !fs.meddled ==> Cleaned(fs.View().Live(), h) == base
      ensures ok && !fs.meddled ==>
        Complete(base, fs.View(), n, manifest, content) && SameStuck(old(fs.View()), fs.View())
      ensures
        && Fine(old(fs.View()), fs.View())
        && Publishable(old(fs.View()), drafts.dumpTemp.value.inode, drafts.manifestTemp.value.inode, n, manifest)
        ==> ok
    {
      ok, h := PublishDump(drafts.dumpTemp.value, drafts.manifestTemp.value, n.output, manifest, base);
      if !ok {
        return;
      }
      ghost var d, m := drafts.dumpTemp.value.inode, drafts.manifestTemp.value.inode;
      ok, h := PublishManifest(h.dump.value, h.manifestTemp.value, n.manifest, manifest, base);
      if ok && !fs.meddled {
        CompleteWith(base, fs.View(), n, manifest, d, m, content);
      }
    }

    lemma CompleteWith(
      base: map<Path, Inode>, v: Fs, n: Names, manifest: Manifest, d: Inode, m: Inode, content: Bytes)
      requires n.output !in base && n.manifest !in base && n.output != n.manifest && d != m
      requires v.Live() == base[n.output := d][n.manifest := m] && Describes(v.Contents(), d, m, manifest)
      requires v.Contents()[d] == content
      ensures Complete(base, v, n, manifest, content)
    {
    }

    /** An attempt, undone when it fails. */
    method AttemptAndClean(n: Names, dump: Bytes, details: string) returns (r: Result<Manifest, ()>)
      requires fs.View().Wf()
      modifies fs
      ensures Follows(old(fs.View()), fs.View())
      ensures r.Failure? && !fs.meddled ==> fs.View().Live() == old(fs.View()).Live()
      ensures r.Success? && !fs.meddled ==>
        && Complete(old(fs.View()).Live(), fs.View(), n, r.value, dump)
        && r.value == Manifest(details, sha256(dump))
      ensures r.Success? && !fs.meddled ==> fs.raised == old(fs.raised) && fs.unread == old(fs.unread)
      ensures Calm(old(fs.unlinks)) ==> fs.raised <= old(fs.raised)
      ensures !LosesTemporary(old(fs.stats)) ==> fs.unread <= old(fs.unread)
      ensures Fine(old(fs.View()), fs.View()) && n.FreeInside(old(fs.dir)) && PlainDump(dump, details) ==>
        && (r.Failure? <==> At(old(fs.stats), 0) || At(old(fs.stats), 1))
        && (r.Success? ==> r.value == Manifest(details, sha256(dump)))
        && (LosesTemporary(old(fs.stats)) ==> fs.unread != {})
    {
      var h;
      r, h := Attempt(n, dump, details);
      if r.Failure? {
        CleanUpAll(h);
      }
    }

    /** The attempt under the lock, which is released whatever happens. */
    method Locked(lock: OwnedFile, n: Names, dump: Bytes, details: string) returns (r: Result<Manifest, ()>)
      requires fs.View().Wf() && lock.inode in fs.own
      requires !fs.meddled ==> fs.View().Live() == map[][lock.path := lock.inode] && fs.View().Stuck() == {}
      modifies fs
      ensures Follows(old(fs.View()), fs.View())
      ensures r.Failure? && !fs.meddled ==> fs.View().Live() == map[]
      ensures r.Success? && !fs.meddled ==>
        && Complete(map[], fs.View(), n, r.value, dump)
        && r.value == Manifest(details, sha256(dump))
      ensures r.Success? && !fs.meddled ==> fs.raised <= {lock.path} && fs.unread == {}
      ensures Calm(old(fs.unlinks)) ==> fs.raised <= old(fs.raised)
      ensures !LosesTemporary(old(fs.stats)) ==> fs.unread <= old(fs.unread)
      ensures Fine(old(fs.View()), fs.View()) && n.FreeInside(old(fs.dir)) && PlainDump(dump, details) ==>
        && (r.Failure? <==> At(old(fs.stats), 0) || At(old(fs.stats), 1))
        && (r.Success? ==> r.value == Manifest(details, sha256(dump)))
        && (LosesTemporary(old(fs.stats)) ==> fs.unread != {})
    {
      hide Fs.Live, Fs.Entries, Fs.Contents, Lost;
      r := AttemptAndClean(n, dump, details);
      ghost var done := fs.View();
      assert !done.meddled && r.Failure? ==> lock.path in done.Live();
      fs.CleanUp(lock);
      if !fs.meddled {
        EntryTaken(map[], lock);
        if r.Success? {
          LockReleased(done, fs.View(), lock, n, r.value, dump);
        }
      }
    }

    lemma LockReleased(b: Fs, a: Fs, lock: OwnedFile, n: Names, manifest: Manifest, dump: Bytes)
      requires Complete(map[][lock.path := lock.inode], b, n, manifest, dump)
      requires a.Live() == Take(b.Live(), lock) && a.Contents() == b.Contents()
      ensures Complete(map[], a, n, manifest, dump)
    {
      var base := map[][lock.path := lock.inode];
      assert lock.path in base;
      var d: Inode, m: Inode :|
        && d != m && b.Live() == base[n.output := d][n.manifest := m] && Describes(b.Contents(), d, m, manifest)
        && b.Contents()[d] == dump;
      assert b.Live() - {lock.path} == map[][n.output := d][n.manifest := m];
    }

    /** Takes the lock unless the final names are taken already. */
    method Guarded(n: Names, dump: Bytes, details: string) returns (r: Result<Manifest, ()>)
      requires fs.View().Wf() && fs.View().Live() == map[] && fs.View().Stuck() == {}
      modifies fs
      ensures Follows(old(fs.View()), fs.View())
      ensures r.Failure? && !fs.meddled ==> fs.View().Live() == map[]
      ensures r.Success? && !fs.meddled ==>
        && Complete(map[], fs.View(), n, r.value, dump)
        && r.value == Manifest(details, sha256(dump))
      ensures r.Success? && !fs.meddled ==> fs.raised <= {n.lock} && fs.unread == {}
      ensures Calm(old(fs.unlinks)) ==> fs.raised == {}
      ensures !LosesIdentity(old(fs.stats)) ==> fs.unread == {}
      ensures At(old(fs.stats), 0) ==> fs.unread <= {n.lock}
      ensures Fine(old(fs.View()), fs.View()) && n.Free(old(fs.dir)) && PlainDump(dump, details) ==>
        && (r.Failure? <==> At(old(fs.stats), 0) || At(old(fs.stats), 1) || At(old(fs.stats), 2))
        && (r.Success? ==> r.value == Manifest(details, sha256(dump)))
        && (LosesIdentity(old(fs.stats)) ==> fs.unread != {})
    {
      hide Fs.Live, Fs.Entries, Fs.Contents, Lost;
      TailAt(old(fs.stats), 0);
      TailAt(old(fs.stats), 1);
      var lock := TakeLock(n);
      if lock.Failure? {
        return Failure(());
      }
      r := Locked(lock.value, n, dump, details);
    }

    method TakeLock(n: Names) returns (r: Result<OwnedFile, ()>)
      requires fs.View().Wf() && fs.View().Live() == map[] && fs.View().Stuck() == {}
      modifies fs
      ensures Follows(old(fs.View()), fs.View()) && (Calm(old(fs.unlinks)) ==> fs.raised == {})
      ensures fs.unread <= (if At(old(fs.stats), 0) then {n.lock} else {})
      ensures r.Failure? && !fs.meddled ==> fs.View().Live() == map[]
      ensures r.Success? ==>
        && r.value.path == n.lock && r.value.inode in fs.own && fs.View().Stuck() == {}
        && !At(old(fs.stats), 0) && fs.stats == Tail(old(fs.stats))
        && (!fs.meddled ==> fs.View().Live() == map[][n.lock := r.value.inode])
        && (fs.alone ==> fs.dir == old(fs.dir)[n.lock := r.value.inode])
      ensures Smooth(old(fs.View()), fs.View()) && n.Free(old(fs.dir)) ==>
        && (r.Success? <==> !At(old(fs.stats), 0))
        && (At(old(fs.stats), 0) ==> fs.unread != {})
    {
      var occupied := AnyOccupied(n.output, n.manifest);
      if occupied {
        return Failure(());
      }
      var raises := fs.Raises();
      if raises {
        return Failure(());
      }
      r := CreateOwned(n.lock, false);
    }

    /**
     Makes a backup, whatever fails and whoever else is at work. It never takes an
     entry from a file it did not create. If nobody touches its files: on success
     exactly the two final names are ours, and describe each other, but for a lock
     whose removal raised; on failure nothing is left but entries whose removal
     raised and new files whose identity could not be read, so nothing at all when
     no removal raises and no identity is lost. If nobody else acts, the names are
     free and neither removals nor the other calls raise, it fails exactly when a
     reading of an identity does, and then leaves nothing exactly when no identity
     is lost.
     */
    method CreateBackup(n: Names, dump: Bytes, details: string) returns (r: Result<Manifest, ()>)
      requires fs.View().Wf() && fs.own == {} && fs.victims == {} && fs.View().Stuck() == {}
      modifies fs
      ensures fs.View().Wf() && fs.victims <= fs.own
      ensures r.Success? && !fs.meddled ==>
        && Complete(map[], fs.View(), n, r.value, dump)
        && r.value == Manifest(details, sha256(dump))
        && fs.raised <= {n.lock}
        && fs.unread == {}
      ensures r.Failure? && !fs.meddled ==> fs.View().Entries().Keys == fs.raised + fs.unread
      ensures Calm(old(fs.unlinks)) ==> fs.raised == {}
      ensures !LosesIdentity(old(fs.stats)) ==> fs.unread == {}
      ensures At(old(fs.stats), 0) ==> fs.unread <= {n.lock}
      ensures r.Failure? && !fs.meddled && Calm(old(fs.unlinks)) && !LosesIdentity(old(fs.stats)) ==>
        fs.View().Entries() == map[]
      ensures
        Fine(old(fs.View()), fs.View()) && n.Free(old(fs.dir)) && PlainDump(dump, details) ==>
        && (r.Failure? <==> At(old(fs.stats), 0) || At(old(fs.stats), 1) || At(old(fs.stats), 2))
        && (r.Success? ==> r.value == Manifest(details, sha256(dump)))
        && (r.Failure? ==> (fs.View().Entries() == map[] <==> !LosesIdentity(old(fs.stats))))
    {
      assert fs.View().Live() == map[];
      r := Guarded(n, dump, details);
      if r.Failure? && !fs.meddled {
        NothingLive(fs.View());
      }
    }

    /**
     One such run: the first reading of an identity raises. The lock stays behind,
     although no removal ever raised, and no later backup can take it.
     */
    method UnreadLockStays(n: Names, dump: Bytes, details: string) returns (r: Result<Manifest, ()>)
      requires fs.View().Wf() && fs.own == {} && fs.victims == {} && fs.View().Stuck() == {}
      requires n.Free(fs.dir) && PlainDump(dump, details)
      requires fs.unlinks == [] && fs.stats == [true] && fs.rest == [] && fs.alone
      modifies fs
      ensures r.Failure? && fs.View().Entries().Keys == {n.lock} && fs.raised == {}
    {
      r := CreateBackup(n, dump, details);
    }
  }
}
