/**
 A directory of links to inodes, shared with other processes that may act
 between any two operations, and with operations that may fail.
 */
module BackupFiles {
  import opened Wrappers

  type Path = string
  type Inode = nat
  type Bytes = seq<nat>

  datatype Removal = Removed | Absent | Raised

  datatype OwnedFile = OwnedFile(path: Path, inode: Inode)

  // ---- Faults to come ----

  /** Which of the coming calls of a kind raise; calls beyond the end do not. */
  type Script = seq<bool>

  predicate At(s: Script, n: nat) { n < |s| && s[n] }

  function Tail(s: Script): Script { if s == [] then [] else s[1..] }

  predicate Calm(s: Script) { true !in s }

  lemma TailAt(s: Script, n: nat)
    ensures At(Tail(s), n) <==> At(s, n + 1)
    ensures Calm(s) ==> Calm(Tail(s)) && !At(s, n)
  {
  }

  /** Removing looks at the entry, then unlinks it; either may raise. */
  predicate RemovalRaises(unlinks: Script) { At(unlinks, 0) || At(unlinks, 1) }

  /** The identity of a new file is read once, or a second time when that fails. */
  predicate Unreadable(stats: Script, fallback: bool) { At(stats, 0) && (!fallback || At(stats, 1)) }

  // ---- States ----

  /**
   `own`: inodes this run created. `victims`: inodes an entry of which this run
   removed or replaced. `alone`: no other process acts during the run. `meddled`:
   one does touch an entry or the bytes of one of ours. Both are settled before the
   run, like the faults, so no operation can change them. `raised`: the paths where
   a removal made to clean up raised. `unread`: those of new files whose identity
   could not be read. `unlinks`, `stats`, `rest`: the faults still to come.
   */
  datatype Fs = Fs(
    dir: map<Path, Inode>, bytes: map<Inode, Bytes>, next: Inode,
    own: set<Inode>, victims: set<Inode>, alone: bool, meddled: bool,
    raised: set<Path>, unread: set<Path>, unlinks: Script, stats: Script, rest: Script)
  {
    /** Only our own inodes ever lose an entry to us; what is stuck is still there. */
    ghost predicate Wf() {
      && (forall p :: p in dir ==> dir[p] < next)
      && (forall i :: i in own ==> i < next && i in bytes)
      && victims <= own && (alone ==> !meddled)
      && (!meddled ==> Stuck() <= Entries().Keys)
    }

    /** What nobody will remove any more. */
    function Stuck(): set<Path> { raised + unread }

    predicate Holds(f: OwnedFile) { f.path in dir && dir[f.path] == f.inode }

    /** The entries of our inodes. */
    function Entries(): map<Path, Inode> {
      map p | p in dir && dir[p] in own :: dir[p]
    }

    /** Those still to be accounted for. */
    function Live(): map<Path, Inode> { Entries() - Stuck() }

    /** The bytes of our inodes. */
    function Contents(): map<Inode, Bytes> {
      map i | i in own && i in bytes :: bytes[i]
    }
  }

  /** The inodes that lose an entry between two directories. */
  function Lost(before: map<Path, Inode>, after: map<Path, Inode>): set<Inode> {
    set p | p in before && !(p in after && after[p] == before[p]) :: before[p]
  }

  predicate Has(entries: map<Path, Inode>, f: OwnedFile) {
    f.path in entries && entries[f.path] == f.inode
  }

  function Take(entries: map<Path, Inode>, f: OwnedFile): map<Path, Inode> {
    if Has(entries, f) then entries - {f.path} else entries
  }

  /** What every operation, other processes included, keeps. */
  ghost predicate Follows(b: Fs, a: Fs) {
    && a.Wf() && b.own <= a.own && b.victims <= a.victims && b.next <= a.next
    && a.meddled == b.meddled && a.alone == b.alone
    && (Calm(b.unlinks) ==> Calm(a.unlinks)) && (Calm(b.rest) ==> Calm(a.rest))
  }

  /** Nothing that can be cleaned up or read has changed hands. */
  ghost predicate SameStuck(b: Fs, a: Fs) {
    a.raised == b.raised && a.unread == b.unread && a.stats == b.stats
  }

  /** Other processes, or an operation that changed nothing of ours. */
  ghost predicate Idles(b: Fs, a: Fs) {
    && Follows(b, a) && a.own == b.own && a.victims == b.victims && SameStuck(b, a)
    && (!a.meddled ==> a.Entries() == b.Entries() && a.Contents() == b.Contents())
    && (a.alone ==> a.dir == b.dir && a.bytes == b.bytes)
  }

  /** Only removals that raise add to what is stuck. */
  ghost predicate Tied(b: Fs, a: Fs) {
    && Follows(b, a) && a.unread <= b.unread && a.stats == b.stats
    && (Calm(b.unlinks) ==> a.raised <= b.raised)
  }

  /** Nobody else acted, and none of the operations that are not removals or identity checks raised. */
  ghost predicate Smooth(b: Fs, a: Fs) { Calm(b.rest) && a.alone }

  /** Removals did not raise either. */
  ghost predicate Fine(b: Fs, a: Fs) { Smooth(b, a) && Calm(b.unlinks) }

  lemma EntryAdded(b: Fs, a: Fs, path: Path, i: Inode)
    requires b.Stuck() <= b.Entries().Keys && path !in b.dir
    requires i in b.own || forall p :: p in b.dir ==> b.dir[p] != i
    requires a.dir == b.dir[path := i] && a.own == b.own + {i} && SameStuck(b, a)
    ensures path !in b.Live() && a.Live() == b.Live()[path := i]
    ensures a.Stuck() <= a.Entries().Keys
  {
    assert a.Entries() == b.Entries()[path := i];
  }

  lemma LinkAdded(b: Fs, a: Fs, source: OwnedFile, destination: Path)
    requires b.Wf() && source.inode in b.own && source.path in b.dir && destination !in b.dir
    requires var dir' := b.dir[destination := b.dir[source.path]];
      a == b.(dir := dir', victims := b.victims + Lost(b.dir, dir'))
    ensures Follows(b, a) && a.victims == b.victims && SameStuck(b, a)
    ensures !b.meddled && Has(b.Live(), source) ==>
      && destination !in b.Live() && a.Live() == b.Live()[destination := source.inode]
      && a.Contents() == b.Contents()
  {
    var i := b.dir[source.path];
    if i in b.own {
      if !b.meddled {
        EntryAdded(b, a, destination, i);
      }
    } else {
      assert a.Entries() == b.Entries();
    }
  }

  lemma FileAdded(b: Fs, a: Fs, path: Path)
    requires b.Wf() && path !in b.dir
    requires a == b.(dir := b.dir[path := b.next], bytes := b.bytes[b.next := []], next := b.next + 1,
      own := b.own + {b.next})
    ensures a.Wf() && path !in b.Live()
    ensures !a.meddled ==> a.Live() == b.Live()[path := b.next]
    ensures a.Contents() == b.Contents()[b.next := []]
  {
    if !a.meddled {
      EntryAdded(b, a, path, b.next);
    }
  }

  lemma EntryRemoved(b: Fs, a: Fs, f: OwnedFile)
    requires b.Stuck() <= b.Entries().Keys && f.inode in b.own && b.Holds(f)
    requires a.dir == b.dir - {f.path} && a.own == b.own
    requires a.raised == b.raised - {f.path} && a.unread == b.unread - {f.path}
    ensures a.Live() == Take(b.Live(), f)
    ensures a.Stuck() <= a.Entries().Keys
  {
    assert a.Entries() == b.Entries() - {f.path};
  }

  class FileSystem {
    var dir: map<Path, Inode>
    var bytes: map<Inode, Bytes>
    var next: Inode
    var unlinks: Script
    var stats: Script
    var rest: Script
    ghost var own: set<Inode>
    ghost var victims: set<Inode>
    ghost const alone: bool
    ghost const meddled: bool
    ghost var raised: set<Path>
    ghost var unread: set<Path>

    ghost function View(): Fs
      reads this
    {
      Fs(dir, bytes, next, own, victims, alone, meddled, raised, unread, unlinks, stats, rest)
    }

    constructor (dir: map<Path, Inode>, bytes: map<Inode, Bytes>, next: Inode, unlinks: Script, stats: Script,
        rest: Script, ghost alone: bool, ghost meddled: bool)
      requires (forall p :: p in dir ==> dir[p] < next) && (alone ==> !meddled)
      ensures View() == Fs(dir, bytes, next, {}, {}, alone, meddled, {}, {}, unlinks, stats, rest) && View().Wf()
    {
      this.dir, this.bytes, this.next := dir, bytes, next;
      this.unlinks, this.stats, this.rest := unlinks, stats, rest;
      this.alone, this.meddled := alone, meddled;
      own, victims, raised, unread := {}, {}, {}, {};
    }

    /**
     Any number of steps of other processes. They create, replace and remove
     files as they like; only touching ours is meddling.
     */
    method Others()
      requires View().Wf()
      modifies this
      ensures Idles(old(View()), View())
      ensures unlinks == old(unlinks) && rest == old(rest)
    {
    }

    method UnlinkRaises() returns (raises: bool)
      modifies this`unlinks
      ensures raises == At(old(unlinks), 0) && unlinks == Tail(old(unlinks))
    {
      raises := At(unlinks, 0);
      unlinks := Tail(unlinks);
    }

    method StatRaises() returns (raises: bool)
      modifies this`stats
      ensures raises == At(old(stats), 0) && stats == Tail(old(stats))
    {
      raises := At(stats, 0);
      stats := Tail(stats);
    }

    /** Any other call that may raise, after others had their turn. */
    method Raises() returns (raises: bool)
      requires View().Wf()
      modifies this
      ensures Idles(old(View()), View()) && unlinks == old(unlinks)
      ensures Calm(old(rest)) ==> !raises
    {
      Others();
      raises := At(rest, 0);
      rest := Tail(rest);
    }

    method Occupied(path: Path) returns (occupied: bool)
      requires View().Wf()
      modifies this
      ensures Idles(old(View()), View())
      ensures occupied <==> path in dir
    {
      Others();
      occupied := path in dir;
    }

    /** Creates a new file, or fails when the name is taken. */
    method CreateExclusive(path: Path) returns (r: Result<Inode, ()>)
      requires View().Wf()
      modifies this
      ensures Follows(old(View()), View()) && victims == old(victims) && SameStuck(old(View()), View())
      ensures r.Failure? ==> Idles(old(View()), View())
      ensures r.Success? ==>
        && r.value !in old(own) && own == old(own) + {r.value} && View().Holds(OwnedFile(path, r.value))
        && (!meddled ==>
              && path !in old(View()).Live() && View().Live() == old(View()).Live()[path := r.value]
              && View().Contents() == old(View()).Contents()[r.value := []])
      ensures Smooth(old(View()), View()) ==> (r.Success? <==> path !in old(dir))
      ensures alone && r.Success? ==> dir == old(dir)[path := r.value]
    {
      var raises := Raises();
      if raises || path in dir {
        return Failure(());
      }
      var i := Add(path);
      r := Success(i);
    }

    /** How this run, as opposed to others, changes the directory. */
    method Update(dir': map<Path, Inode>)
      modifies this`dir, this`victims
      ensures dir == dir' && victims == old(victims) + Lost(old(dir), dir')
    {
      victims := victims + Lost(dir, dir');
      dir := dir';
    }

    /** A new empty file under a free name. */
    method Add(path: Path) returns (i: Inode)
      requires View().Wf() && path !in dir
      modifies this
      ensures i == old(next)
      ensures View() ==
        old(View()).(dir := old(dir)[path := i], bytes := old(bytes)[i := []], next := i + 1, own := old(own) + {i})
      ensures View().Wf() && path !in old(View()).Live()
      ensures !meddled ==> View().Live() == old(View()).Live()[path := i]
      ensures View().Contents() == old(View()).Contents()[i := []]
    {
      i := next;
      Update(dir[path := i]);
      bytes, next := bytes[i := []], next + 1;
      own := own + {i};
      FileAdded(old(View()), View(), path);
    }

    /** The path still leads to the file. */
    method AssertOwned(f: OwnedFile) returns (ok: bool)
      requires View().Wf()
      modifies this
      ensures Idles(old(View()), View())
      ensures ok ==> View().Holds(f)
      ensures Smooth(old(View()), View()) ==> (ok <==> View().Holds(f))
    {
      var raises := Raises();
      ok := !raises && f.path in dir && dir[f.path] == f.inode;
    }

    /** The path is looked at and leads to the file. */
    method Leads(f: OwnedFile) returns (ok: bool)
      requires View().Wf()
      modifies this
      ensures Idles(old(View()), View())
      ensures ok <==> View().Holds(f)
    {
      Others();
      ok := f.path in dir && dir[f.path] == f.inode;
    }

    /** A second entry for a file; never over an existing one. */
    method Link(source: OwnedFile, destination: Path) returns (ok: bool)
      requires View().Wf() && source.inode in own
      modifies this
      ensures Follows(old(View()), View()) && own == old(own) && victims == old(victims)
        && SameStuck(old(View()), View())
      ensures !ok ==> Idles(old(View()), View())
      ensures ok && !meddled && Has(old(View()).Live(), source) ==>
        && destination !in old(View()).Live()
        && View().Live() == old(View()).Live()[destination := source.inode]
        && View().Contents() == old(View()).Contents()
      ensures Smooth(old(View()), View()) && old(View()).Holds(source) ==> (ok <==> destination !in old(dir))
      ensures alone && ok && old(View()).Holds(source) ==> dir == old(dir)[destination := source.inode]
    {
      var raises := Raises();
      if raises || source.path !in dir || destination in dir {
        return false;
      }
      ghost var mid := View();
      Update(dir[destination := dir[source.path]]);
      ok := true;
      LinkAdded(mid, View(), source, destination);
    }

    /** Looks at the path and removes its entry if it is the file, in one step. */
    method RemoveIfOwned(f: OwnedFile) returns (r: Removal)
      requires View().Wf() && f.inode in own
      modifies this
      ensures Follows(old(View()), View()) && own == old(own) && stats == old(stats)
      ensures raised == (if r.Removed? then old(raised) - {f.path} else old(raised))
      ensures unread == (if r.Removed? then old(unread) - {f.path} else old(unread))
      ensures victims <= old(victims) + {f.inode}
      ensures !r.Removed? ==> Idles(old(View()), View())
      ensures r.Raised? ==> RemovalRaises(old(unlinks))
      ensures !meddled && Has(old(View()).Live(), f) ==>
        && r == (if RemovalRaises(old(unlinks)) then Raised else Removed)
        && SameStuck(old(View()), View())
      ensures !meddled && r.Removed? ==>
        && View().Live() == Take(old(View()).Live(), f)
        && View().Contents() == old(View()).Contents()
      ensures !meddled && r.Absent? ==> !Has(old(View()).Live(), f)
      ensures alone && r.Removed? ==> dir == old(dir) - {f.path}
    {
      hide Lost;
      r := LookAt(f);
      if !r.Removed? {
        return;
      }
      var raises := UnlinkRaises();
      if raises {
        return Raised;
      }
      Unlink(f);
    }

    /** The look before the unlink: raised, not the file, or to be removed. */
    method LookAt(f: OwnedFile) returns (r: Removal)
      requires View().Wf() && f.inode in own
      modifies this
      ensures Idles(old(View()), View()) && unlinks == Tail(old(unlinks))
      ensures r.Raised? <==> At(old(unlinks), 0)
      ensures !r.Raised? ==> (r.Removed? <==> View().Holds(f))
    {
      Others();
      var raises := UnlinkRaises();
      if raises {
        return Raised;
      }
      r := if f.path in dir && dir[f.path] == f.inode then Removed else Absent;
    }

    method Unlink(f: OwnedFile)
      requires View().Wf() && f.inode in own && View().Holds(f)
      modifies this
      ensures View() == old(View()).(
        dir := old(dir) - {f.path}, victims := victims, raised := old(raised) - {f.path},
          unread := old(unread) - {f.path})
      ensures old(victims) <= victims <= old(victims) + {f.inode} && View().Wf()
      ensures !meddled ==> View().Live() == Take(old(View()).Live(), f)
    {
      Update(dir - {f.path});
      raised, unread := raised - {f.path}, unread - {f.path};
      if !meddled {
        EntryRemoved(old(View()), View(), f);
      }
    }

    /**
     A removal made to clean up. The entry is gone afterwards or counts as
     `raised`, and that only if the look or the unlink raised.
     */
    method CleanUp(f: OwnedFile)
      requires View().Wf() && f.inode in own
      modifies this
      ensures Follows(old(View()), View()) && own == old(own) && stats == old(stats)
      ensures victims <= old(victims) + {f.inode}
      ensures unread <= old(unread) && (f.path !in old(unread) ==> unread == old(unread))
      ensures raised <= old(raised) + (if RemovalRaises(old(unlinks)) then {f.path} else {})
      ensures !meddled ==> View().Live() == Take(old(View()).Live(), f) && View().Contents() == old(View()).Contents()
      ensures !meddled && Has(old(View()).Live(), f) ==>
        && unread == old(unread)
        && raised == old(raised) + (if RemovalRaises(old(unlinks)) then {f.path} else {})
    {
      hide Calm, At, Tail, Fs.Entries;
      var r := RemoveIfOwned(f);
      if r.Raised? {
        ghost var mid := View();
        if Has(View().Entries(), f) {
          raised := raised + {f.path};
        }
        Abandoned(mid, View(), f);
      }
    }

    /** The identity of a new file cannot be read: nobody will remove it. */
    method Abandon(f: OwnedFile)
      requires View().Wf() && f.inode in own
      modifies this`unread
      ensures View() == old(View()).(unread := unread) && View().Wf()
      ensures View().Live() == Take(old(View()).Live(), f)
      ensures old(unread) <= unread <= old(unread) + {f.path}
      ensures Has(old(View()).Entries(), f) ==> f.path in unread
    {
      ghost var mid := View();
      if Has(View().Entries(), f) {
        unread := unread + {f.path};
      }
      Abandoned(mid, View(), f);
    }

    /** Reads the whole file block by block; a read that meets a change fails. */
    method ReadOwned(f: OwnedFile, nonEmpty: bool) returns (r: Result<Bytes, ()>)
      requires View().Wf() && f.inode in own
      modifies this
      ensures Idles(old(View()), View())
      ensures r.Success? ==> View().Holds(f) && (nonEmpty ==> r.value != [])
      ensures r.Success? && !meddled ==> r.value == View().Contents()[f.inode]
      ensures Smooth(old(View()), View()) && old(View()).Holds(f) && (nonEmpty ==> old(bytes)[f.inode] != []) ==>
        r.Success?
    {
      var ok := AssertOwned(f);
      if !ok {
        return Failure(());
      }
      var content := bytes[f.inode];
      assert View().Contents()[f.inode] == content;
      if nonEmpty && |content| == 0 {
        return Failure(());
      }
      r := ReadBlocks(content);
      if r.Failure? {
        return;
      }
      ok := AssertOwned(f);
      if !ok {
        r := Failure(());
      }
    }

    /** Block by block, until everything is read. */
    method ReadBlocks(content: Bytes) returns (r: Result<Bytes, ()>)
      requires View().Wf()
      modifies this
      ensures Idles(old(View()), View())
      ensures r.Success? ==> r.value == content
      ensures Calm(old(rest)) ==> r.Success?
    {
      var data := [];
      while |data| < |content|
        invariant data <= content && Idles(old(View()), View())
        decreases |content| - |data|
      {
        var raises := Raises();
        if raises {
          return Failure(());
        }
        var n :| 1 <= n <= |content| - |data|;
        data := data + content[|data|..|data| + n];
      }
      r := Success(data);
    }

    /** Truncates the file and writes until everything is written, however little each write takes. */
    method WriteOwned(f: OwnedFile, data: Bytes) returns (ok: bool)
      requires View().Wf() && f.inode in own
      modifies this
      ensures Follows(old(View()), View()) && own == old(own) && victims == old(victims)
        && SameStuck(old(View()), View())
      ensures !meddled ==> View().Live() == old(View()).Live()
      ensures ok && !meddled ==> View().Contents() == old(View()).Contents()[f.inode := data]
      ensures !meddled ==> View().Contents() - {f.inode} == old(View()).Contents() - {f.inode}
      ensures alone ==> dir == old(dir)
      ensures Smooth(old(View()), View()) && old(View()).Holds(f) ==> ok
    {
      ok := AssertOwned(f);
      if !ok {
        return;
      }
      ok := WriteBlocks(f.inode, data);
      if ok {
        ok := AssertOwned(f);
      }
    }

    method WriteBlocks(i: Inode, data: Bytes) returns (ok: bool)
      requires View().Wf() && i in own
      modifies this`bytes, this`rest
      ensures exists k :: 0 <= k <= |data| && View() == old(View()).(bytes := old(bytes)[i := data[..k]], rest := rest)
      ensures ok ==> bytes == old(bytes)[i := data]
      ensures Calm(old(rest)) ==> ok && Calm(rest)
      ensures View().Wf()
    {
      bytes := bytes[i := []];
      var offset := 0;
      while offset < |data|
        invariant 0 <= offset <= |data|
        invariant View() == old(View()).(bytes := old(bytes)[i := data[..offset]], rest := rest)
        invariant Calm(old(rest)) ==> Calm(rest)
        decreases |data| - offset
      {
        var raises := At(rest, 0);
        rest := Tail(rest);
        if raises {
          return false;  // the write raised or made no progress
        }
        var written :| 1 <= written <= |data| - offset;
        bytes := bytes[i := data[..offset + written]];
        offset := offset + written;
      }
      assert data[..offset] == data;
      ok := true;
    }

    /** A tool that writes its output into the file behind the path, and may fail before or after. */
    method RunTool(f: OwnedFile, output: Bytes) returns (ok: bool)
      requires View().Wf() && f.inode in own
      modifies this
      ensures Follows(old(View()), View()) && own == old(own) && victims == old(victims)
        && SameStuck(old(View()), View())
      ensures !meddled ==> View().Live() == old(View()).Live()
      ensures !meddled && Has(old(View()).Live(), f) ==>
        && View().Contents() - {f.inode} == old(View()).Contents() - {f.inode}
        && (ok ==> View().Contents() == old(View()).Contents()[f.inode := output])
      ensures alone ==> dir == old(dir)
      ensures Smooth(old(View()), View()) && old(View()).Holds(f) ==>
        ok && View().Contents() == old(View()).Contents()[f.inode := output]
    {
      var raises := Raises();
      if raises {
        return false;
      }
      if f.path in dir {
        ghost var mid := View();
        bytes := bytes[dir[f.path] := output];
        BytesChanged(mid, View(), dir[f.path], output);
      }
      raises := Raises();
      ok := !raises;
    }
  }

  lemma Abandoned(b: Fs, a: Fs, f: OwnedFile)
    requires b.Wf() && a == b.(raised := a.raised, unread := a.unread)
    requires a.Stuck() == if Has(b.Entries(), f) then b.Stuck() + {f.path} else b.Stuck()
    ensures a.Wf() && a.Live() == Take(b.Live(), f)
  {
    assert a.Entries() == b.Entries();
    if Has(b.Entries(), f) {
      assert b.Entries() - (b.Stuck() + {f.path}) == (b.Entries() - b.Stuck()) - {f.path};
    }
  }

  lemma BytesChanged(b: Fs, a: Fs, i: Inode, data: Bytes)
    requires b.Wf() && a == b.(bytes := b.bytes[i := data])
    ensures a.Wf() && a.Live() == b.Live()
    ensures a.Contents() == if i in b.own then b.Contents()[i := data] else b.Contents()
  {
    assert a.Entries() == b.Entries();
  }
}
