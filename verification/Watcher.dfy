/** Directory watches shared between processes: who refers to which directory, how many each process is charged
    for, and what is registered with the file-system backend. */
module Watcher {
  import opened Common

  const PARENT_DIR: Name := ".."

  /** A cleaned absolute path, by its components. */
  type Path = p: seq<Name> | PARENT_DIR !in p

  /** How many components two paths share from the root on. */
  function Shared(dir: seq<Name>, target: seq<Name>): (n: nat)
    ensures n <= |dir| && n <= |target|
  {
    if dir == [] || target == [] || dir[0] != target[0] then 0 else 1 + Shared(dir[1..], target[1..])
  }

  /** filepath.Rel: up from dir to what the two share, and down to the target. */
  function Rel(dir: Path, target: Path): seq<Name> {
    var n := Shared(dir, target);
    seq(|dir| - n, _ => PARENT_DIR) + target[n..]
  }

  /** Whether the target lies inside dir: the way to it is not up. */
  predicate Under(dir: Path, target: Path) {
    var rel := Rel(dir, target);
    dir != target && (rel == [] || rel[0] != PARENT_DIR)
  }

  /** It does exactly if its path is that of dir, and then more. */
  lemma UnderIsBeneath(dir: Path, target: Path)
    ensures Under(dir, target) <==> exists rest: seq<Name> :: rest != [] && target == dir + rest
  {
    SharedIsSame(dir, target);
    var n := Shared(dir, target);
    assert n < |dir| ==> Rel(dir, target)[0] == PARENT_DIR;
    if Under(dir, target) {
      assert target == dir + target[n..];
    }
    if rest :| rest != [] && target == dir + rest {
      SharedIsShared(dir, rest);
      assert Rel(dir, target) == rest && rest[0] in target;
    }
  }

  lemma {:induction false} SharedIsSame(dir: seq<Name>, target: seq<Name>)
    ensures dir[..Shared(dir, target)] == target[..Shared(dir, target)]
  {
    if !(dir == [] || target == [] || dir[0] != target[0]) {
      SharedIsSame(dir[1..], target[1..]);
      assert dir == [dir[0]] + dir[1..] && target == [target[0]] + target[1..];
    }
  }

  lemma {:induction false} SharedIsShared(dir: seq<Name>, rest: seq<Name>)
    ensures Shared(dir, dir + rest) == |dir|
  {
    if dir != [] {
      assert (dir + rest)[1..] == dir[1..] + rest;
      SharedIsShared(dir[1..], rest);
    }
  }

  type Refs = map<Path, set<Name>>

  function AtOrUnder(refs: Refs, dir: Path): set<Path> {
    set d | d in refs && (d == dir || Under(dir, d))
  }

  predicate Refers(refs: Refs, dir: Path, name: Name) {
    dir in refs && name in refs[dir]
  }

  /** The directories a process is charged for. */
  function DirsOf(refs: Refs, name: Name): set<Path> {
    set d | d in refs && name in refs[d]
  }

  predicate NoEmptyRefs(refs: Refs) {
    forall d :: d in refs ==> refs[d] != {}
  }

  /** Without empty entries, who refers to what determines the whole map. */
  lemma RefsDetermined(a: Refs, b: Refs)
    requires NoEmptyRefs(a) && NoEmptyRefs(b) && forall d, n :: Refers(a, d, n) <==> Refers(b, d, n)
    ensures a == b
  {
    forall d ensures d in a <==> d in b {
      if d in a {
        var n :| n in a[d];
        assert Refers(b, d, n);
      }
      if d in b {
        var n :| n in b[d];
        assert Refers(a, d, n);
      }
    }
    forall d | d in a ensures a[d] == b[d] {
      assert forall n :: n in a[d] <==> Refers(a, d, n);
    }
  }

  function AddRef(refs: Refs, dir: Path, name: Name): Refs {
    refs[dir := (if dir in refs then refs[dir] else {}) + {name}]
  }

  lemma AddRefRefers(refs: Refs, dir: Path, name: Name, d: Path, n: Name)
    ensures Refers(AddRef(refs, dir, name), d, n) <==> Refers(refs, d, n) || (d == dir && n == name)
  {
  }

  lemma OneMoreDir(refs: Refs, dir: Path, name: Name, n: Name)
    requires !Refers(refs, dir, name)
    ensures |DirsOf(AddRef(refs, dir, name), n)| == |DirsOf(refs, n)| + if n == name then 1 else 0
  {
    var after := AddRef(refs, dir, name);
    forall d ensures d in DirsOf(after, n) <==> d in DirsOf(refs, n) || (d == dir && n == name) {
      AddRefRefers(refs, dir, name, d, n);
      assert d in DirsOf(after, n) <==> Refers(after, d, n);
    }
    hide DirsOf, AddRef;
    if n == name {
      assert DirsOf(after, n) == DirsOf(refs, n) + {dir};
    } else {
      assert DirsOf(after, n) == DirsOf(refs, n);
    }
  }

  lemma RefAdded(refs: Refs, dir: Path, name: Name)
    requires !Refers(refs, dir, name) && NoEmptyRefs(refs)
    ensures var after := AddRef(refs, dir, name);
            && NoEmptyRefs(after) && after.Keys == refs.Keys + {dir}
            && (forall n :: |DirsOf(after, n)| == |DirsOf(refs, n)| + if n == name then 1 else 0)
            && (forall d, n :: Refers(after, d, n) <==> Refers(refs, d, n) || (d == dir && n == name))
  {
    forall n ensures |DirsOf(AddRef(refs, dir, name), n)| == |DirsOf(refs, n)| + if n == name then 1 else 0 {
      OneMoreDir(refs, dir, name, n);
    }
    forall d, n ensures Refers(AddRef(refs, dir, name), d, n) <==> Refers(refs, d, n) || (d == dir && n == name) {
      AddRefRefers(refs, dir, name, d, n);
    }
  }

  lemma OneDirLess(refs: Refs, dir: Path, n: Name)
    requires dir in refs
    ensures |DirsOf(refs - {dir}, n)| == |DirsOf(refs, n)| - if n in refs[dir] then 1 else 0
  {
    if n in refs[dir] {
      assert DirsOf(refs, n) == DirsOf(refs - {dir}, n) + {dir};
    } else {
      assert DirsOf(refs, n) == DirsOf(refs - {dir}, n);
    }
  }

  lemma DirReleased(refs: Refs, dir: Path)
    requires dir in refs && NoEmptyRefs(refs)
    ensures NoEmptyRefs(refs - {dir})
    ensures forall n :: |DirsOf(refs - {dir}, n)| == |DirsOf(refs, n)| - if n in refs[dir] then 1 else 0
    ensures forall n :: n in refs[dir] ==> |DirsOf(refs, n)| > 0
    ensures forall d, n :: Refers(refs - {dir}, d, n) ==> Refers(refs, d, n)
  {
    forall n ensures |DirsOf(refs - {dir}, n)| == |DirsOf(refs, n)| - if n in refs[dir] then 1 else 0 {
      OneDirLess(refs, dir, n);
    }
    forall n | n in refs[dir] ensures |DirsOf(refs, n)| > 0 {
      assert dir in DirsOf(refs, n);
    }
  }

  lemma SameDirs(a: Refs, b: Refs, n: Name)
    requires forall d :: Refers(a, d, n) <==> Refers(b, d, n)
    ensures DirsOf(a, n) == DirsOf(b, n)
  {
    forall d ensures d in DirsOf(a, n) <==> d in DirsOf(b, n) {
      assert Refers(a, d, n) <==> Refers(b, d, n);
    }
  }

  /** The map without a process: directories that only it named go. */
  function DropRef(refs: Refs, dir: Path, name: Name): Refs
    requires dir in refs
  {
    if refs[dir] == {name} then refs - {dir} else refs[dir := refs[dir] - {name}]
  }

  lemma DropRefRefers(refs: Refs, dir: Path, name: Name)
    requires Refers(refs, dir, name) && NoEmptyRefs(refs)
    ensures NoEmptyRefs(DropRef(refs, dir, name))
    ensures forall d, n :: Refers(DropRef(refs, dir, name), d, n) <==> Refers(refs, d, n) && !(d == dir && n == name)
  {
    assert refs[dir] == refs[dir] - {name} + {name};
  }

  /** The first i interested processes have been served: who had room before, and whom the backend refused. */
  ghost predicate Granted(before: Refs, room: set<Name>, refused: set<Name>, refs: Refs, dir: Path,
                          interested: seq<Name>, i: nat, first: nat)
    requires i <= |interested|
  {
    && first <= i
    && (forall d, n :: d != dir || n !in interested[..i] ==> (Refers(refs, d, n) <==> Refers(before, d, n)))
    && (forall j :: 0 <= j < i ==>
          (Refers(refs, dir, interested[j]) <==>
           Refers(before, dir, interested[j]) || (j >= first && interested[j] in room)))
    && (if dir in before then first == 0 && dir in refs else dir in refs <==> first < i)
    && (dir !in before ==> forall j :: 0 <= j < first && interested[j] in room ==> interested[j] in refused)
  }

  lemma NothingGranted(refs: Refs, room: set<Name>, dir: Path, interested: seq<Name>)
    ensures Granted(refs, room, {}, refs, dir, interested, 0, 0)
  {
  }

  lemma GrantNext(before: Refs, room: set<Name>, refused: set<Name>, refs: Refs, refs': Refs, dir: Path,
                  interested: seq<Name>, i: nat, first: nat, got: bool)
    returns (first': nat)
    requires i < |interested| && Distinct(interested)
    requires var n := interested[i];
             && Granted(before, room, refused, refs, dir, interested, i, first)
             && (forall d, m :: Refers(refs', d, m) <==> Refers(refs, d, m) || (d == dir && m == n && got))
             && (dir in refs' <==> dir in refs || got)
             && (got ==> n in room) && (n in room && dir in refs ==> got)
    ensures var n := interested[i];
            Granted(before, room, if n in room && !got then refused + {n} else refused, refs', dir, interested,
                    i + 1, first')
  {
    hide Refers;
    var n := interested[i];
    assert interested[..i + 1] == interested[..i] + [n];
    first' := if dir in refs' then first else i + 1;
    assert n !in interested[..i];
  }

  lemma EverybodyServed(before: Refs, room: set<Name>, refused: set<Name>, refs: Refs, dir: Path,
                        interested: seq<Name>, first: nat)
    requires Granted(before, room, refused, refs, dir, interested, |interested|, first)
    ensures first <= |interested| && (dir in before ==> first == 0)
    ensures forall d, n :: d != dir || n !in interested ==> (Refers(refs, d, n) <==> Refers(before, d, n))
    ensures forall i :: 0 <= i < |interested| ==>
              (Refers(refs, dir, interested[i]) <==>
               Refers(before, dir, interested[i]) || (i >= first && interested[i] in room))
    ensures dir !in before ==> forall i :: 0 <= i < first && interested[i] in room ==> interested[i] in refused
    ensures dir in refs <==> dir in before || first < |interested|
  {
    assert interested[..|interested|] == interested;
  }

  class ProcWatch {
    const name: Name
    const cascade: bool
    const bufferSize: int
    const maxEntries: nat
    var entries: int
    var capWarned: bool
    var paused: bool
    var suspended: bool
    var watchFrom: int

    constructor (name: Name, cascade: bool, bufferSize: int, maxEntries: nat, now: int)
      ensures this.name == name && this.cascade == cascade
      ensures this.bufferSize == bufferSize && this.maxEntries == maxEntries
      ensures entries == 0 && !capWarned && !paused && !suspended && watchFrom == now
    {
      this.name, this.cascade, this.bufferSize, this.maxEntries := name, cascade, bufferSize, maxEntries;
      entries, capWarned, paused, suspended, watchFrom := 0, false, false, false, now;
    }
  }

  class Watcher {
    const defaultBufferSize: int
    /** Whether the backend accepts a directory with a buffer size, the k-th time it is asked for anything. */
    const accepts: (Path, int, nat) -> bool
    var asks: nat
    var procs: map<Name, ProcWatch>
    var dirRefs: Refs
    var dirBufSize: map<Path, int>
    /** The directories the backend watches. */
    ghost var backend: set<Path>

    ghost function Watches(): set<ProcWatch>
      reads this
    {
      set n | n in procs :: procs[n]
    }

    ghost predicate Registered()
      reads this
    {
      && (forall n :: n in procs ==> procs[n].name == n)
      && NoEmptyRefs(dirRefs) && (forall d, n :: Refers(dirRefs, d, n) ==> n in procs)
      && dirRefs.Keys == dirBufSize.Keys
    }

    /** The directories referred to that the backend does not watch, and those it watches for nobody. */
    ghost function Lost(): set<Path>
      reads this
    {
      dirRefs.Keys - backend
    }

    ghost function Stale(): set<Path>
      reads this
    {
      backend - dirRefs.Keys
    }

    /** Every process is charged for exactly the directories that name it, within its budget. */
    ghost predicate Charged()
      reads this, Watches()
    {
      forall n :: n in procs ==> procs[n].entries == |DirsOf(dirRefs, n)| <= procs[n].maxEntries
    }

    ghost predicate Valid()
      reads this, Watches()
    {
      Registered() && Charged()
    }

    constructor (defaultBufferSize: int, accepts: (Path, int, nat) -> bool)
      ensures Valid() && procs == map[] && dirRefs == map[] && Lost() == {} == Stale()
    {
      this.defaultBufferSize, this.accepts, asks := defaultBufferSize, accepts, 0;
      procs, dirRefs, dirBufSize, backend := map[], map[], map[], {};
    }

    method AddWatch(dir: Path, bufSize: int) returns (ok: bool)
      modifies `backend, `asks
      ensures ok == accepts(dir, bufSize, old(asks)) && backend == old(backend) + if ok then {dir} else {}
      ensures asks == old(asks) + 1
    {
      ok := accepts(dir, bufSize, asks);
      asks := asks + 1;
      if ok {
        backend := backend + {dir};
      }
    }

    /** The larger of two requested buffers wins; a refusal keeps the registration there is. */
    method ResizeBuffer(dir: Path, bufSize: int)
      requires Registered() && dir in dirRefs
      modifies `backend, `asks, `dirBufSize
      ensures Registered() && asks >= old(asks) && old(backend) <= backend <= old(backend) + {dir}
      ensures dirBufSize == if bufSize > old(dirBufSize)[dir] && accepts(dir, bufSize, old(asks))
                            then old(dirBufSize)[dir := bufSize] else old(dirBufSize)
      ensures asks == old(asks) + if bufSize > old(dirBufSize)[dir] then 1 else 0
    {
      if bufSize <= dirBufSize[dir] {
        return;
      }
      var ok := AddWatch(dir, bufSize);
      if ok {
        dirBufSize := dirBufSize[dir := bufSize];
      }
    }

    function BufferFor(pw: ProcWatch): int {
      if pw.bufferSize <= 0 then defaultBufferSize else pw.bufferSize
    }

    /** The buffers once the backend has been asked to watch dir with this one, or would be if that were larger. */
    static function BuffersAfter(buffers: map<Path, int>, dir: Path, size: int, accepted: bool): map<Path, int> {
      if accepted && (dir in buffers ==> size > buffers[dir]) then buffers[dir := size] else buffers
    }

    /** Whether pw gets a reference to dir: it has room, and the backend watches dir already or accepts it. */
    predicate CanRetain(dir: Path, pw: ProcWatch)
      reads this, pw
    {
      pw.entries < pw.maxEntries && (dir in dirRefs || accepts(dir, BufferFor(pw), asks))
    }

    /** One more reference, charged to pw; or nothing changes but a buffer, when there is a reference already, or the
        warning flag, when there is no room for one. The buffer is the one pw asks for, if it does. */
    method RetainDir(dir: Path, pw: ProcWatch)
      requires Valid() && pw.name in procs && procs[pw.name] == pw
      modifies `backend, `asks, `dirBufSize, `dirRefs, pw`entries, pw`capWarned
      ensures Valid() && asks >= old(asks)
      ensures Lost() <= old(Lost()) && Stale() <= old(Stale())
      ensures forall d, n :: Refers(dirRefs, d, n) <==>
                old(Refers(dirRefs, d, n)) || (d == dir && n == pw.name && old(CanRetain(dir, pw)))
      ensures dir in dirRefs <==> old(dir in dirRefs || CanRetain(dir, pw))
      ensures old(pw.entries) <= pw.entries <= old(pw.entries) + 1
      ensures !old(dir in dirRefs) && old(pw.entries) < pw.maxEntries ==> asks == old(asks) + 1
      ensures var size := if pw.bufferSize > 0 then pw.bufferSize else defaultBufferSize;
              dirBufSize == if old(Refers(dirRefs, dir, pw.name)) || old(pw.entries) < pw.maxEntries
                            then BuffersAfter(old(dirBufSize), dir, size, accepts(dir, size, old(asks)))
                            else old(dirBufSize)
      ensures pw.capWarned <==>
              old(pw.capWarned) || (!old(Refers(dirRefs, dir, pw.name)) && old(pw.entries) >= pw.maxEntries)
    {
      assert Refers(dirRefs, dir, pw.name) ==> dir in dirRefs;
      hide DirsOf, Refers, NoEmptyRefs;
      if Refers(dirRefs, dir, pw.name) {
        ResizeBuffer(dir, BufferFor(pw));
      } else if pw.entries >= pw.maxEntries {
        pw.capWarned := true;
      } else {
        AddReference(dir, pw);
      }
    }

    /** The directory is watched, if the backend takes it, and the reference charged. */
    method AddReference(dir: Path, pw: ProcWatch)
      requires Valid() && pw.name in procs && procs[pw.name] == pw
      requires pw.entries < pw.maxEntries && !Refers(dirRefs, dir, pw.name)
      modifies `backend, `asks, `dirBufSize, `dirRefs, pw`entries
      ensures Valid() && asks >= old(asks)
      ensures Lost() <= old(Lost()) && Stale() <= old(Stale())
      ensures forall d, n :: Refers(dirRefs, d, n) <==>
                old(Refers(dirRefs, d, n)) || (d == dir && n == pw.name && old(CanRetain(dir, pw)))
      ensures dir in dirRefs <==> old(dir in dirRefs || CanRetain(dir, pw))
      ensures old(pw.entries) <= pw.entries <= old(pw.entries) + 1
      ensures !old(dir in dirRefs) ==> asks == old(asks) + 1
      ensures dirBufSize ==
              BuffersAfter(old(dirBufSize), dir, BufferFor(pw), accepts(dir, BufferFor(pw), old(asks)))
    {
      hide DirsOf, Refers, NoEmptyRefs;
      var ok := EnsureWatched(dir, BufferFor(pw));
      if ok {
        Charge(dir, pw);
      }
    }

    /** A directory nobody refers to yet is registered with the backend; another may get a larger buffer. */
    method EnsureWatched(dir: Path, bufSize: int) returns (ok: bool)
      requires Registered()
      modifies `backend, `asks, `dirBufSize
      ensures ok == (dir in dirRefs || accepts(dir, bufSize, old(asks))) && asks >= old(asks)
      ensures dir !in dirRefs ==> asks == old(asks) + 1
      ensures dirBufSize.Keys == dirRefs.Keys + if ok then {dir} else {}
      ensures dirBufSize == BuffersAfter(old(dirBufSize), dir, bufSize, accepts(dir, bufSize, old(asks)))
      ensures old(backend) <= backend <= old(backend) + if ok then {dir} else {}
      ensures ok ==> dir in dirRefs || dir in backend
    {
      if dir in dirRefs {
        ResizeBuffer(dir, bufSize);
        return true;
      }
      ok := AddWatch(dir, bufSize);
      if ok {
        dirBufSize := dirBufSize[dir := bufSize];
      }
    }

    /** The new reference and its charge. */
    method Charge(dir: Path, pw: ProcWatch)
      requires pw.name in procs && procs[pw.name] == pw && pw.entries < pw.maxEntries && !Refers(dirRefs, dir, pw.name)
      requires (forall n :: n in procs ==> procs[n].name == n) && Charged()
      requires NoEmptyRefs(dirRefs) && (forall d, n :: Refers(dirRefs, d, n) ==> n in procs)
      requires dirRefs.Keys + {dir} == dirBufSize.Keys
      modifies `dirRefs, pw`entries
      ensures Valid()
      ensures forall d, n :: Refers(dirRefs, d, n) <==> old(Refers(dirRefs, d, n)) || (d == dir && n == pw.name)
      ensures pw.entries == old(pw.entries) + 1 && dirRefs.Keys == old(dirRefs).Keys + {dir}
    {
      RefAdded(dirRefs, dir, pw.name);
      hide DirsOf, Refers, NoEmptyRefs, AddRef;
      dirRefs := AddRef(dirRefs, dir, pw.name);
      pw.entries := pw.entries + 1;
      forall n | n in procs ensures procs[n].entries == |DirsOf(dirRefs, n)| <= procs[n].maxEntries {
        assert n == pw.name || procs[n] != pw;
      }
    }

    /** A process is deregistered: its references go, and with them the directories nobody else refers to; these
        leave the backend. */
    method RemoveProcess(name: Name)
      requires Valid()
      modifies `procs, `dirRefs, `dirBufSize, `backend
      ensures Valid() && procs == old(procs) - {name}
      ensures forall d, n :: Refers(dirRefs, d, n) <==> old(Refers(dirRefs, d, n)) && n != name
      ensures backend == old(backend) - (old(dirRefs).Keys - dirRefs.Keys)
      ensures Lost() <= old(Lost()) && Stale() <= old(Stale())
    {
      var released := Deregister(name);
      Unwatch(released);
    }

    /** The first half of RemoveProcess, under the lock: the references go, and with them the directories nobody else
        refers to. */
    method Deregister(name: Name) returns (released: seq<Path>)
      requires Valid()
      modifies `procs, `dirRefs, `dirBufSize
      ensures Valid() && procs == old(procs) - {name}
      ensures forall d, n :: Refers(dirRefs, d, n) <==> old(Refers(dirRefs, d, n)) && n != name
      ensures (forall d :: d in released <==> d in old(dirRefs) && d !in dirRefs) && dirRefs.Keys <= old(dirRefs).Keys
    {
      released := [];
      if name !in procs {
        assert forall d :: !Refers(dirRefs, d, name);
        return;
      }
      procs := procs - {name};
      var dirs := Enumerate(dirRefs.Keys);
      assert Dropped(old(dirRefs), name, dirs[..0]);
      for i := 0 to |dirs|
        invariant procs == old(procs) - {name} && Dropped(old(dirRefs), name, dirs[..i])
        invariant dirRefs.Keys == dirBufSize.Keys <= old(dirRefs).Keys
        invariant forall d :: d in released <==> d in old(dirRefs) && d !in dirRefs
      {
        var gone := DropFrom(dirs[i], name, old(dirRefs), dirs[..i]);
        released := released + gone;
        assert dirs[..i + 1] == dirs[..i] + [dirs[i]];
      }
      assert dirs[..|dirs|] == dirs;
      forall n | n in procs ensures procs[n].entries == |DirsOf(dirRefs, n)| {
        SameDirs(dirRefs, old(dirRefs), n);
      }
    }

    /** The second half, after the lock has been given up: the directories leave the backend, one that is gone already
        being no error. Whoever refers to one of them again by now loses the watch, and nobody else does. */
    method Unwatch(released: seq<Path>)
      modifies `backend
      ensures backend == old(backend) - (set d | d in released)
      ensures Lost() == old(Lost()) + (set d | d in released && d in dirRefs)
      ensures Stale() == old(Stale()) - (set d | d in released)
    {
      for i := 0 to |released|
        invariant backend == old(backend) - (set d | d in released[..i])
      {
        assert released[..i + 1] == released[..i] + [released[i]];
        backend := backend - {released[i]};
      }
      assert released[..|released|] == released;
    }

    /** The references of name are gone from the directories done, and nothing else is. */
    ghost predicate Dropped(before: Refs, name: Name, done: seq<Path>)
      reads `dirRefs
    {
      NoEmptyRefs(dirRefs)
      && forall d, n :: Refers(dirRefs, d, n) <==> Refers(before, d, n) && !(n == name && d in done)
    }

    method DropFrom(dir: Path, name: Name, ghost before: Refs, ghost done: seq<Path>) returns (gone: seq<Path>)
      requires Dropped(before, name, done) && dirRefs.Keys == dirBufSize.Keys
      modifies `dirRefs, `dirBufSize
      ensures Dropped(before, name, done + [dir]) && dirRefs.Keys == dirBufSize.Keys <= old(dirRefs).Keys
      ensures forall d :: d in gone <==> d in old(dirRefs) && d !in dirRefs
    {
      gone := [];
      if !Refers(dirRefs, dir, name) {
        return;
      }
      DropRefRefers(dirRefs, dir, name);
      dirRefs := DropRef(dirRefs, dir, name);
      if dir !in dirRefs {
        dirBufSize, gone := dirBufSize - {dir}, [dir];
      }
    }

    /** The second half of AddProcess: the process replaces any registration of its name, and refers to the
        directories its scan found, to all of them when they are within its budget and the backend takes them. */
    method AddProcess(name: Name, cascade: bool, bufferSize: int, maxEntries: nat, now: int, dirs: seq<Path>)
      requires Valid()
      modifies this, Watches()
      ensures Valid() && procs.Keys == old(procs).Keys + {name} && fresh(procs[name])
      ensures Lost() <= old(Lost()) && Stale() <= old(Stale())
      ensures forall n :: n in old(procs) && n != name ==> procs[n] == old(procs)[n]
      ensures forall d, n :: n != name ==> (Refers(dirRefs, d, n) <==> old(Refers(dirRefs, d, n)))
      ensures forall d :: Refers(dirRefs, d, name) ==> d in dirs
      ensures |dirs| <= maxEntries && AlwaysAccepted(dirs, procs[name], old(asks)) ==>
                forall d :: d in dirs ==> Refers(dirRefs, d, name)
    {
      RemoveProcess(name);
      var pw := new ProcWatch(name, cascade, bufferSize, maxEntries, now);
      Publish(pw);
      RetainAll(dirs, pw);
    }

    /** From the k-th request on the backend accepts these directories with the buffer of pw. */
    ghost predicate AlwaysAccepted(dirs: seq<Path>, pw: ProcWatch, k: nat) {
      forall d, j: nat :: d in dirs && j >= k ==> accepts(d, BufferFor(pw), j)
    }

    method RetainAll(dirs: seq<Path>, pw: ProcWatch)
      requires Valid() && pw.name in procs && procs[pw.name] == pw && pw.entries == 0
      modifies `backend, `asks, `dirBufSize, `dirRefs, pw`entries, pw`capWarned
      ensures Valid()
      ensures Lost() <= old(Lost()) && Stale() <= old(Stale())
      ensures forall d, n :: n != pw.name ==> (Refers(dirRefs, d, n) <==> old(Refers(dirRefs, d, n)))
      ensures forall d :: Refers(dirRefs, d, pw.name) ==> old(Refers(dirRefs, d, pw.name)) || d in dirs
      ensures |dirs| <= pw.maxEntries && AlwaysAccepted(dirs, pw, old(asks)) ==>
                forall d :: d in dirs ==> Refers(dirRefs, d, pw.name)
    {
      hide DirsOf, Refers, NoEmptyRefs;
      for i := 0 to |dirs|
        invariant Valid() && pw.entries <= i && asks >= old(asks)
        invariant Lost() <= old(Lost()) && Stale() <= old(Stale())
        invariant forall d, n :: n != pw.name ==> (Refers(dirRefs, d, n) <==> old(Refers(dirRefs, d, n)))
        invariant forall d :: Refers(dirRefs, d, pw.name) ==> old(Refers(dirRefs, d, pw.name)) || d in dirs
        invariant |dirs| <= pw.maxEntries && AlwaysAccepted(dirs, pw, old(asks)) ==>
                    forall k :: 0 <= k < i ==> Refers(dirRefs, dirs[k], pw.name)
      {
        RetainDir(dirs[i], pw);
      }
    }

    method Publish(pw: ProcWatch)
      requires Valid() && pw.name !in procs && pw.entries == 0 && forall d :: !Refers(dirRefs, d, pw.name)
      modifies `procs
      ensures Valid() && procs == old(procs)[pw.name := pw]
    {
      assert DirsOf(dirRefs, pw.name) == {} by {
        forall d ensures d !in DirsOf(dirRefs, pw.name) { assert !Refers(dirRefs, d, pw.name); }
      }
      procs := procs[pw.name := pw];
    }

    /** A directory went away: the backend has lost it and everything beneath it, the bookkeeping follows, and the
        processes that were charged get their budget back. */
    method ReleaseGoneDir(dir: Path)
      requires Valid()
      modifies `backend, `dirRefs, `dirBufSize, (set w | w in Watches())`entries
      ensures Valid()
      ensures dirRefs == if dir in old(dirRefs) then old(dirRefs) - AtOrUnder(old(dirRefs), dir) else old(dirRefs)
      ensures forall d :: d in dirRefs <==> d in old(dirRefs) && !(dir in old(dirRefs) && dir <= d)
      ensures Lost() <= old(Lost()) && Stale() <= old(Stale())
    {
      if dir !in dirRefs {
        return;
      }
      hide Registered, Charged, DirsOf, Refers, NoEmptyRefs, Under, AtOrUnder;
      var candidates := Enumerate(dirRefs.Keys);
      assert Left(dirRefs, dir, candidates[..0]);
      for i := 0 to |candidates|
        invariant Valid() && procs == old(procs) && Left(old(dirRefs), dir, candidates[..i])
        invariant Lost() <= old(Lost()) && Stale() <= old(Stale())
      {
        assert candidates[i] in candidates && candidates[i] !in candidates[..i];
        assert candidates[..i + 1] == candidates[..i] + [candidates[i]];
        ReleaseCandidate(dir, candidates[i], old(dirRefs), candidates[..i]);
      }
      assert candidates[..|candidates|] == candidates;
      AllLeft(old(dirRefs), dir, candidates);
    }

    static lemma AllLeft(refs: Refs, dir: Path, candidates: seq<Path>)
      requires forall d :: d in candidates <==> d in refs
      ensures refs - (set d | d in candidates && (d == dir || Under(dir, d))) == refs - AtOrUnder(refs, dir)
      ensures forall d :: d in refs - AtOrUnder(refs, dir) <==> d in refs && !(dir <= d)
    {
      forall d | d in refs ensures d == dir || Under(dir, d) <==> dir <= d {
        UnderIsBeneath(dir, d);
        assert dir <= d ==> d == dir + d[|dir|..];
      }
    }

    /** Of the directories done, those at or under dir are gone; nothing else has changed. */
    ghost predicate Left(before: Refs, dir: Path, done: seq<Path>)
      reads `dirRefs
    {
      dirRefs == before - (set d | d in done && (d == dir || Under(dir, d)))
    }

    method ReleaseCandidate(dir: Path, candidate: Path, ghost before: Refs, ghost done: seq<Path>)
      requires Valid() && Left(before, dir, done) && candidate in before && candidate !in done
      modifies `backend, `dirRefs, `dirBufSize, (set w | w in Watches())`entries
      ensures Valid() && Left(before, dir, done + [candidate])
      ensures Lost() <= old(Lost()) && Stale() <= old(Stale())
    {
      if candidate == dir || Under(dir, candidate) {
        ReleaseDir(candidate);
      }
    }

    method ReleaseDir(dir: Path)
      requires Valid() && dir in dirRefs
      modifies `backend, `dirRefs, `dirBufSize, (set w | w in Watches())`entries
      ensures Valid() && dirRefs == old(dirRefs) - {dir}
      ensures Lost() <= old(Lost()) && Stale() <= old(Stale())
    {
      DirReleased(dirRefs, dir);
      hide DirsOf, Refers, NoEmptyRefs;
      forall n | n in dirRefs[dir] && n in procs ensures procs[n].entries > 0 {
        assert procs[n].entries == |DirsOf(dirRefs, n)|;
      }
      Refund(dirRefs[dir]);
      dirRefs, dirBufSize, backend := dirRefs - {dir}, dirBufSize - {dir}, backend - {dir};
      assert Charged() by {
        forall n | n in procs ensures procs[n].entries == |DirsOf(dirRefs, n)| <= procs[n].maxEntries {
          assert old(procs[n].entries) == |DirsOf(old(dirRefs), n)|;
        }
      }
      assert Registered();
      hide Charged, Registered;
    }

    method Refund(refs: set<Name>)
      requires forall n :: n in procs ==> procs[n].name == n
      requires forall n :: n in refs && n in procs ==> procs[n].entries > 0
      modifies (set w | w in Watches())`entries
      ensures forall n :: n in procs ==> procs[n].entries == old(procs[n].entries) - if n in refs then 1 else 0
    {
      var names := Enumerate(refs);
      for i := 0 to |names|
        invariant forall n :: n in procs ==> procs[n].entries == old(procs[n].entries) - if n in names[..i] then 1
                                                                                         else 0
      {
        var name := names[i];
        assert name !in names[..i] && names[..i + 1] == names[..i] + [name];
        if name in procs {
          var pw := procs[name];
          if pw.entries > 0 {
            pw.entries := pw.entries - 1;
          }
        }
      }
      assert names[..|names|] == names;
    }

    predicate HasRoom(n: Name)
      reads this, Watches()
    {
      n in procs && procs[n].entries < procs[n].maxEntries
    }

    /** The backend turned the directory down for n at some time after it had been asked k times. */
    ghost predicate RefusedFor(dir: Path, n: Name, k: nat)
      reads this
    {
      n in procs && exists j: nat :: k <= j < asks && !accepts(dir, BufferFor(procs[n]), j)
    }

    /** A directory appeared. The interested processes are served in turn: those before `first` with room in their
        budget were refused by the backend, and from `first` on everybody with room gains a reference. Nobody
        loses one, and a directory already watched is granted to all of them. */
    method AdoptNewDir(dir: Path, interested: seq<Name>) returns (ghost first: nat)
      requires Valid() && Distinct(interested)
      modifies `backend, `asks, `dirBufSize, `dirRefs, Watches()
      ensures Valid() && procs == old(procs) && first <= |interested|
      ensures Lost() <= old(Lost()) && Stale() <= old(Stale())
      ensures forall d, n :: d != dir || n !in interested ==> (Refers(dirRefs, d, n) <==> old(Refers(dirRefs, d, n)))
      ensures forall i :: 0 <= i < |interested| ==>
                (Refers(dirRefs, dir, interested[i]) <==>
                 old(Refers(dirRefs, dir, interested[i])) || (i >= first && old(HasRoom(interested[i]))))
      ensures old(dir in dirRefs) ==> first == 0
      ensures !old(dir in dirRefs) ==>
                forall i :: 0 <= i < first && old(HasRoom(interested[i])) ==> RefusedFor(dir, interested[i], old(asks))
      ensures dir in dirRefs <==> old(dir in dirRefs) || first < |interested|
    {
      hide DirsOf, Refers, NoEmptyRefs, Granted, Registered, Charged;
      first := 0;
      ghost var room, refused: set<Name> := set n | n in procs && HasRoom(n), {};
      NothingGranted(dirRefs, room, dir, interested);
      for i := 0 to |interested|
        invariant Valid() && procs == old(procs) && asks >= old(asks)
        invariant Lost() <= old(Lost()) && Stale() <= old(Stale())
        invariant Granted(old(dirRefs), room, refused, dirRefs, dir, interested, i, first)
        invariant forall n :: n in refused ==> RefusedFor(dir, n, old(asks))
        invariant forall n :: n !in interested[..i] ==> (n in room <==> HasRoom(n))
      {
        ghost var refs := dirRefs;
        var n := interested[i];
        assert n !in interested[..i] && interested[..i + 1] == interested[..i] + [n];
        var got := AdoptFor(dir, n, old(asks));
        first := GrantNext(old(dirRefs), room, refused, refs, dirRefs, dir, interested, i, first, got);
        refused := if n in room && !got then refused + {n} else refused;
      }
      assert Granted(old(dirRefs), room, refused, dirRefs, dir, interested, |interested|, first);
      EverybodyServed(old(dirRefs), room, refused, dirRefs, dir, interested, first);
    }

    /** One interested process is served, if it is still registered. */
    method AdoptFor(dir: Path, n: Name, ghost asks0: nat) returns (ghost got: bool)
      requires Valid() && asks >= asks0
      modifies `backend, `asks, `dirBufSize, `dirRefs, Watches()
      ensures Valid() && procs == old(procs) && asks >= old(asks)
      ensures Lost() <= old(Lost()) && Stale() <= old(Stale())
      ensures forall d, m :: Refers(dirRefs, d, m) <==> old(Refers(dirRefs, d, m)) || (d == dir && m == n && got)
      ensures dir in dirRefs <==> old(dir in dirRefs) || got
      ensures (got ==> old(HasRoom(n))) && (old(dir in dirRefs && HasRoom(n)) ==> got)
      ensures old(HasRoom(n)) && !got ==> RefusedFor(dir, n, asks0)
      ensures forall m :: m != n ==> HasRoom(m) == old(HasRoom(m))
    {
      hide DirsOf, Refers, NoEmptyRefs;
      got := false;
      if n in procs {
        assert forall m :: m in procs && m != n ==> procs[m] != procs[n];
        got := CanRetain(dir, procs[n]);
        RetainDir(dir, procs[n]);
      }
    }

    /** Pausing keeps the tree registered: only the flag changes. */
    method PauseProcess(name: Name)
      requires Valid()
      modifies (set w | w in Watches())`paused
      ensures Valid() && (name in procs ==> procs[name].paused)
      ensures forall n :: n in procs && n != name ==> procs[n].paused == old(procs[n].paused)
    {
      if name in procs {
        procs[name].paused := true;
      }
    }

    /** Resuming also lifts a suspension, and events from before it no longer count. */
    method ResumeProcess(name: Name, now: int)
      requires Valid()
      modifies (set w | w in Watches())`paused, (set w | w in Watches())`suspended, (set w | w in Watches())`watchFrom
      ensures Valid()
      ensures name in procs ==> !procs[name].paused && !procs[name].suspended && procs[name].watchFrom == now
      ensures forall n :: n in procs && n != name ==>
                procs[n].paused == old(procs[n].paused) && procs[n].suspended == old(procs[n].suspended)
                && procs[n].watchFrom == old(procs[n].watchFrom)
    {
      if name in procs {
        var pw := procs[name];
        pw.paused := false;
        pw.suspended := false;
        pw.watchFrom := now;
      }
    }
  }

  /** A watch is lost: the only process that refers to a directory is removed, and before its directories leave the
      backend another process registers for this one. It refers to the directory now, but the backend does not watch
      it. */
  method RemovalRacesRegistration(w: Watcher, a: Name, b: Name, dir: Path, bufferSize: int, maxEntries: nat, now: int)
    requires w.Valid() && a in w.procs && b !in w.procs && maxEntries > 0
    requires forall n :: Refers(w.dirRefs, dir, n) <==> n == a
    requires forall size, k :: w.accepts(dir, size, k)
    modifies w, w.Watches()
    ensures w.Valid() && Refers(w.dirRefs, dir, b) && dir in w.Lost()
  {
    assert Refers(w.dirRefs, dir, a);
    var released := w.Deregister(a);
    assert dir !in w.dirRefs by {
      if dir in w.dirRefs {
        var n :| n in w.dirRefs[dir];
        assert Refers(w.dirRefs, dir, n);
      }
    }
    w.AddProcess(b, false, bufferSize, maxEntries, now, [dir]);
    assert dir in [dir];
    w.Unwatch(released);
  }
}
