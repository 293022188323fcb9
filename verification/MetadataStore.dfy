/** The tool metadata kept in memory and in one file per session directory. */
module MetadataStore {
  import opened Options
  import opened Text
  import opened ToolMetadata

  datatype Entry = Entry(meta: Meta, timestamp: int)

  type Entries = map<string, Entry>

  /** The readable metadata files, by session directory. A file that is missing or damaged is absent. */
  type Disk = map<string, Entries>

  /** One process and the disk. `dir` is empty while no session directory is known. */
  datatype State = State(entries: Entries, dir: string, disk: Disk)

  /** One call, or a new process with its own first directory. */
  datatype Op =
    | SetDir(dir: string)
    | Put(id: string, entry: Entry)
    | Read(id: string, dir: string)
    | Drop(id: string)
    | Restart(dir: string)

  function FileOf(disk: Disk, dir: string): Entries {
    if dir != "" && dir in disk then disk[dir] else map[]
  }

  function Lookup(entries: Entries, id: string): Option<Entry> {
    if id in entries then Some(entries[id]) else None
  }

  function Rewrite(disk: Disk, dir: string, all: Entries): Disk {
    if dir == "" then disk else disk[dir := all]
  }

  /** The directory a read falls back on. */
  function Target(s: State, dir: string): string {
    if dir != "" then dir else s.dir
  }

  /** What a read gives back. */
  function Answer(s: State, id: string, dir: string): Option<Entry> {
    if id in s.entries then Some(s.entries[id]) else Lookup(FileOf(s.disk, Target(s, dir)), id)
  }

  function Apply(s: State, op: Op): State {
    match op
    case SetDir(d) => State(s.entries + FileOf(s.disk, d), d, s.disk)
    case Put(id, e) =>
      State(s.entries[id := e], s.dir, Rewrite(s.disk, s.dir, FileOf(s.disk, s.dir)[id := e]))
    case Read(id, d) =>
      var found := Answer(s, id, d);
      if found.Some? then s.(entries := s.entries[id := found.value]) else s
    case Drop(id) =>
      State(s.entries - {id}, s.dir, Rewrite(s.disk, s.dir, FileOf(s.disk, s.dir) - {id}))
    case Restart(d) => State(map[], d, s.disk)
  }

  function Run(s: State, ops: seq<Op>): State {
    if ops == [] then s else Apply(Run(s, Init(ops)), Last(ops))
  }

  /** The current directory after some calls. */
  function DirAfter(dir: string, ops: seq<Op>): string {
    if ops == [] then dir
    else match Last(ops)
      case SetDir(d) => d
      case Restart(d) => d
      case _ => DirAfter(dir, Init(ops))
  }

  /** The value last set for `id` under directory `d` and not deleted there since, or else what `disk` started with. */
  function Kept(s: State, ops: seq<Op>, d: string, id: string): Option<Entry> {
    if ops == [] then Lookup(FileOf(s.disk, d), id)
    else
      var here := DirAfter(s.dir, Init(ops)) == d;
      match Last(ops)
      case Put(i, e) => if i == id && here then Some(e) else Kept(s, Init(ops), d, id)
      case Drop(i) => if i == id && here then None else Kept(s, Init(ops), d, id)
      case _ => Kept(s, Init(ops), d, id)
  }

  lemma {:induction false} DirFollows(s: State, ops: seq<Op>)
    ensures Run(s, ops).dir == DirAfter(s.dir, ops)
  {
    if ops != [] {
      DirFollows(s, Init(ops));
    }
  }

  lemma FileStep(s: State, op: Op, d: string, id: string)
    requires d != ""
    ensures Lookup(FileOf(Apply(s, op).disk, d), id) ==
            match op
            case Put(i, e) => if i == id && s.dir == d then Some(e) else Lookup(FileOf(s.disk, d), id)
            case Drop(i) => if i == id && s.dir == d then None else Lookup(FileOf(s.disk, d), id)
            case _ => Lookup(FileOf(s.disk, d), id)
  {
  }

  /** Each session file holds, per id, the value last set under that directory and not deleted there. */
  lemma {:induction false} FilesKeepTheLast(s: State, ops: seq<Op>, d: string, id: string)
    requires d != ""
    ensures Lookup(FileOf(Run(s, ops).disk, d), id) == Kept(s, ops, d, id)
  {
    if ops != [] {
      FilesKeepTheLast(s, Init(ops), d, id);
      DirFollows(s, Init(ops));
      FileStep(Run(s, Init(ops)), Last(ops), d, id);
    }
  }

  /** After any run, a new process asking with an explicit directory gets the value last set and not deleted there. */
  lemma RestartRecovers(s: State, ops: seq<Op>, env: string, d: string, id: string)
    requires d != ""
    ensures Answer(Apply(Run(s, ops), Restart(env)), id, d) == Kept(s, ops, d, id)
  {
    FilesKeepTheLast(s, ops, d, id);
  }

  /** Every `set` of an id happens while its own directory is current. */
  ghost predicate Homed(s: State, ops: seq<Op>, home: string -> string) {
    ops == [] ||
    (Homed(s, Init(ops), home) &&
     (Last(ops).Put? ==> DirAfter(s.dir, Init(ops)) == home(Last(ops).id)))
  }

  /** Files hold only ids of their own directory. */
  ghost predicate Sorted(disk: Disk, home: string -> string) {
    forall d, id :: d in disk && id in FileOf(disk, d) ==> home(id) == d
  }

  /** Memory never disagrees with a file, and holds nothing that its file has lost. */
  ghost predicate Coherent(s: State, home: string -> string) {
    && Sorted(s.disk, home)
    && (forall id :: id in s.entries && home(id) != "" ==>
          Lookup(FileOf(s.disk, home(id)), id) == Some(s.entries[id]))
  }

  lemma CoherentStep(s: State, op: Op, home: string -> string)
    requires Coherent(s, home)
    requires op.Put? ==> s.dir == home(op.id)
    ensures Coherent(Apply(s, op), home)
  {
    var t := Apply(s, op);
    forall d, id | d in t.disk && id in FileOf(t.disk, d) ensures home(id) == d {
      FileStep(s, op, d, id);
      assert d in s.disk && id in FileOf(s.disk, d) ==> home(id) == d;
    }
    forall id | id in t.entries && home(id) != ""
      ensures Lookup(FileOf(t.disk, home(id)), id) == Some(t.entries[id])
    {
      FileStep(s, op, home(id), id);
    }
  }

  /** Over any run in which each id is set under one directory only, memory and files agree. */
  lemma {:induction false} CacheAgrees(s: State, ops: seq<Op>, home: string -> string)
    requires Coherent(s, home) && Homed(s, ops, home)
    ensures Coherent(Run(s, ops), home)
  {
    if ops != [] {
      CacheAgrees(s, Init(ops), home);
      DirFollows(s, Init(ops));
      CoherentStep(Run(s, Init(ops)), Last(ops), home);
    }
  }

  /** Wherever memory and any file both hold an id, they hold the same entry. */
  lemma MemoryEqualsFile(s: State, ops: seq<Op>, home: string -> string, d: string, id: string)
    requires Coherent(s, home) && Homed(s, ops, home)
    requires id in Run(s, ops).entries && id in FileOf(Run(s, ops).disk, d)
    ensures Run(s, ops).entries[id] == FileOf(Run(s, ops).disk, d)[id]
  {
    CacheAgrees(s, ops, home);
  }

  /** The cache cannot be seen: a read with the id's own directory gives what the file gives. */
  lemma CacheInvisible(s: State, ops: seq<Op>, home: string -> string, id: string)
    requires Coherent(s, home) && Homed(s, ops, home)
    requires home(id) != ""
    ensures Answer(Run(s, ops), id, home(id)) == Kept(s, ops, home(id), id)
  {
    CacheAgrees(s, ops, home);
    FilesKeepTheLast(s, ops, home(id), id);
  }

  /** What memory holds for `id` after some calls: the value last set, read from a file or merged in from one. */
  function Held(s: State, ops: seq<Op>, id: string): Option<Entry> {
    if ops == [] then Lookup(s.entries, id)
    else
      var before := Held(s, Init(ops), id);
      match Last(ops)
      case SetDir(d) =>
        var merged := if d == "" then None else Kept(s, Init(ops), d, id);
        if merged.Some? then merged else before
      case Put(i, e) => if i == id then Some(e) else before
      case Read(i, d) =>
        var target := if d != "" then d else DirAfter(s.dir, Init(ops));
        if i == id && before.None? && target != "" then Kept(s, Init(ops), target, id) else before
      case Drop(i) => if i == id then None else before
      case Restart(_) => None
  }

  lemma HeldStep(s: State, op: Op, id: string)
    ensures Lookup(Apply(s, op).entries, id) ==
            match op
            case SetDir(d) =>
              if Lookup(FileOf(s.disk, d), id).Some? then Lookup(FileOf(s.disk, d), id) else Lookup(s.entries, id)
            case Put(i, e) => if i == id then Some(e) else Lookup(s.entries, id)
            case Read(i, d) =>
              if i == id && id !in s.entries then Lookup(FileOf(s.disk, Target(s, d)), id) else Lookup(s.entries, id)
            case Drop(i) => if i == id then None else Lookup(s.entries, id)
            case Restart(_) => None
  {
  }

  lemma NoFile(disk: Disk, id: string)
    ensures Lookup(FileOf(disk, ""), id) == None
  {
  }

  lemma {:induction false} MemoryHolds(s: State, ops: seq<Op>, id: string)
    ensures Lookup(Run(s, ops).entries, id) == Held(s, ops, id)
  {
    hide Apply, FileOf, Kept;
    if ops != [] {
      var u := Run(s, Init(ops));
      MemoryHolds(s, Init(ops), id);
      HeldStep(u, Last(ops), id);
      DirFollows(s, Init(ops));
      NoFile(u.disk, id);
      match Last(ops)
      case SetDir(d) => if d != "" { FilesKeepTheLast(s, Init(ops), d, id); }
      case Read(_, d) => if Target(u, d) != "" { FilesKeepTheLast(s, Init(ops), Target(u, d), id); }
      case _ =>
    }
  }

  /**
   * After any run, a read with an explicit directory differs from that directory's file exactly when memory holds an
   * entry and it is not the one last set under that directory.
   */
  lemma ReadsDiffer(s: State, ops: seq<Op>, d: string, id: string)
    requires d != ""
    ensures Answer(Run(s, ops), id, d) != Kept(s, ops, d, id)
       <==> Held(s, ops, id).Some? && Held(s, ops, id) != Kept(s, ops, d, id)
  {
    hide Held, Kept, Run, FileOf;
    MemoryHolds(s, ops, id);
    FilesKeepTheLast(s, ops, d, id);
  }

  /** One directory per id is needed: set under two, a read with the first directory gives the second value. */
  lemma TwoDirectoriesDisagree(s: State, a: string, b: string, id: string, x: Entry, y: Entry)
    requires a != "" && b != "" && a != b
    ensures var ops := [SetDir(a), Put(id, x), SetDir(b), Put(id, y)];
            && Answer(Run(s, ops), id, a) == Some(y)
            && Kept(s, ops, a, id) == Some(x)
  {
    var o1, o2, o3 := [SetDir(a)], [SetDir(a), Put(id, x)], [SetDir(a), Put(id, x), SetDir(b)];
    var ops := [SetDir(a), Put(id, x), SetDir(b), Put(id, y)];
    assert Init(ops) == o3 && Init(o3) == o2 && Init(o2) == o1 && Init(o1) == [];
    assert DirAfter(s.dir, o1) == a;
    assert DirAfter(s.dir, o3) == b;
    assert Kept(s, o2, a, id) == Some(x);
    assert Kept(s, o3, a, id) == Some(x);
  }

  predicate Touches(op: Op, id: string) {
    match op
    case Put(i, _) => i == id
    case Drop(i) => i == id
    case Restart(_) => true
    case _ => false
  }

  /** Entries in memory survive every directory switch and every call about other ids. */
  lemma {:induction false} EntriesSurvive(s: State, ops: seq<Op>, home: string -> string, id: string)
    requires Coherent(s, home) && Homed(s, ops, home)
    requires id in s.entries
    requires forall op :: op in ops ==> !Touches(op, id)
    ensures id in Run(s, ops).entries && Run(s, ops).entries[id] == s.entries[id]
  {
    if ops != [] {
      var before := Run(s, Init(ops));
      assert Last(ops) in ops && forall op :: op in Init(ops) ==> op in ops;
      EntriesSurvive(s, Init(ops), home, id);
      CacheAgrees(s, Init(ops), home);
    }
  }

  /** The store of one process. */
  class Cache {
    var entries: Entries
    var sessionDir: string
    var disk: Disk

    function Contents(): State
      reads this
    {
      State(entries, sessionDir, disk)
    }

    constructor (dir: string, files: Disk)
      ensures Contents() == State(map[], dir, files)
    {
      entries, sessionDir, disk := map[], dir, files;
    }

    method ReadFileFromDir(dir: string) returns (all: Entries)
      ensures all == FileOf(disk, dir)
    {
      if dir != "" && dir in disk {
        all := disk[dir];
      } else {
        all := map[];
      }
    }

    method WriteFile(all: Entries)
      modifies this`disk
      ensures disk == Rewrite(old(disk), sessionDir, all)
    {
      if sessionDir == "" {
        return;
      }
      disk := disk[sessionDir := all];
    }

    /** Switch the directory and add its file to what memory holds. */
    method SetSessionDir(dir: string)
      modifies this`entries, this`sessionDir
      ensures Contents() == Apply(old(Contents()), SetDir(dir))
    {
      sessionDir := dir;
      var all := ReadFileFromDir(sessionDir);
      var left := all.Keys;
      while left != {}
        invariant left <= all.Keys && sessionDir == dir
        invariant entries == old(entries) + map id | id in all && id !in left :: all[id]
      {
        var id :| id in left;
        entries := entries[id := all[id]];
        left := left - {id};
      }
      assert (map id | id in all && id !in left :: all[id]) == all;
    }

    method Set(id: string, entry: Entry)
      modifies this`entries, this`disk
      ensures Contents() == Apply(old(Contents()), Put(id, entry))
    {
      entries := entries[id := entry];
      var all := ReadFileFromDir(sessionDir);
      WriteFile(all[id := entry]);
    }

    method Get(id: string, dir: string) returns (entry: Option<Entry>)
      modifies this`entries
      ensures entry == Answer(old(Contents()), id, dir)
      ensures Contents() == Apply(old(Contents()), Read(id, dir))
    {
      if id in entries {
        assert entries == entries[id := entries[id]];
        return Some(entries[id]);
      }
      var target := if dir != "" then dir else sessionDir;
      if target == "" {
        return None;
      }
      var all := ReadFileFromDir(target);
      if id in all {
        entries := entries[id := all[id]];
        return Some(all[id]);
      }
      return None;
    }

    method Delete(id: string)
      modifies this`entries, this`disk
      ensures Contents() == Apply(old(Contents()), Drop(id))
    {
      entries := entries - {id};
      var all := ReadFileFromDir(sessionDir);
      WriteFile(all - {id});
    }
  }
}
