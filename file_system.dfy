/** The part of the file system the create commands look at and change:
    a map from path to entry, the paths a write can never succeed on, and
    the log of every mkdir, copy and write in the order it was attempted. */
module FileSystem {
  import opened CodeModel

  datatype Entry = Directory | File(data: FileData)

  datatype Op =
    | MakeDir(path: string)
    | CopyFile(source: string, target: string)
    | Write(path: string, data: FileData)

  type Entries = map<string, Entry>

  /** What mkdir(p, 0777, true) creates: every prefix of `p` that ends just
      before a '/', and `p` itself. */
  function Ancestors(p: string): (r: set<string>)
    ensures p in r
    ensures forall q :: q in r ==> q <= p
  {
    (set i | 0 < i < |p| && p[i] == '/' :: p[..i]) + {p}
  }

  /** A directory `a` is among the ancestors of every path below it. */
  lemma AncestorOfSubpath(a: string, rest: string)
    requires a != []
    ensures a in Ancestors(a + "/" + rest)
  {
    var p := a + "/" + rest;
    assert p[|a|] == '/' && p[..|a|] == a;
  }

  /** file_put_contents succeeds unless the path is a directory or cannot
      be written at all. */
  predicate CanWrite(entries: Entries, unwritable: set<string>, p: string)
  {
    p !in unwritable && !(p in entries && entries[p].Directory?)
  }

  function AfterWrite(entries: Entries, unwritable: set<string>, p: string, d: FileData): Entries
  {
    if CanWrite(entries, unwritable, p) then entries[p := File(d)] else entries
  }

  /** mkdir fails on a path that exists already. */
  predicate CanMakeDir(entries: Entries, unwritable: set<string>, p: string)
  {
    p !in entries && p !in unwritable
  }

  function AfterMakeDir(entries: Entries, unwritable: set<string>, p: string): Entries
  {
    if CanMakeDir(entries, unwritable, p)
    then map q | q in entries.Keys + Ancestors(p) :: if q in entries then entries[q] else Directory
    else entries
  }

  /** copy needs a file to read and a target it may write. */
  predicate CanCopy(entries: Entries, unwritable: set<string>, source: string, target: string)
  {
    source in entries && entries[source].File? && CanWrite(entries, unwritable, target)
  }

  function AfterCopy(entries: Entries, unwritable: set<string>, source: string, target: string): Entries
  {
    if CanCopy(entries, unwritable, source, target) then entries[target := entries[source]] else entries
  }

  /** A write that succeeds stores exactly its data, one that fails changes
      nothing, and no other path is touched either way. */
  lemma WriteFrame(entries: Entries, unwritable: set<string>, p: string, d: FileData)
    ensures CanWrite(entries, unwritable, p) ==>
      var e := AfterWrite(entries, unwritable, p, d); p in e && e[p] == File(d)
    ensures !CanWrite(entries, unwritable, p) ==> AfterWrite(entries, unwritable, p, d) == entries
    ensures var e := AfterWrite(entries, unwritable, p, d);
      forall q :: q != p ==> (q in e <==> q in entries) && (q in e ==> e[q] == entries[q])
  {
  }

  /** mkdir only ever adds directories: everything there before stays as it
      was, and on success `p` and all its ancestors exist. */
  lemma {:induction false} MakeDirOnlyAdds(entries: Entries, unwritable: set<string>, p: string)
    ensures var e := AfterMakeDir(entries, unwritable, p);
      forall q :: q in entries ==> q in e && e[q] == entries[q]
    ensures var e := AfterMakeDir(entries, unwritable, p);
      forall q :: q in e && q !in entries ==> e[q] == Directory && q in Ancestors(p)
    ensures CanMakeDir(entries, unwritable, p) ==>
      forall q :: q in Ancestors(p) ==> q in AfterMakeDir(entries, unwritable, p)
  {
  }

  /** The disk, changed in place by the commands. */
  class Disk {
    var entries: Entries
    var log: seq<Op>
    const unwritable: set<string>

    constructor (initial: Entries, unwritable: set<string>)
      ensures entries == initial && log == [] && this.unwritable == unwritable
    {
      entries := initial;
      log := [];
      this.unwritable := unwritable;
    }

    /** file_exists: a file or a directory. */
    predicate Exists(p: string)
      reads this
    {
      p in entries
    }

    method PutContents(p: string, d: FileData) returns (ok: bool)
      modifies this
      ensures ok == CanWrite(old(entries), unwritable, p)
      ensures entries == AfterWrite(old(entries), unwritable, p, d)
      ensures log == old(log) + [Write(p, d)]
    {
      ok := CanWrite(entries, unwritable, p);
      if ok {
        entries := entries[p := File(d)];
      }
      log := log + [Write(p, d)];
    }

    /** mkdir with the recursive flag. */
    method MakeDirectory(p: string) returns (ok: bool)
      modifies this
      ensures ok == CanMakeDir(old(entries), unwritable, p)
      ensures entries == AfterMakeDir(old(entries), unwritable, p)
      ensures log == old(log) + [MakeDir(p)]
    {
      ok := CanMakeDir(entries, unwritable, p);
      entries := AfterMakeDir(entries, unwritable, p);
      log := log + [MakeDir(p)];
    }

    method Copy(source: string, target: string) returns (ok: bool)
      modifies this
      ensures ok == CanCopy(old(entries), unwritable, source, target)
      ensures entries == AfterCopy(old(entries), unwritable, source, target)
      ensures log == old(log) + [CopyFile(source, target)]
    {
      ok := CanCopy(entries, unwritable, source, target);
      if ok {
        entries := entries[target := entries[source]];
      }
      log := log + [CopyFile(source, target)];
    }
  }
}
