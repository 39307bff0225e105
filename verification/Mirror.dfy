/** The managed-resource mirror (src/resource-loader.ts:97-116, 181-238):
    syncResourceDir on trees of files and directories, and the entries a
    fingerprint is made of.  Permissions and symbolic links are not modelled. */
module Mirror {
  import opened Messages

  datatype Node = File(content: string) | Dir(entries: map<string, Node>)

  type Directory = map<string, Node>

  function FileNames(d: Directory): set<string> { set n | n in d && d[n].File? }

  function DirNames(d: Directory): set<string> { set n | n in d && d[n].Dir? }

  predicate EndsWith(s: string, suffix: string) {
    |s| >= |suffix| && s[|s| - |suffix|..] == suffix
  }

  /** name.replace(/\.ts$/, '.js') and name.replace(/\.js$/, '.ts') */
  function JsName(name: string): string {
    if EndsWith(name, ".ts") then name[..|name| - 3] + ".js" else name
  }

  function TsName(name: string): string {
    if EndsWith(name, ".js") then name[..|name| - 3] + ".ts" else name
  }

  /** A file the source does not have, but has under the other extension. */
  predicate Stale(name: string, sourceFiles: set<string>) {
    name !in sourceFiles && (JsName(name) in sourceFiles || TsName(name) in sourceFiles)
  }

  /** pruneStaleSiblingFiles */
  function Prune(src: Directory, dest: Directory): Directory {
    dest - set n | n in dest && dest[n].File? && Stale(n, FileNames(src))
  }

  /** The destination entries that are directories in the source are removed. */
  function ClearOwned(src: Directory, dest: Directory): Directory {
    dest - DirNames(src)
  }

  /** copyDirRecursive of one entry onto what the destination has there, None when a
      file meets a directory. */
  function CopyNode(src: Node, dest: Option<Node>): Option<Node>
    decreases src, 2
  {
    match src
    case File(_) => if dest.Some? && dest.value.Dir? then None else Some(src)
    case Dir(entries) =>
      if dest.Some? && dest.value.File? then None
      else
        match CopyDir(src, if dest.Some? then dest.value.entries else map[])
        case None => None
        case Some(d) => Some(Dir(d))
  }

  function At(d: Directory, name: string): Option<Node> { if name in d then Some(d[name]) else None }

  /** copyDirRecursive into a directory. */
  function CopyDir(src: Node, dest: Directory): Option<Directory>
    requires src.Dir?
    decreases src, 1
  {
    if exists n :: n in src.entries && CopyNode(src.entries[n], At(dest, n)).None? then None
    else Some(Overlay(src, dest))
  }

  function Overlay(src: Node, dest: Directory): Directory
    requires src.Dir?
    requires forall n :: n in src.entries ==> CopyNode(src.entries[n], At(dest, n)).Some?
    decreases src, 0
  {
    map n | n in src.entries.Keys + dest.Keys ::
      if n in src.entries then CopyNode(src.entries[n], At(dest, n)).value else dest[n]
  }

  /** syncResourceDir: None when a copy fails; a missing source changes nothing, and
      a missing destination is created. */
  function Sync(src: Option<Directory>, dest: Option<Directory>): Option<Option<Directory>> {
    match src
    case None => Some(dest)
    case Some(s) =>
      var d := if dest.Some? then dest.value else map[];
      match CopyDir(Dir(s), ClearOwned(s, Prune(s, d)))
      case None => None
      case Some(r) => Some(Some(r))
  }

  // ----- Stale siblings -----

  /** A destination file is a stale sibling exactly when the source has no file of its
      name but has one that differs from it in the extension alone, .ts against .js, one
      way or the other. */
  lemma StaleExactlyWhen(name: string, sourceFiles: set<string>)
    ensures Stale(name, sourceFiles) <==>
              && name !in sourceFiles
              && exists s :: s in sourceFiles && Siblings(name, s)
  {
    if EndsWith(name, ".ts") {
      assert name == name[..|name| - 3] + ".ts";
      assert Siblings(name, JsName(name)) by { SiblingStem(name[..|name| - 3]); }
      StemEnds(name[..|name| - 3]);
    }
    if EndsWith(name, ".js") {
      assert name == name[..|name| - 3] + ".js";
      assert Siblings(name, TsName(name)) by { SiblingStem(name[..|name| - 3]); }
      StemEnds(name[..|name| - 3]);
    }
    forall s | Siblings(name, s) ensures s == JsName(name) || s == TsName(name) {
      SiblingIs(name, s);
    }
  }

  /** The same name under the two extensions. */
  predicate Siblings(a: string, b: string) {
    exists n :: 0 <= n <= |a| && IsStem(a[..n], a, b)
  }

  predicate IsStem(stem: string, a: string, b: string) {
    (a == stem + ".ts" && b == stem + ".js") || (a == stem + ".js" && b == stem + ".ts")
  }

  lemma SiblingStem(stem: string)
    ensures Siblings(stem + ".ts", stem + ".js") && Siblings(stem + ".js", stem + ".ts")
  {
    assert (stem + ".ts")[..|stem|] == stem == (stem + ".js")[..|stem|];
    assert IsStem((stem + ".ts")[..|stem|], stem + ".ts", stem + ".js");
    assert IsStem((stem + ".js")[..|stem|], stem + ".js", stem + ".ts");
  }

  lemma StemEnds(stem: string)
    ensures EndsWith(stem + ".ts", ".ts") && EndsWith(stem + ".js", ".js")
    ensures JsName(stem + ".ts") == stem + ".js" && TsName(stem + ".js") == stem + ".ts"
  {
    assert (stem + ".ts")[|stem|..] == ".ts" && (stem + ".js")[|stem|..] == ".js";
    assert (stem + ".ts")[..|stem|] == stem == (stem + ".js")[..|stem|];
  }

  lemma SiblingIs(name: string, s: string)
    requires Siblings(name, s)
    ensures s == JsName(name) || s == TsName(name)
  {
    var n :| 0 <= n <= |name| && IsStem(name[..n], name, s);
    StemEnds(name[..n]);
  }

  // ----- Copying -----

  /** What copying into a directory gives, entry by entry. */
  lemma CopyDirGives(src: Node, dest: Directory, r: Directory)
    requires src.Dir? && r.Keys == src.entries.Keys + dest.Keys
    requires forall n :: n in src.entries ==> CopyNode(src.entries[n], At(dest, n)) == Some(r[n])
    requires forall n :: n in dest && n !in src.entries ==> r[n] == dest[n]
    ensures CopyDir(src, dest) == Some(r)
  {
    hide CopyNode, At;
    assert Overlay(src, dest) == r;
  }

  lemma CopyDirFails(src: Node, dest: Directory, n: string)
    requires src.Dir? && n in src.entries && CopyNode(src.entries[n], At(dest, n)).None?
    ensures CopyDir(src, dest) == None
  {
    hide CopyNode, At;
  }

  lemma {:induction false} CopyFresh(src: Node)
    ensures CopyNode(src, None) == Some(src)
    decreases src, 1
  {
    hide CopyDir;
    if src.Dir? { CopyFreshDir(src); }
  }

  /** Copying into nothing gives an exact copy. */
  lemma {:induction false} CopyFreshDir(src: Node)
    requires src.Dir?
    ensures CopyDir(src, map[]) == Some(src.entries)
    decreases src, 0
  {
    hide CopyDir, CopyNode;
    forall n | n in src.entries ensures CopyNode(src.entries[n], At(map[], n)) == Some(src.entries[n]) {
      CopyFresh(src.entries[n]);
    }
    CopyDirGives(src, map[], src.entries);
  }

  // ----- The mirror -----

  /** A source file meets a directory of the same name. */
  predicate Clash(src: Directory, dest: Directory) {
    exists n :: n in src && src[n].File? && n in dest && dest[n].Dir?
  }

  /** A destination entry that is neither the source's nor a stale sibling. */
  predicate Kept(src: Directory, dest: Directory, n: string) {
    n in dest && n !in src && !(dest[n].File? && Stale(n, FileNames(src)))
  }

  /** The destination the mirror is to leave: every source-owned name an exact copy,
      every other entry as it was unless it is a stale sibling. */
  predicate Mirrored(src: Directory, dest: Directory, r: Directory) {
    && (forall n :: n in src ==> n in r && r[n] == src[n])
    && (forall n :: n in r ==> n in src || (Kept(src, dest, n) && r[n] == dest[n]))
    && (forall n :: n in dest && Kept(src, dest, n) ==> n in r)
  }

  lemma CopiedAt(src: Directory, dest: Directory, n: string)
    requires n in src
    ensures var c := CopyNode(src[n], At(ClearOwned(src, Prune(src, dest)), n));
            if src[n].File? && n in dest && dest[n].Dir? then c == None else c == Some(src[n])
  {
    var cleared := ClearOwned(src, Prune(src, dest));
    if src[n].Dir? {
      assert n !in cleared;
      CopyFresh(src[n]);
    } else if n in dest && dest[n].Dir? {
      assert n in cleared && cleared[n] == dest[n];
    }
  }

  /** syncResourceDir succeeds exactly when no source file meets a directory at the
      top level, and then leaves exactly the mirror: deeper clashes cannot happen,
      because source-owned directories are removed before copying. */
  lemma SyncMirrors(src: Directory, dest: Directory)
    ensures Sync(Some(src), Some(dest)).Some? <==> !Clash(src, dest)
    ensures !Clash(src, dest) ==>
              Sync(Some(src), Some(dest)).value.Some? && Mirrored(src, dest, Sync(Some(src), Some(dest)).value.value)
  {
    hide CopyNode, CopyDir, Stale;
    var cleared := ClearOwned(src, Prune(src, dest));
    forall n | n in src
      ensures CopyNode(src[n], At(cleared, n)) == if n in dest && src[n].File? && dest[n].Dir? then None
              else Some(src[n])
    {
      CopiedAt(src, dest, n);
    }
    if !Clash(src, dest) {
      var r := map n | n in src.Keys + cleared.Keys :: if n in src then src[n] else cleared[n];
      CopyDirGives(Dir(src), cleared, r);
      ClearedIsMirrored(src, dest, r);
    } else {
      var n :| n in src && src[n].File? && n in dest && dest[n].Dir?;
      CopyDirFails(Dir(src), cleared, n);
    }
  }

  lemma ClearedIsMirrored(src: Directory, dest: Directory, r: Directory)
    requires var cleared := ClearOwned(src, Prune(src, dest));
             r == map n | n in src.Keys + cleared.Keys :: if n in src then src[n] else cleared[n]
    ensures Mirrored(src, dest, r)
  {
    hide Stale;
  }

  /** Two directories that mirror the same source over the same destination are the
      same: Mirrored says everything. */
  lemma MirrorIsUnique(src: Directory, dest: Directory, a: Directory, b: Directory)
    requires Mirrored(src, dest, a) && Mirrored(src, dest, b)
    ensures a == b
  {
    hide Stale;
    forall n ensures n in a <==> n in b {
    }
    assert a.Keys == b.Keys;
  }

  /** A second sync changes nothing. */
  lemma SyncIsIdempotent(src: Directory, dest: Directory)
    requires !Clash(src, dest)
    ensures var r := Sync(Some(src), Some(dest)); r.Some? && Sync(Some(src), r.value) == r
  {
    hide Sync, Stale;
    SyncMirrors(src, dest);
    var r := Sync(Some(src), Some(dest)).value.value;
    SyncMirrors(src, r);
    assert !Clash(src, r);
    var again := Sync(Some(src), Some(r)).value.value;
    assert Mirrored(src, r, r);
    MirrorIsUnique(src, r, again, r);
  }

  /** Missing source or destination. */
  lemma SyncOfNothing(src: Directory, dest: Option<Directory>)
    ensures Sync(None, dest) == Some(dest)
    ensures Sync(Some(src), None) == Some(Some(src))
  {
    hide Stale, CopyDir, CopyNode;
    assert Prune(src, map[]) == map[];
    assert ClearOwned(src, map[]) == map[];
    CopyFreshDir(Dir(src));
  }

  /** What an upgrade from one source to another leaves: a file dropped from the
      source stays behind unless the new source has it under the other extension. */
  lemma UpgradeLeavesBehind(v1: Directory, v2: Directory, dest: Directory, n: string, d1: Directory, d2: Directory)
    requires Sync(Some(v1), Some(dest)) == Some(Some(d1)) && Sync(Some(v2), Some(d1)) == Some(Some(d2))
    requires n in v1 && n !in v2
    ensures n in d2 <==> !(v1[n].File? && Stale(n, FileNames(v2)))
  {
    hide Sync, Stale;
    SyncMirrors(v1, dest);
    SyncMirrors(v2, d1);
  }

  /** Such an upgrade: the one file of the old bundle is gone from the new one and
      still in the agent directory. */
  lemma DroppedFileStays()
    ensures var old1 := map["a" := File("x")];
            && Sync(Some(old1), Some(map[])) == Some(Some(old1))
            && Sync(Some(map[]), Some(old1)) == Some(Some(old1))
  {
    hide Sync, Stale;
    var old1: Directory := map["a" := File("x")];
    var none: Directory := map[];
    SyncMirrors(old1, none);
    assert !Clash(old1, none);
    assert Mirrored(old1, none, old1);
    MirrorIsUnique(old1, none, Sync(Some(old1), Some(none)).value.value, old1);
    SyncMirrors(none, old1);
    assert !Clash(none, old1);
    assert FileNames(none) == {};
    NothingIsStale("a");
    assert Mirrored(none, old1, old1);
    MirrorIsUnique(none, old1, Sync(Some(none), Some(old1)).value.value, old1);
  }

  lemma NothingIsStale(name: string)
    ensures !Stale(name, {})
  {
  }

  // ----- The operations on a destination -----

  class Destination {
    var entries: Directory

    constructor (entries: Directory)
      ensures this.entries == entries
    {
      this.entries := entries;
    }

    method PruneStaleSiblingFiles(src: Directory)
      modifies this
      ensures entries == Prune(src, old(entries))
    {
      hide Stale;
      var sourceFiles := FileNames(src);
      var left := entries.Keys;
      ghost var seen: set<string> := {};
      while left != {}
        invariant seen + left == old(entries).Keys && seen !! left
        invariant entries == old(entries) - set n | n in seen && old(entries)[n].File? && Stale(n, sourceFiles)
        decreases |left|
      {
        var name :| name in left;
        left, seen := left - {name}, seen + {name};
        if entries[name].File? && Stale(name, sourceFiles) {
          entries := entries - {name};
        }
      }
      assert seen == old(entries).Keys;
    }

    /** The loop that removes source-owned directories. */
    method RemoveOwnedDirectories(src: Directory)
      modifies this
      ensures entries == ClearOwned(src, old(entries))
    {
      var left := src.Keys;
      ghost var seen: set<string> := {};
      while left != {}
        invariant seen + left == src.Keys && seen !! left
        invariant entries == old(entries) - set n | n in seen && src[n].Dir?
        decreases |left|
      {
        var name :| name in left;
        left, seen := left - {name}, seen + {name};
        if src[name].Dir? && name in entries { entries := entries - {name}; }
      }
      assert seen == src.Keys;
    }

    /** copyDirRecursive into this directory, entry by entry; false as soon as a file
        meets a directory, with the entries copied by then in place. */
    method CopyInto(src: Directory) returns (ok: bool)
      modifies this
      ensures ok ==> CopyDir(Dir(src), old(entries)) == Some(entries)
      ensures !ok ==> CopyDir(Dir(src), old(entries)) == None && PartlyCopied(src, old(entries), entries)
    {
      hide CopyDir, CopyNode, Copied, PartlyCopied;
      var left := src.Keys;
      NothingCopied(Dir(src), entries, left);
      while left != {}
        invariant left <= src.Keys && Copied(Dir(src), old(entries), left, entries)
        decreases |left|
      {
        var name :| name in left;
        OneCopied(Dir(src), old(entries), left, entries, name);
        var copied := CopyEntry(src[name], At(entries, name));
        if copied.None? {
          CopyDirFails(Dir(src), old(entries), name);
          CopiedInPart(src, old(entries), left, entries);
          return false;
        }
        left := left - {name};
        entries := entries[name := copied.value];
      }
      AllCopied(Dir(src), old(entries), left, entries);
      ok := true;
    }

    /** syncResourceDir on an existing source; false when a copy fails, and then too
        nothing that is not the source's is lost but stale siblings. */
    method SyncResourceDir(src: Directory) returns (ok: bool)
      modifies this
      ensures ok <==> !Clash(src, old(entries))
      ensures ok ==> Mirrored(src, old(entries), entries)
      ensures !ok ==> HalfMirrored(src, old(entries), entries)
    {
      SyncMirrors(src, entries);
      PruneStaleSiblingFiles(src);
      RemoveOwnedDirectories(src);
      ok := CopyInto(src);
      if !ok { PartIsHalf(src, old(entries), entries); }
    }
  }

  /** Some entries of the source are copied, and everything else is as it was. */
  ghost predicate PartlyCopied(src: Directory, dest: Directory, r: Directory) {
    && (forall n :: n in dest ==> n in r && (n !in src ==> r[n] == dest[n]))
    && (forall n :: n in r ==> (n in dest && r[n] == dest[n])
                               || (n in src && CopyNode(src[n], At(dest, n)) == Some(r[n])))
  }

  /** What a failed sync leaves: entries that are not the source's as the mirror would
      have them, and under the source's names exact copies or what was there. */
  predicate HalfMirrored(src: Directory, dest: Directory, r: Directory) {
    && (forall n :: n in r ==> n in src || (Kept(src, dest, n) && r[n] == dest[n]))
    && (forall n :: n in dest && Kept(src, dest, n) ==> n in r)
    && (forall n :: n in src && n in r ==> r[n] == src[n] || (n in dest && r[n] == dest[n]))
  }

  lemma CopiedInPart(src: Directory, dest: Directory, left: set<string>, r: Directory)
    requires left <= src.Keys && Copied(Dir(src), dest, left, r)
    ensures PartlyCopied(src, dest, r)
  {
    hide CopyNode, At;
  }

  lemma PartIsHalf(src: Directory, dest: Directory, r: Directory)
    requires PartlyCopied(src, ClearOwned(src, Prune(src, dest)), r)
    ensures HalfMirrored(src, dest, r)
  {
    hide CopyNode, Stale, At;
    var cleared := ClearOwned(src, Prune(src, dest));
    forall n | n in src && n in r ensures r[n] == src[n] || (n in dest && r[n] == dest[n]) {
      CopiedAt(src, dest, n);
    }
    forall n | n in dest && Kept(src, dest, n) ensures n in r {
      assert n in cleared;
    }
  }

  /** copyDirRecursive: entry by entry. */
  method CopyDirRecursive(src: Node, dest: Directory) returns (r: Option<Directory>)
    requires src.Dir?
    ensures r == CopyDir(src, dest)
    decreases src, 0
  {
    hide CopyDir, CopyNode, Copied;
    var left := src.entries.Keys;
    var d := dest;
    NothingCopied(src, dest, left);
    while left != {}
      invariant left <= src.entries.Keys && Copied(src, dest, left, d)
      decreases |left|
    {
      var name :| name in left;
      OneCopied(src, dest, left, d, name);
      var copied := CopyEntry(src.entries[name], At(d, name));
      if copied.None? {
        CopyDirFails(src, dest, name);
        return None;
      }
      left := left - {name};
      d := d[name := copied.value];
    }
    AllCopied(src, dest, left, d);
    r := Some(d);
  }

  /** The destination when all of `src` but `left` is copied. */
  ghost predicate Copied(src: Node, dest: Directory, left: set<string>, d: Directory)
    requires src.Dir?
  {
    && d.Keys == src.entries.Keys - left + dest.Keys
    && (forall n :: n in src.entries && n !in left ==> CopyNode(src.entries[n], At(dest, n)) == Some(d[n]))
    && (forall n :: n in dest && (n !in src.entries || n in left) ==> d[n] == dest[n])
  }

  lemma NothingCopied(src: Node, dest: Directory, left: set<string>)
    requires src.Dir? && left == src.entries.Keys
    ensures Copied(src, dest, left, dest)
  {
  }

  lemma AllCopied(src: Node, dest: Directory, left: set<string>, d: Directory)
    requires src.Dir? && left == {} && Copied(src, dest, left, d)
    ensures CopyDir(src, dest) == Some(d)
  {
    hide CopyNode, At, CopyDir;
    CopyDirGives(src, dest, d);
  }

  lemma OneCopied(src: Node, dest: Directory, left: set<string>, d: Directory, name: string)
    requires src.Dir? && left <= src.entries.Keys && name in left && Copied(src, dest, left, d)
    ensures At(d, name) == At(dest, name)
    ensures var c := CopyNode(src.entries[name], At(dest, name));
            c.Some? ==> Copied(src, dest, left - {name}, d[name := c.value])
  {
    hide CopyNode;
  }

  /** mkdirSync and recursion for a directory, copyFileSync for a file. */
  method CopyEntry(entry: Node, there: Option<Node>) returns (copied: Option<Node>)
    ensures copied == CopyNode(entry, there)
    decreases entry, 1
  {
    hide CopyDir;
    copied := None;
    match entry {
      case File(_) =>
        if !(there.Some? && there.value.Dir?) { copied := Some(entry); }
      case Dir(_) =>
        if !(there.Some? && there.value.File?) {
          var inner := CopyDirRecursive(entry, if there.Some? then there.value.entries else map[]);
          copied := if inner.Some? then Some(Dir(inner.value)) else None;
        }
    }
  }
}
