/** computeResourceFingerprint before hashing (src/resource-loader.ts:97-116): the
    sorted list of path and size of every file. */
module Fingerprint {
  import opened Mirror
  import opened Numerals

  /** What readdirSync shows of a tree, in the order it happens to show it. */
  datatype Listing = Leaf(size: nat) | Listed(entries: seq<Named>)

  datatype Named = Named(name: string, listing: Listing)

  /** relative(root, join(dir, name)) */
  function Path(dir: string, name: string): string { if dir == "" then name else dir + "/" + name }

  /** What collectFileEntries pushes for the entries of one directory. */
  function Collected(dir: string, es: seq<Named>): seq<string>
    decreases es
  {
    if es == [] then [] else CollectedFrom(dir, es[0]) + Collected(dir, es[1..])
  }

  function CollectedFrom(dir: string, e: Named): seq<string>
    decreases e
  {
    match e.listing
    case Leaf(size) => [Path(dir, e.name) + ":" + Decimal(size)]
    case Listed(entries) => Collected(Path(dir, e.name), entries)
  }

  function NameSet(es: seq<Named>): set<string> { set e | e in es :: e.name }

  predicate DistinctNames(es: seq<Named>) {
    forall i, j :: 0 <= i < j < |es| ==> es[i].name != es[j].name
  }

  /** A listing shows this file or directory: sizes agree, and each entry is shown
      once, in some order. */
  predicate Shows(l: Listing, t: Node)
    decreases t
  {
    match t
    case File(content) => l == Leaf(|content|)
    case Dir(entries) =>
      l.Listed? && DistinctNames(l.entries) && NameSet(l.entries) == entries.Keys
      && forall e :: e in l.entries ==> e.name in entries && Shows(e.listing, entries[e.name])
  }

  /** Some of the entries of a directory. */
  predicate ShowsSome(es: seq<Named>, t: Node)
    requires t.Dir?
  {
    DistinctNames(es) && forall e :: e in es ==> e.name in t.entries && Shows(e.listing, t.entries[e.name])
  }

  function Without(es: seq<Named>, j: nat): seq<Named>
    requires j < |es|
  {
    es[..j] + es[j + 1..]
  }

  lemma {:induction false} CollectedSplit(dir: string, a: seq<Named>, b: seq<Named>)
    ensures Collected(dir, a + b) == Collected(dir, a) + Collected(dir, b)
    decreases |a|
  {
    if a == [] {
      assert a + b == b;
    } else {
      assert (a + b)[1..] == a[1..] + b;
      CollectedSplit(dir, a[1..], b);
    }
  }

  /** Taking one entry out takes out what it contributes. */
  lemma CollectedWithout(dir: string, es: seq<Named>, j: nat)
    requires j < |es|
    ensures multiset(Collected(dir, es))
            == multiset(CollectedFrom(dir, es[j])) + multiset(Collected(dir, Without(es, j)))
  {
    var tail := es[j..];
    assert es == es[..j] + tail && tail[1..] == es[j + 1..];
    CollectedSplit(dir, es[..j], tail);
    CollectedSplit(dir, es[..j], es[j + 1..]);
    assert Collected(dir, tail) == CollectedFrom(dir, es[j]) + Collected(dir, es[j + 1..]);
  }

  lemma WithoutShows(es: seq<Named>, j: nat, t: Node)
    requires t.Dir? && ShowsSome(es, t) && j < |es|
    ensures ShowsSome(Without(es, j), t)
    ensures NameSet(Without(es, j)) == NameSet(es) - {es[j].name}
  {
    hide Shows, NameSet;
    var rest := Without(es, j);
    WithoutMembers(es, j);
    WithoutDistinct(es, j);
  }

  lemma WithoutDistinct(es: seq<Named>, j: nat)
    requires DistinctNames(es) && j < |es|
    ensures DistinctNames(Without(es, j))
  {
    var rest := Without(es, j);
    forall x, y | 0 <= x < y < |rest| ensures rest[x].name != rest[y].name {
      assert rest[x] == es[if x < j then x else x + 1] && rest[y] == es[if y < j then y else y + 1];
    }
  }

  lemma WithoutIn(es: seq<Named>, j: nat, e: Named)
    requires DistinctNames(es) && j < |es|
    ensures e in Without(es, j) <==> e in es && e.name != es[j].name
  {
    var rest := Without(es, j);
    if e in rest {
      var k :| 0 <= k < |rest| && rest[k] == e;
      assert e == es[if k < j then k else k + 1];
    }
    if e in es && e.name != es[j].name {
      var k :| 0 <= k < |es| && es[k] == e;
      assert e == rest[if k < j then k else k - 1];
    }
  }

  lemma WithoutMembers(es: seq<Named>, j: nat)
    requires DistinctNames(es) && j < |es|
    ensures forall e :: e in Without(es, j) <==> e in es && e.name != es[j].name
    ensures NameSet(Without(es, j)) == NameSet(es) - {es[j].name}
  {
    hide Without, DistinctNames;
    forall e ensures e in Without(es, j) <==> e in es && e.name != es[j].name {
      WithoutIn(es, j, e);
    }
  }

  lemma FindName(es: seq<Named>, name: string) returns (j: nat)
    requires name in NameSet(es)
    ensures j < |es| && es[j].name == name
  {
    var e :| e in es && e.name == name;
    j :| 0 <= j < |es| && es[j] == e;
  }

  /** Two listings of the same directory collect the same entries, each as often. */
  lemma {:induction false} SameCollected(dir: string, a: seq<Named>, b: seq<Named>, t: Node)
    requires t.Dir? && ShowsSome(a, t) && ShowsSome(b, t) && NameSet(a) == NameSet(b)
    ensures multiset(Collected(dir, a)) == multiset(Collected(dir, b))
    decreases t, |a|
  {
    if a == [] {
      NoNames(b);
    } else {
      hide ShowsSome, NameSet, Collected, CollectedFrom;
      var name := a[0].name;
      assert name in NameSet(a) by { InNameSet(a, 0); }
      var j := FindName(b, name);
      CollectedWithout(dir, a, 0);
      CollectedWithout(dir, b, j);
      WithoutShows(a, 0, t);
      WithoutShows(b, j, t);
      SameCollected(dir, Without(a, 0), Without(b, j), t);
      ShownAt(a, 0, t);
      ShownAt(b, j, t);
      SameEntry(dir, a[0], b[j], t.entries[name]);
    }
  }

  lemma InNameSet(es: seq<Named>, k: nat)
    requires k < |es|
    ensures es[k].name in NameSet(es)
  {
  }

  lemma NoNames(es: seq<Named>)
    requires NameSet(es) == {}
    ensures es == []
  {
    if es != [] { InNameSet(es, 0); }
  }

  lemma ShownAt(es: seq<Named>, k: nat, t: Node)
    requires t.Dir? && ShowsSome(es, t) && k < |es|
    ensures es[k].name in t.entries && Shows(es[k].listing, t.entries[es[k].name])
    ensures t.entries[es[k].name] < t
  {
  }

  lemma {:induction false} SameEntry(dir: string, a: Named, b: Named, t: Node)
    requires a.name == b.name && Shows(a.listing, t) && Shows(b.listing, t)
    ensures multiset(CollectedFrom(dir, a)) == multiset(CollectedFrom(dir, b))
    decreases t
  {
    if t.Dir? { SameCollected(Path(dir, a.name), a.listing.entries, b.listing.entries, t); }
  }

  // ----- Sorting -----

  /** The order of entries.sort(). */
  predicate AtMost(a: string, b: string) {
    a == "" || (b != "" && (a[0] < b[0] || (a[0] == b[0] && AtMost(a[1..], b[1..]))))
  }

  lemma {:induction false} AtMostBoth(a: string, b: string)
    requires AtMost(a, b) && AtMost(b, a)
    ensures a == b
  {
    if a != "" {
      AtMostBoth(a[1..], b[1..]);
      assert a == [a[0]] + a[1..] && b == [b[0]] + b[1..];
    }
  }

  predicate Sorted(s: seq<string>) {
    forall i, j :: 0 <= i < j < |s| ==> AtMost(s[i], s[j])
  }

  /** entries.sort() returns a sorted permutation. */
  predicate SortOf(s: seq<string>, entries: seq<string>) {
    Sorted(s) && multiset(s) == multiset(entries)
  }

  lemma FirstIsLeast(s: seq<string>, x: string)
    requires Sorted(s) && x in s
    ensures x == s[0] || AtMost(s[0], x)
  {
  }

  lemma SameFirst(a: seq<string>, b: seq<string>)
    requires Sorted(a) && Sorted(b) && multiset(a) == multiset(b) && a != []
    ensures b != [] && a[0] == b[0]
  {
    assert a[0] in multiset(b);
    assert b[0] in multiset(a);
    FirstIsLeast(a, b[0]);
    FirstIsLeast(b, a[0]);
    if a[0] != b[0] { AtMostBoth(a[0], b[0]); }
  }

  lemma SameTails(x: string, a: seq<string>, b: seq<string>)
    requires multiset([x] + a) == multiset([x] + b)
    ensures multiset(a) == multiset(b)
  {
    assert multiset([x] + a) == multiset{x} + multiset(a);
    assert multiset([x] + b) == multiset{x} + multiset(b);
    assert multiset(a) == multiset{x} + multiset(a) - multiset{x};
    assert multiset(b) == multiset{x} + multiset(b) - multiset{x};
  }

  lemma {:induction false} SortedIsUnique(a: seq<string>, b: seq<string>)
    requires Sorted(a) && Sorted(b) && multiset(a) == multiset(b)
    ensures a == b
  {
    hide Sorted;
    assert |multiset(a)| == |multiset(b)|;
    if a != [] {
      SameFirst(a, b);
      SortedTail(a);
      SortedTail(b);
      assert a == [a[0]] + a[1..] && b == [a[0]] + b[1..];
      SameTails(a[0], a[1..], b[1..]);
      SortedIsUnique(a[1..], b[1..]);
    }
  }

  lemma SortedTail(s: seq<string>)
    requires Sorted(s) && s != []
    ensures Sorted(s[1..])
  {
    hide AtMost;
    var t := s[1..];
    forall i, j | 0 <= i < j < |t| ensures AtMost(t[i], t[j]) {
      assert t[i] == s[i + 1] && t[j] == s[j + 1];
    }
  }

  /** What is hashed depends only on the tree, not on the order in which the file
      system lists any of its directories. */
  lemma FingerprintIgnoresListingOrder(t: Node, a: Listing, b: Listing, sa: seq<string>, sb: seq<string>)
    requires t.Dir? && Shows(a, t) && Shows(b, t)
    requires SortOf(sa, Collected("", a.entries)) && SortOf(sb, Collected("", b.entries))
    ensures sa == sb
  {
    SameCollected("", a.entries, b.entries, t);
    SortedIsUnique(sa, sb);
  }

  // ----- What is collected -----

  /** The files of a listing, at any depth. */
  function Leaves(es: seq<Named>): nat
    decreases es
  {
    if es == [] then 0
    else (if es[0].listing.Leaf? then 1 else Leaves(es[0].listing.entries)) + Leaves(es[1..])
  }

  /** One entry is collected for each. */
  lemma {:induction false} OneForEach(dir: string, es: seq<Named>)
    ensures |Collected(dir, es)| == Leaves(es)
    decreases es
  {
    if es != [] {
      if es[0].listing.Listed? { OneForEach(Path(dir, es[0].name), es[0].listing.entries); }
      OneForEach(dir, es[1..]);
    }
  }

  /** The listing shows a file of this size along these names. */
  predicate HasFile(es: seq<Named>, names: seq<string>, size: nat)
    decreases |names|
  {
    names != []
    && exists k :: 0 <= k < |es| && es[k].name == names[0]
         && (if |names| == 1 then es[k].listing == Leaf(size)
             else es[k].listing.Listed? && HasFile(es[k].listing.entries, names[1..], size))
  }

  /** Names, each after a slash. */
  function Slashes(names: seq<string>): string {
    if names == [] then "" else "/" + names[0] + Slashes(names[1..])
  }

  /** The names joined by slashes. */
  function PathOf(names: seq<string>): string
    requires names != []
  {
    names[0] + Slashes(names[1..])
  }

  /** The entry of a file, seen from a directory. */
  function EntryOf(dir: string, names: seq<string>, size: nat): string
    requires names != []
  {
    (if dir == "" then PathOf(names) else dir + Slashes(names)) + ":" + Decimal(size)
  }

  /** Entries of directories have names. */
  predicate Proper(es: seq<Named>)
    decreases es
  {
    forall k :: 0 <= k < |es| ==>
      es[k].name != "" && (es[k].listing.Listed? ==> Proper(es[k].listing.entries))
  }

  lemma SlashesOne(names: seq<string>)
    requires names != []
    ensures Slashes(names) == "/" + names[0] + Slashes(names[1..])
  {
  }

  lemma Regroup(a: string, b: string, c: string)
    ensures (a + b) + c == a + (b + c)
  {
  }

  lemma Deeper(dir: string, name: string, rest: seq<string>, size: nat)
    requires name != "" && rest != []
    ensures EntryOf(Path(dir, name), rest, size) == EntryOf(dir, [name] + rest, size)
  {
    hide Decimal, Slashes;
    var names := [name] + rest;
    assert names[0] == name && names[1..] == rest;
    SlashesOne(names);
    Regroup(dir, "/" + name, Slashes(rest));
    assert dir + ("/" + name) == dir + "/" + name;
    assert dir != "" ==> |Path(dir, name)| > 0;
  }

  lemma Here(dir: string, name: string, size: nat)
    ensures EntryOf(dir, [name], size) == Path(dir, name) + ":" + Decimal(size)
  {
    hide Decimal;
    var names := [name];
    assert names[1..] == [] && Slashes([]) == "";
    assert Slashes(names) == "/" + name + Slashes(names[1..]);
    assert name + "" == name && "/" + name + "" == "/" + name;
    if dir != "" { assert dir + ("/" + name) == dir + "/" + name; }
  }

  lemma {:induction false} CollectedComesFrom(dir: string, es: seq<Named>, x: string)
    returns (names: seq<string>, size: nat)
    requires Proper(es) && x in Collected(dir, es)
    ensures names != [] && HasFile(es, names, size) && x == EntryOf(dir, names, size)
    decreases es
  {
    if x in CollectedFrom(dir, es[0]) {
      var e := es[0];
      match e.listing
      case Leaf(n) =>
        names, size := [e.name], n;
        Here(dir, e.name, n);
      case Listed(entries) =>
        names, size := CollectedComesFrom(Path(dir, e.name), entries, x);
        Deeper(dir, e.name, names, size);
        names := [e.name] + names;
        assert names[1..] == names[1..] && HasFile(entries, names[1..], size);
    } else {
      var rest := es[1..];
      assert forall k :: 0 <= k < |rest| ==> rest[k] == es[k + 1];
      names, size := CollectedComesFrom(dir, rest, x);
      FoundLater(es, names, size);
    }
  }

  lemma FoundLater(es: seq<Named>, names: seq<string>, size: nat)
    requires es != [] && HasFile(es[1..], names, size)
    ensures HasFile(es, names, size)
  {
    var rest := es[1..];
    var k :| 0 <= k < |rest| && rest[k].name == names[0]
             && (if |names| == 1 then rest[k].listing == Leaf(size)
                 else rest[k].listing.Listed? && HasFile(rest[k].listing.entries, names[1..], size));
    assert es[k + 1] == rest[k];
  }

  lemma {:induction false} InCollected(dir: string, es: seq<Named>, k: nat, x: string)
    requires k < |es| && x in CollectedFrom(dir, es[k])
    ensures x in Collected(dir, es)
    decreases k
  {
    if k > 0 {
      assert es[1..][k - 1] == es[k];
      InCollected(dir, es[1..], k - 1, x);
    }
  }

  lemma {:induction false} FilesAreCollected(dir: string, es: seq<Named>, names: seq<string>, size: nat)
    requires Proper(es) && HasFile(es, names, size)
    ensures EntryOf(dir, names, size) in Collected(dir, es)
    decreases |names|
  {
    var k :| 0 <= k < |es| && es[k].name == names[0]
             && (if |names| == 1 then es[k].listing == Leaf(size)
                 else es[k].listing.Listed? && HasFile(es[k].listing.entries, names[1..], size));
    if |names| == 1 {
      assert names == [es[k].name];
      Here(dir, es[k].name, size);
    } else {
      FilesAreCollected(Path(dir, es[k].name), es[k].listing.entries, names[1..], size);
      Deeper(dir, es[k].name, names[1..], size);
      assert names == [es[k].name] + names[1..];
    }
    InCollected(dir, es, k, EntryOf(dir, names, size));
  }

  /** The entry of the file of this size along these names. */
  predicate IsEntry(es: seq<Named>, x: string, names: seq<string>, size: nat) {
    names != [] && HasFile(es, names, size) && x == PathOf(names) + ":" + Decimal(size)
  }

  lemma EntryIs(es: seq<Named>, names: seq<string>, size: nat)
    requires names != []
    ensures HasFile(es, names, size) <==> IsEntry(es, EntryOf("", names, size), names, size)
    ensures EntryOf("", names, size) == PathOf(names) + ":" + Decimal(size)
  {
    hide HasFile, PathOf, Decimal;
  }

  lemma EntryComesFrom(es: seq<Named>, x: string) returns (names: seq<string>, size: nat)
    requires Proper(es) && x in Collected("", es)
    ensures IsEntry(es, x, names, size)
  {
    hide HasFile, PathOf, Decimal, Collected, IsEntry, EntryOf, Proper;
    names, size := CollectedComesFrom("", es, x);
    EntryIs(es, names, size);
  }

  lemma EntryCollected(es: seq<Named>, x: string, names: seq<string>, size: nat)
    requires Proper(es) && IsEntry(es, x, names, size)
    ensures x in Collected("", es)
  {
    hide HasFile, PathOf, Decimal, Collected, Proper, EntryOf;
    EntryIs(es, names, size);
    FilesAreCollected("", es, names, size);
  }

  /** The entries collected from a listing are exactly path:size, with the path joined by
      slashes, of each file at any depth. */
  lemma CollectedExactly(es: seq<Named>, x: string)
    requires Proper(es)
    ensures x in Collected("", es) <==> exists names, size :: IsEntry(es, x, names, size)
  {
    hide IsEntry, Collected, Proper;
    if x in Collected("", es) {
      var names, size := EntryComesFrom(es, x);
    }
    if names, size :| IsEntry(es, x, names, size) {
      EntryCollected(es, x, names, size);
    }
  }

  // ----- The collecting procedure -----

  class Collector {
    var out: seq<string>

    constructor ()
      ensures out == []
    {
      out := [];
    }

    /** collectFileEntries on the entries of `dir`. */
    method CollectFileEntries(dir: string, es: seq<Named>)
      modifies this
      ensures out == old(out) + Collected(dir, es)
      decreases es
    {
      for i := 0 to |es|
        invariant out + Collected(dir, es[i..]) == old(out) + Collected(dir, es)
      {
        assert es[i..][0] == es[i] && es[i..][1..] == es[i + 1..];
        CollectEntry(dir, es[i]);
      }
    }

    method CollectEntry(dir: string, e: Named)
      modifies this
      ensures out == old(out) + CollectedFrom(dir, e)
      decreases e
    {
      match e.listing {
        case Leaf(size) => out := out + [Path(dir, e.name) + ":" + Decimal(size)];
        case Listed(entries) => CollectFileEntries(Path(dir, e.name), entries);
      }
    }
  }
}
