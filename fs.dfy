/** The storage tree as the scanner sees it: an immutable tree of regular
    files, directories and other entries, and the pathlib queries the
    scanner makes of it (is_file, is_dir, joinpath, glob). */
module Fs {
  import opened Base
  import opened PyText

  /** A node of the tree. A regular file carries its text contents and its
      size in bytes (stat().st_size); a directory its entries in the order
      iterdir() yields them; Other is anything that is neither a regular
      file nor a directory (a socket, a FIFO, a device). */
  datatype Node = File(contents: string, size: nat) | Dir(entries: seq<Entry>) | Other

  datatype Entry = Entry(name: string, node: Node)

  /** A path, represented by what it names in the tree: None when nothing
      exists there. */
  type Path = Option<Node>

  /** The exceptions iterdir() raises: on a missing path, and on anything
      that is not a directory. */
  datatype FsError = FileNotFound | NotADirectory

  predicate IsFile(p: Path) { p.Some? && p.value.File? }

  predicate IsDir(p: Path) { p.Some? && p.value.Dir? }

  /** No two entries of a directory share a name, as on any filesystem. */
  predicate DistinctNames(es: seq<Entry>)
  {
    forall i, j :: 0 <= i < j < |es| ==> es[i].name != es[j].name
  }

  /** The node of the first entry called name. */
  function Lookup(es: seq<Entry>, name: string): (r: Option<Node>)
    ensures r.None? <==> forall i :: 0 <= i < |es| ==> es[i].name != name
    ensures r.Some? ==> Entry(name, r.value) in es
  {
    if es == [] then None
    else if es[0].name == name then Some(es[0].node)
    else Lookup(es[1..], name)
  }

  /** In a directory whose names are distinct, an entry is what its name
      looks up. */
  lemma {:induction false} LookupEntry(es: seq<Entry>, e: Entry)
    requires DistinctNames(es)
    requires e in es
    ensures Lookup(es, e.name) == Some(e.node)
  {
    if es[0] != e {
      assert forall i, j :: 0 <= i < j < |es[1..]| ==> es[1..][i] == es[i + 1] && es[1..][j] == es[j + 1];
      assert e in es[1..];
      LookupEntry(es[1..], e);
    }
  }

  /** Path.joinpath(name): what exists under the name in a directory;
      nothing exists under a file or under a missing path. */
  function Join(p: Path, name: string): (r: Path)
    ensures !IsDir(p) ==> r == None
    ensures r.Some? ==> Entry(name, r.value) in p.value.entries
  {
    if IsDir(p) then Lookup(p.value.entries, name) else None
  }

  /** The entries of es whose name ends with suffix, in order. */
  function EntriesEndingWith(es: seq<Entry>, suffix: string): (r: seq<Entry>)
    ensures forall e :: e in r <==> e in es && EndsWith(e.name, suffix)
    ensures |r| <= |es|
  {
    if es == [] then []
    else if EndsWith(es[0].name, suffix) then [es[0]] + EntriesEndingWith(es[1..], suffix)
    else EntriesEndingWith(es[1..], suffix)
  }

  /** Path.glob("*" + suffix) on POSIX: the entries directly in p whose
      name ends with suffix (a leading dot is matched like any other
      character), whatever their kind; nothing when p is not a directory. */
  function Glob(p: Path, suffix: string): (r: seq<Entry>)
    ensures !IsDir(p) ==> r == []
    ensures IsDir(p) ==> forall e :: e in r <==> e in p.value.entries && EndsWith(e.name, suffix)
  {
    if IsDir(p) then EntriesEndingWith(p.value.entries, suffix) else []
  }

  /** The size of every regular file in the tree under n, at every depth,
      in walk order; directories and other entries add no size of their
      own. */
  function FileSizes(n: Node): seq<nat>
    decreases n, 0
  {
    match n
    case File(_, size) => [size]
    case Dir(es) => EntriesFileSizes(es)
    case Other => []
  }

  function EntriesFileSizes(es: seq<Entry>): seq<nat>
    decreases es, 1
  {
    if es == [] then [] else EntriesFileSizes(es[..|es| - 1]) + FileSizes(es[|es| - 1].node)
  }

  /** Every term of a sum of naturals is at most the sum. */
  lemma {:induction false} SumBoundsTerm(s: seq<nat>, x: nat)
    requires x in s
    ensures x <= SumOf(s, Id)
  {
    if s[|s| - 1] != x {
      assert x in s[..|s| - 1];
      SumBoundsTerm(s[..|s| - 1], x);
    }
  }

  /** One more entry adds the file sizes of its subtree. */
  lemma EntriesFileSizesStep(es: seq<Entry>, i: nat)
    requires i < |es|
    ensures EntriesFileSizes(es[..i + 1]) == EntriesFileSizes(es[..i]) + FileSizes(es[i].node)
  {
    assert es[..i + 1][..i] == es[..i];
  }

  /** The node reached from n by following the names of route, one
      directory level per name. */
  function Follow(n: Node, route: seq<string>): Option<Node>
    decreases |route|
  {
    if route == [] then Some(n)
    else match Join(Some(n), route[0])
      case None => None
      case Some(child) => Follow(child, route[1..])
  }

  lemma {:induction false} EntriesFileSizesHasChild(es: seq<Entry>, e: Entry)
    requires e in es
    ensures multiset(FileSizes(e.node)) <= multiset(EntriesFileSizes(es))
    decreases |es|
  {
    var last := es[|es| - 1];
    assert EntriesFileSizes(es) == EntriesFileSizes(es[..|es| - 1]) + FileSizes(last.node);
    if last != e {
      assert e in es[..|es| - 1];
      EntriesFileSizesHasChild(es[..|es| - 1], e);
    }
  }

  /** Every regular file reachable from n, at any depth, has its size among
      the sizes that are summed, so it is at most their sum. */
  lemma {:induction false} ReachableFileCounted(n: Node, route: seq<string>)
    requires Follow(n, route).Some? && Follow(n, route).value.File?
    ensures Follow(n, route).value.size in FileSizes(n)
    ensures Follow(n, route).value.size <= SumOf(FileSizes(n), Id)
    decreases |route|
  {
    var k := Follow(n, route).value.size;
    if route != [] {
      var child := Join(Some(n), route[0]).value;
      assert Entry(route[0], child) in n.entries;
      ReachableFileCounted(child, route[1..]);
      EntriesFileSizesHasChild(n.entries, Entry(route[0], child));
      assert k in multiset(FileSizes(child));
    }
    SumBoundsTerm(FileSizes(n), k);
  }
}
