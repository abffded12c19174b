/** The artifact store: the part of the file system the scripts read and
    write, as a map from path to node. A file holds a JSON document (or text
    that is not JSON) and its modification time on the model's clock. */
module Store {
  import opened Json

  datatype Node = Directory | File(doc: Doc, mtime: int)

  type Tree = map<string, Node>

  /** `os.path.isfile(p)`. */
  predicate IsFile(t: Tree, p: string) {
    p in t && t[p].File?
  }

  /** `os.path.isdir(p)`. */
  predicate IsDir(t: Tree, p: string) {
    p in t && t[p].Directory?
  }

  /** `os.path.join(dir, name)` for a relative `name`. */
  function Join(dir: string, name: string): string {
    if dir == [] || dir[|dir| - 1] == '/' then dir + name else dir + "/" + name
  }

  /** `name` is an entry of the directory `dir`: a non-empty name without
      `/` whose path under `dir` exists. */
  predicate InDir(t: Tree, dir: string, name: string) {
    name != [] && '/' !in name && Join(dir, name) in t
  }

  /** `listing` is what `os.listdir(dir)` returns, in some order: every
      entry of `dir` exactly once, and nothing else. */
  ghost predicate ListsDir(t: Tree, dir: string, listing: seq<string>) {
    && (forall i, j :: 0 <= i < j < |listing| ==> listing[i] != listing[j])
    && (forall i :: 0 <= i < |listing| ==> InDir(t, dir, listing[i]))
    && (forall name :: InDir(t, dir, name) ==> name in listing)
  }

  /** `path` and the ancestors of it that `os.makedirs(path)` creates. */
  function DirPrefixes(path: string): set<string> {
    set i | 0 < i <= |path| && (i == |path| || path[i] == '/') :: path[..i]
  }

  /** `os.makedirs(path)`: every missing prefix becomes a directory. */
  function MakeDirs(t: Tree, path: string): (r: Tree)
    ensures r.Keys == t.Keys + DirPrefixes(path)
    ensures forall p :: p in t ==> r[p] == t[p]
    ensures forall p :: p in r && p !in t ==> r[p] == Directory
  {
    map p | p in t.Keys + DirPrefixes(path) :: if p in t then t[p] else Directory
  }

  /** `if not os.path.exists(d): os.makedirs(d)`. */
  function WithDir(t: Tree, d: string): (r: Tree)
    requires d != []
    ensures d in r && (IsDir(r, d) || IsFile(t, d))
    ensures forall p :: p in t ==> p in r && r[p] == t[p]
    ensures d in t ==> r == t
    ensures forall p :: p in r && p !in t ==> IsDir(r, p)
  {
    if d in t then t
    else
      assert d == d[..|d|] && d in DirPrefixes(d);
      MakeDirs(t, d)
  }

  /** Writing `v` to `p` with `open(p, 'w')` raises IsADirectoryError when `p`
      is a directory; otherwise the file holds `v`, modified at `now`. */
  function Written(t: Tree, p: string, v: Json, now: int): (r: (Tree, bool))
    ensures r.1 <==> !IsDir(t, p)
    ensures r.1 ==> r.0 == t[p := File(Parsed(v), now)]
    ensures !r.1 ==> r.0 == t
  {
    if IsDir(t, p) then (t, false) else (t[p := File(Parsed(v), now)], true)
  }

  /** The file system the scripts run against. */
  class FileSystem {
    var nodes: Tree

    constructor (initial: Tree)
      ensures nodes == initial
    {
      nodes := initial;
    }

    /** `if not os.path.exists(d): os.makedirs(d)`. */
    method EnsureDir(d: string)
      requires d != []
      modifies this
      ensures nodes == WithDir(old(nodes), d)
    {
      if d !in nodes {
        nodes := MakeDirs(nodes, d);
      }
    }

    /** `with open(p, 'w') as f: json.dump(v, f)`. */
    method Write(p: string, v: Json, now: int) returns (ok: bool)
      modifies this
      ensures (nodes, ok) == Written(old(nodes), p, v, now)
    {
      ok := !IsDir(nodes, p);
      if ok {
        nodes := nodes[p := File(Parsed(v), now)];
      }
    }

    /** `os.remove(p)` on an existing path: removes a file, raises on a directory. */
    method Remove(p: string) returns (ok: bool)
      requires p in nodes
      modifies this
      ensures ok <==> IsFile(old(nodes), p)
      ensures nodes == if ok then old(nodes) - {p} else old(nodes)
    {
      ok := nodes[p].File?;
      if ok {
        nodes := nodes - {p};
      }
    }
  }
}
