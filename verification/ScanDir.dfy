/**
 Listing the files under a path prefix: the pruned walk gives what filtering the whole tree would.
 Symbolic links are files here, as they are not followed.
 */
module ScanDir {
  datatype Node = File(name: string) | Dir(name: string, entries: seq<Node>)

  /** Every file below, in the order of the walk, by its path from the log root; `base` ends in a slash or is empty. */
  function Walk(entries: seq<Node>, base: string): seq<string> {
    if entries == [] then []
    else WalkNode(entries[0], base) + Walk(entries[1..], base)
  }

  function WalkNode(e: Node, base: string): seq<string> {
    match e
    case File(name) => [base + name]
    case Dir(name, entries) => Walk(entries, base + name + "/")
  }

  // ----- What the whole walk lists -----

  /** A file is reached by these names, one directory after the other. */
  ghost predicate Leads(entries: seq<Node>, names: seq<string>)
    decreases |names|
  {
    && names != []
    && if |names| == 1 then File(names[0]) in entries
       else exists below: seq<Node> :: Dir(names[0], below) in entries && Leads(below, names[1..])
  }

  function Join(names: seq<string>): string {
    if names == [] then "" else if |names| == 1 then names[0] else names[0] + "/" + Join(names[1..])
  }

  /** What the walk lists is reached by names that make up its path. */
  lemma {:induction false} ListedIsFile(entries: seq<Node>, base: string, p: string) returns (names: seq<string>)
    requires p in Walk(entries, base)
    ensures Leads(entries, names) && p == base + Join(names)
    decreases entries
  {
    if p in WalkNode(entries[0], base) {
      match entries[0]
      case File(name) =>
        names := [name];
        assert File(name) in entries;
      case Dir(name, below) =>
        var rest := ListedIsFile(below, base + name + "/", p);
        names := [name] + rest;
        assert names[1..] == rest && Dir(name, below) in entries;
        assert base + name + "/" + Join(rest) == base + (name + "/" + Join(rest));
    } else {
      names := ListedIsFile(entries[1..], base, p);
      LeadsOnward(entries, names);
    }
  }

  lemma {:induction false} LeadsOnward(entries: seq<Node>, names: seq<string>)
    requires entries != [] && Leads(entries[1..], names)
    ensures Leads(entries, names)
  {
    if |names| > 1 {
      var below: seq<Node> :| Dir(names[0], below) in entries[1..] && Leads(below, names[1..]);
      assert Dir(names[0], below) in entries;
    }
  }

  /** And every file that is reached by names is listed under them. */
  lemma {:induction false} FileIsListed(entries: seq<Node>, base: string, names: seq<string>)
    requires Leads(entries, names)
    ensures base + Join(names) in Walk(entries, base)
    decreases |names|
  {
    if |names| == 1 {
      NodeIsWalked(entries, base, File(names[0]), base + names[0]);
    } else {
      var below: seq<Node> :| Dir(names[0], below) in entries && Leads(below, names[1..]);
      var inside := base + names[0] + "/";
      FileIsListed(below, inside, names[1..]);
      assert inside + Join(names[1..]) == base + Join(names);
      NodeIsWalked(entries, base, Dir(names[0], below), base + Join(names));
    }
  }

  lemma {:induction false} NodeIsWalked(entries: seq<Node>, base: string, e: Node, p: string)
    requires e in entries && p in WalkNode(e, base)
    ensures p in Walk(entries, base)
    decreases |entries|
  {
    if e != entries[0] {
      NodeIsWalked(entries[1..], base, e, p);
    }
  }

  /** The walk is in the order of the entries. */
  lemma {:induction false} WalkInOrder(a: seq<Node>, b: seq<Node>, base: string)
    ensures Walk(a + b, base) == Walk(a, base) + Walk(b, base)
    decreases |a|
  {
    if a == [] {
      assert a + b == b;
    } else {
      assert (a + b)[1..] == a[1..] + b;
      WalkInOrder(a[1..], b, base);
    }
  }

  function Filter(paths: seq<string>, prefix: string): seq<string> {
    if paths == [] then []
    else (if prefix <= paths[0] then [paths[0]] else []) + Filter(paths[1..], prefix)
  }

  lemma {:induction false} FilterConcat(a: seq<string>, b: seq<string>, prefix: string)
    ensures Filter(a + b, prefix) == Filter(a, prefix) + Filter(b, prefix)
  {
    if a == [] {
      assert a + b == b;
    } else {
      assert (a + b)[1..] == a[1..] + b;
      FilterConcat(a[1..], b, prefix);
    }
  }

  /** Two prefixes of one path are prefixes one of the other. */
  lemma PrefixesCompare(p: string, q: string, path: string)
    requires p <= path && q <= path
    ensures p <= q || q <= p
  {
    if |p| <= |q| {
      assert p == path[..|p|] == q[..|p|];
    } else {
      assert q == path[..|q|] == p[..|q|];
    }
  }

  /** Below a directory whose path neither starts with the prefix nor starts it, no path has the prefix. */
  lemma {:induction false} NothingBelow(entries: seq<Node>, base: string, prefix: string)
    requires !(prefix <= base) && !(base <= prefix)
    ensures Filter(Walk(entries, base), prefix) == []
    decreases entries, 1
  {
    if entries != [] {
      NothingAt(entries[0], base, prefix);
      NothingBelow(entries[1..], base, prefix);
      FilterConcat(WalkNode(entries[0], base), Walk(entries[1..], base), prefix);
    }
  }

  lemma {:induction false} NothingAt(e: Node, base: string, prefix: string)
    requires !(prefix <= base) && !(base <= prefix)
    ensures Filter(WalkNode(e, base), prefix) == []
    decreases e, 0
  {
    var path := base + e.name;
    assert base <= path;
    match e
    case File(_) =>
      if prefix <= path {
        PrefixesCompare(prefix, base, path);
      }
    case Dir(_, entries) =>
      var below := path + "/";
      assert base <= below;
      if prefix <= below {
        PrefixesCompare(prefix, base, below);
      }
      NothingBelow(entries, below, prefix);
  }

  /** Filtering keeps exactly the paths with the prefix. */
  lemma {:induction false} FilterKeeps(paths: seq<string>, prefix: string, p: string)
    ensures p in Filter(paths, prefix) <==> p in paths && prefix <= p
  {
    if paths != [] {
      FilterKeeps(paths[1..], prefix, p);
    }
  }

  lemma {:induction false} FilterWalkStep(entries: seq<Node>, i: nat, base: string, prefix: string)
    requires i < |entries|
    ensures Filter(Walk(entries[i..], base), prefix)
         == Filter(WalkNode(entries[i], base), prefix) + Filter(Walk(entries[i + 1..], base), prefix)
  {
    assert entries[i..][1..] == entries[i + 1..];
    FilterConcat(WalkNode(entries[i], base), Walk(entries[i + 1..], base), prefix);
  }

  /** The pruned walk lists exactly the files of the whole tree whose path starts with the prefix, in its order. */
  method ScanDir(entries: seq<Node>, base: string, prefix: string) returns (files: seq<string>)
    ensures files == Filter(Walk(entries, base), prefix)
    decreases entries, 1
  {
    files := [];
    var i := 0;
    while i < |entries|
      invariant i <= |entries|
      invariant files + Filter(Walk(entries[i..], base), prefix) == Filter(Walk(entries, base), prefix)
    {
      FilterWalkStep(entries, i, base, prefix);
      var more := ScanEntry(entries[i], base, prefix);
      files := files + more;
      i := i + 1;
    }
  }

  /** The loop body: a directory is walked only if its path starts with the prefix or the prefix with it. */
  method ScanEntry(e: Node, base: string, prefix: string) returns (files: seq<string>)
    ensures files == Filter(WalkNode(e, base), prefix)
    decreases e, 0
  {
    files := [];
    var relPath := base + e.name;
    match e {
      case Dir(_, below) =>
        relPath := relPath + "/";
        if prefix <= relPath || relPath <= prefix {
          files := ScanDir(below, relPath, prefix);
        } else {
          NothingBelow(below, relPath, prefix);
        }
      case File(_) =>
        if prefix <= relPath {
          files := [relPath];
        }
    }
  }

  /** The whole tree, asked for from the log root. */
  method ListDataDirectory(root: seq<Node>, prefix: string) returns (files: seq<string>)
    ensures files == Filter(Walk(root, ""), prefix)
  {
    files := ScanDir(root, "", prefix);
  }
}
