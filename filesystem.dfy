/** The part of the file system the job controller touches, kept abstract:
    a set of directories, a map from file path to the parse outcome of the
    file's text, and a set of paths the process is not allowed to create,
    open or write. Paths are plain strings with '/' as separator. */
module FileSystem {
  import opened Json

  type Path = string

  /** The directories above `p`: every prefix of `p` that stops just before a '/'. */
  function Ancestors(p: Path): set<Path>
  {
    set k | 0 <= k < |p| && p[k] == '/' :: p[..k]
  }

  /** `p` is `root` itself or lies somewhere below it. */
  predicate Under(p: Path, root: Path)
  {
    p == root || root in Ancestors(p)
  }

  lemma AncestorsAreShorter(p: Path, a: Path)
    requires a in Ancestors(p)
    ensures |a| < |p| && p[..|a|] == a && p[|a|] == '/'
  {
  }

  lemma IsAncestor(p: Path, k: nat)
    requires k < |p| && p[k] == '/'
    ensures p[..k] in Ancestors(p)
  {
  }

  /** Being an ancestor is transitive. */
  lemma AncestorsOfAncestor(p: Path, q: Path)
    requires q in Ancestors(p)
    ensures Ancestors(q) <= Ancestors(p)
  {
    forall a | a in Ancestors(q)
      ensures a in Ancestors(p)
    {
      AncestorsAreShorter(q, a);
      AncestorsAreShorter(p, q);
      assert p[..|a|] == q[..|a|];
      IsAncestor(p, |a|);
    }
  }

  /** The directories above `dir + "/" + name`, for a name without '/', are
      `dir` and the directories above `dir`. */
  lemma {:induction false} AncestorsOfChild(dir: Path, name: string)
    requires forall i | 0 <= i < |name| :: name[i] != '/'
    ensures Ancestors(dir + "/" + name) == Ancestors(dir) + {dir}
  {
    var p := dir + "/" + name;
    forall a | a in Ancestors(p)
      ensures a in Ancestors(dir) + {dir}
    {
      AncestorsAreShorter(p, a);
      var k := |a|;
      if k < |dir| {
        assert dir[k] == p[k];
        assert dir[..k] == p[..k];
        IsAncestor(dir, k);
      } else {
        assert p[..|dir|] == dir;
      }
    }
    forall a | a in Ancestors(dir) + {dir}
      ensures a in Ancestors(p)
    {
      if a == dir {
        assert p[..|dir|] == dir;
        IsAncestor(p, |dir|);
      } else {
        AncestorsAreShorter(dir, a);
        assert p[..|a|] == a;
        IsAncestor(p, |a|);
      }
    }
  }

  /** A snapshot of the file system. */
  datatype Tree = Tree(dirs: set<Path>, files: map<Path, Parsed>, denied: set<Path>)
  {
    /** No path is both a directory and a file, and every directory above an
        existing directory or file exists too. */
    ghost predicate Valid()
    {
      && dirs !! files.Keys
      && (forall d | d in dirs :: Ancestors(d) <= dirs)
      && (forall f | f in files :: Ancestors(f) <= dirs)
    }

    /** QDir::exists. */
    predicate IsDir(p: Path)
    {
      p in dirs
    }

    /** QFile::exists: true for a file or a directory. */
    predicate Exists(p: Path)
    {
      p in dirs || p in files
    }

    /** QDir::mkpath succeeds when the directory exists, or when neither it
        nor any directory above it is a regular file and every one of them
        that is missing may be created. */
    predicate CanMakePath(p: Path)
    {
      || p in dirs
      || (&& p !in denied && p !in files
          && Ancestors(p) !! files.Keys && Ancestors(p) * denied <= dirs)
    }

    /** The tree after QDir::mkpath(p) succeeded: `p` and all its ancestors are directories. */
    function MakePath(p: Path): (t: Tree)
      ensures t.files == files && t.denied == denied
      ensures t.dirs == dirs + {p} + Ancestors(p)
      ensures Valid() && CanMakePath(p) ==> t.Valid()
    {
      assert Valid() && CanMakePath(p) ==> this.(dirs := dirs + {p} + Ancestors(p)).Valid() by {
        if Valid() && CanMakePath(p) {
          forall d | d in dirs + {p} + Ancestors(p)
            ensures Ancestors(d) <= dirs + {p} + Ancestors(p)
          {
            if d in Ancestors(p) {
              AncestorsOfAncestor(p, d);
            }
          }
        }
      }
      this.(dirs := dirs + {p} + Ancestors(p))
    }

    /** Opening `p` for writing succeeds when it is allowed, is not a
        directory and its directory exists. */
    predicate CanWrite(p: Path)
    {
      p !in denied && p !in dirs && Ancestors(p) <= dirs
    }

    /** The tree after `content` was written to `p`. */
    function Write(p: Path, content: Parsed): (t: Tree)
      requires CanWrite(p)
      ensures t.dirs == dirs && t.denied == denied
      ensures t.files == files[p := content]
      ensures t.Read(p) == Some(content)
      ensures forall q | q != p :: t.Read(q) == Read(q)
      ensures Valid() ==> t.Valid()
    {
      this.(files := files[p := content])
    }

    /** Opening `p` for reading and reading all of it: nothing when it is
        missing or not allowed. */
    function Read(p: Path): (r: Option<Parsed>)
      ensures r.Some? <==> p in files && p !in denied
      ensures r.Some? ==> r.value == files[p]
    {
      if p in files && p !in denied then Some(files[p]) else None
    }

    /** The tree after QDir::removeRecursively on `root`: nothing at or below
        `root` is left, everything else stays. */
    function Remove(root: Path): (t: Tree)
      ensures t.denied == denied
      ensures forall p | Under(p, root) :: !t.Exists(p)
      ensures forall p | !Under(p, root) :: (t.Exists(p) <==> Exists(p)) && (t.IsDir(p) <==> IsDir(p))
      ensures forall p | p in t.files :: p in files && t.files[p] == files[p]
      ensures forall p | !Under(p, root) :: t.Read(p) == Read(p)
      ensures Valid() ==> t.Valid()
    {
      var t := Tree(set d | d in dirs && !Under(d, root),
                    map f | f in files && !Under(f, root) :: files[f],
                    denied);
      assert Valid() ==> t.Valid() by {
        if Valid() {
          forall p, a | (p in t.dirs || p in t.files) && a in Ancestors(p)
            ensures a in t.dirs
          {
            assert a in dirs;
            if root in Ancestors(a) {
              AncestorsOfAncestor(p, a);
            }
          }
        }
      }
      t
    }
  }

  /** Below an existing directory `root` every entry is gone once `root` has
      been removed; below a missing one nothing exists in a valid tree. */
  lemma NothingBelowMissing(t: Tree, root: Path, p: Path)
    requires t.Valid() && !t.IsDir(root) && root in Ancestors(p)
    ensures !t.Exists(p)
  {
  }

  /** The shared disk the controller reads and changes. */
  class Disk {
    var tree: Tree

    constructor (t: Tree)
      ensures tree == t
    {
      tree := t;
    }

    /** QDir::mkpath. */
    method MakePath(p: Path) returns (ok: bool)
      modifies this
      ensures ok == old(tree).CanMakePath(p)
      ensures tree == if ok then old(tree).MakePath(p) else old(tree)
    {
      ok := tree.CanMakePath(p);
      if ok {
        tree := tree.MakePath(p);
      }
    }

    /** QFile::open for writing, then write and close. */
    method Write(p: Path, content: Parsed) returns (ok: bool)
      modifies this
      ensures ok == old(tree).CanWrite(p)
      ensures tree == if ok then old(tree).Write(p, content) else old(tree)
    {
      ok := tree.CanWrite(p);
      if ok {
        tree := tree.Write(p, content);
      }
    }

    /** QFile::open for reading, readAll and parse. */
    method Read(p: Path) returns (r: Option<Parsed>)
      ensures r == tree.Read(p)
    {
      r := tree.Read(p);
    }

    /** QDir::removeRecursively. */
    method RemoveRecursively(root: Path)
      modifies this
      ensures tree == old(tree).Remove(root)
    {
      tree := tree.Remove(root);
    }
  }
}
