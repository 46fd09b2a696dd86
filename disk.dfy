/** The project directory as the scaffolder sees it through open(), json.load,
    os.makedirs and shutil.rmtree: a map from file path to content and a set
    of directories, all relative to the project root. */
module Disk {
  import opened Errors
  import opened Json

  /** What a file holds: a document written by json.dump, or plain text. */
  datatype Content = JsonDoc(doc: Json) | Text(text: string)

  datatype Tree = Tree(files: map<Path, Content>, dirs: set<Path>)

  function At(t: Tree, p: Path): Option<Content>
  {
    if p in t.files then Some(t.files[p]) else None
  }

  /** `p` is `root` or lies somewhere below it. */
  predicate Under(p: Path, root: Path)
  {
    |root| <= |p| && p[..|root|] == root
  }

  /** Two names that differ in length or in their first letter. */
  predicate NamesDiffer(a: string, b: string)
  {
    |a| != |b| || (a != [] && b != [] && a[0] != b[0])
  }

  /** Paths whose first names differ are distinct, and neither lies below
      the other. */
  lemma DistinctHead(p: Path, q: Path)
    requires p != [] && q != [] && NamesDiffer(p[0], q[0])
    ensures p != q && !Under(p, q) && !Under(q, p)
  {
  }

  /** The directories os.makedirs(p) needs: p and each of its ancestors. */
  function Prefixes(p: Path): set<Path>
  {
    set i | 1 <= i <= |p| :: p[..i]
  }

  /** A single entry has only itself to create. */
  lemma PrefixesOfEntry(p: Path)
    requires |p| == 1
    ensures Prefixes(p) == {p}
  {
    assert p[..1] == p;
  }

  /** A well-formed tree: no path is both a file and a directory, the root
      itself is neither, and every entry's parent directory exists. */
  ghost predicate Valid(t: Tree)
  {
    && t.files.Keys !! t.dirs
    && [] !in t.files && [] !in t.dirs
    && (forall p {:trigger Parent(p)} :: p in t.files && |p| > 1 ==> Parent(p) in t.dirs)
    && (forall p {:trigger Parent(p)} :: p in t.dirs && |p| > 1 ==> Parent(p) in t.dirs)
  }

  /** The directory holding `p`. */
  function Parent(p: Path): Path
    requires p != []
  {
    p[..|p| - 1]
  }

  /** open(p, 'r') followed by json.load. */
  function ReadJson(t: Tree, p: Path): (r: Result<Json>)
    ensures r.Ok? <==> p in t.files && t.files[p].JsonDoc?
    ensures r.Ok? ==> t.files[p] == JsonDoc(r.value)
    ensures p !in t.files && p !in t.dirs ==> r == Err(FileNotFound(p))
  {
    if p in t.files then
      match t.files[p]
      case JsonDoc(v) => Ok(v)
      case Text(_) => Err(NotJson(p))
    else if p in t.dirs then Err(IsADirectory(p))
    else Err(FileNotFound(p))
  }

  /** open(p, 'w') followed by a write of `c`: the parent directory must exist
      and `p` must not be a directory. */
  function WriteFile(t: Tree, p: Path, c: Content): (r: Result<Tree>)
    requires p != []
    ensures r.Ok? <==> p !in t.dirs && (|p| == 1 || p[..|p| - 1] in t.dirs)
    ensures r.Ok? ==> r.value == Tree(t.files[p := c], t.dirs)
  {
    if p in t.dirs then Err(IsADirectory(p))
    else if |p| > 1 && p[..|p| - 1] !in t.dirs then
      if p[..|p| - 1] in t.files then Err(NotADirectory(p)) else Err(FileNotFound(p))
    else Ok(Tree(t.files[p := c], t.dirs))
  }

  /** os.makedirs(p) without exist_ok: an existing `p` raises, and so does a
      file standing where one of its ancestors should be. */
  function MakeDirs(t: Tree, p: Path): (r: Result<Tree>)
    requires p != []
    ensures r.Ok? ==> r.value == Tree(t.files, t.dirs + Prefixes(p))
    ensures p in t.dirs ==> r == Err(FileExists(p))
  {
    if p in t.dirs || p in t.files then Err(FileExists(p))
    else if exists i :: 1 <= i < |p| && p[..i] in t.files then Err(NotADirectory(p))
    else Ok(Tree(t.files, t.dirs + Prefixes(p)))
  }

  /** os.makedirs(p) succeeds exactly when `p` is new and no file stands
      where `p` or one of its ancestors should be. */
  lemma MakeDirsSucceeds(t: Tree, p: Path)
    requires p != []
    ensures MakeDirs(t, p).Ok? <==> p !in t.dirs && p !in t.files && forall i :: 1 <= i < |p| ==> p[..i] !in t.files
  {
  }

  /** A write keeps the tree well formed. */
  lemma WriteFileValid(t: Tree, p: Path, c: Content)
    requires Valid(t) && p != [] && WriteFile(t, p, c).Ok?
    ensures Valid(WriteFile(t, p, c).value)
  {
  }

  /** os.makedirs keeps the tree well formed. */
  lemma MakeDirsValid(t: Tree, p: Path)
    requires Valid(t) && p != [] && MakeDirs(t, p).Ok?
    ensures Valid(MakeDirs(t, p).value)
  {
    var after := MakeDirs(t, p).value;
    forall q | q in Prefixes(p)
      ensures q != [] && q !in t.files && (|q| > 1 ==> Parent(q) in after.dirs)
    {
      var i :| 1 <= i <= |p| && q == p[..i];
      if i == |p| {
        assert q == p;
      }
      if |q| > 1 {
        assert q[..|q| - 1] == p[..i - 1];
      }
    }
  }

  /** shutil.rmtree(p): `p` must be a directory; it goes, with everything below it. */
  function RemoveTree(t: Tree, p: Path): (r: Result<Tree>)
    ensures r.Ok? <==> p in t.dirs
    ensures r.Ok? ==> r.value.dirs == set q | q in t.dirs && !Under(q, p)
  {
    if p !in t.dirs then
      if p in t.files then Err(NotADirectory(p)) else Err(FileNotFound(p))
    else
      Ok(Tree(map q | q in t.files && !Under(q, p) :: t.files[q],
              set q | q in t.dirs && !Under(q, p)))
  }

  /** shutil.rmtree(p) removes exactly the files under `p` and keeps every other one. */
  lemma RemoveTreeFiles(t: Tree, p: Path)
    requires RemoveTree(t, p).Ok?
    ensures forall q :: At(RemoveTree(t, p).value, q) == if Under(q, p) then None else At(t, q)
  {
  }

  /** An entry whose parent lies under `root` lies under `root` itself. */
  lemma UnderParent(q: Path, root: Path)
    requires |q| > 1 && Under(q[..|q| - 1], root)
    ensures Under(q, root)
  {
    assert q[..|q| - 1][..|root|] == q[..|root|];
  }

  /** shutil.rmtree keeps the tree well formed. */
  lemma RemoveTreeValid(t: Tree, p: Path)
    requires Valid(t) && RemoveTree(t, p).Ok?
    ensures Valid(RemoveTree(t, p).value)
  {
    var after := RemoveTree(t, p).value;
    forall q | (q in after.files || q in after.dirs) && |q| > 1
      ensures Parent(q) in after.dirs
    {
      assert At(after, q) == At(t, q) || q in after.dirs;
      assert Parent(q) in t.dirs;
      if Under(Parent(q), p) {
        UnderParent(q, p);
      }
    }
  }
}
