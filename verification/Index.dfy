/** The lookup indexes rebuilt on every save: entries by path, and rows by
    parent folder with folders synthesised where only descendants exist. */
module Indexes {
  import opened Prelude
  import opened Paths
  import opened Entries

  type PathIndex = map<string, File>
  type ChildIndex = map<string, map<string, File>>

  /** A folder nobody stored: no id, dated by its newest descendant. */
  function Synthesised(path: string, mtime: int): File {
    File("", 0, path, true, true, None, false, 0, mtime, 0, "", "", "", None, "", [], [], "", "", "", false, NO_DETAILS)
  }

  /** The part before the last slash, "" at the top. */
  function DirName(p: string): string {
    var k := LastSlash(p);
    if k < 0 then "" else p[..k]
  }

  // ------------------------------------------------- the naive scan, by recursion

  /** The present entry stored at p; the last one when a tree has several. */
  function Explicit(files: seq<File>, p: string): (r: Option<File>)
    ensures r.Some? ==> r.value in files && r.value.present && r.value.path == p
    ensures r.None? <==> forall f :: f in files && f.present ==> f.path != p
  {
    if files == [] then None else
    var f := files[|files| - 1];
    assert files == files[..|files| - 1] + [f];
    if f.present && f.path == p then Some(f) else Explicit(files[..|files| - 1], p)
  }

  /** The latest mtime among the present entries below p. */
  function NewestBelow(files: seq<File>, p: string): (r: Option<int>)
    ensures r.None? <==> forall f :: f in files && f.present ==> !Below(f.path, p)
    ensures r.Some? ==> exists f :: f in files && f.present && Below(f.path, p) && f.mtime == r.value
    ensures r.Some? ==> forall f :: f in files && f.present && Below(f.path, p) ==> f.mtime <= r.value
  {
    if files == [] then None else
    var f, rest := files[|files| - 1], NewestBelow(files[..|files| - 1], p);
    assert files == files[..|files| - 1] + [f];
    if f.present && Below(f.path, p) then
      Some(if rest.Some? && rest.value > f.mtime then rest.value else f.mtime)
    else rest
  }

  /** What a listing shows at p: the stored entry, else a synthesised folder
      exactly where a present descendant exists. */
  function RowAt(files: seq<File>, p: string): Option<File> {
    if p != "" && Explicit(files, p).Some? then Explicit(files, p)
    else match NewestBelow(files, p)
      case Some(t) => Some(Synthesised(p, t))
      case None => None
  }

  predicate IsFolderNaive(files: seq<File>, p: string) {
    match Explicit(files, p)
    case Some(f) => f.folder
    case None => NewestBelow(files, p).Some?
  }

  function Lookup(children: ChildIndex, parent: string, p: string): Option<File> {
    if parent in children && p in children[parent] then Some(children[parent][p]) else None
  }

  ghost predicate PathsAgree(files: seq<File>, byPath: PathIndex) {
    forall p :: (if p in byPath then Some(byPath[p]) else None) == Explicit(files, p)
  }

  ghost predicate ChildrenAgree(files: seq<File>, children: ChildIndex) {
    forall parent, p :: Lookup(children, parent, p) == if DirName(p) == parent then RowAt(files, p) else None
  }

  /** indexPaths */
  method IndexPaths(files: seq<File>) returns (byPath: PathIndex)
    ensures PathsAgree(files, byPath)
  {
    byPath := map[];
    for i := 0 to |files|
      invariant PathsAgree(files[..i], byPath)
    {
      assert files[..i + 1][..i] == files[..i];
      if files[i].present {
        byPath := byPath[files[i].path := files[i]];
      }
    }
    assert files[..|files|] == files;
  }

  /** The closure `put` of indexChildren. */
  method Put(sets: ChildIndex, parent: string, file: File, actual: bool) returns (result: ChildIndex)
    ensures var prior := Lookup(sets, parent, file.path);
            var row := if actual || prior.None? then file
                       else if prior.value.id != "" then prior.value
                       else if prior.value.mtime > file.mtime then file.(mtime := prior.value.mtime)
                       else file;
            forall q, p :: Lookup(result, q, p) ==
                           if q == parent && p == file.path then Some(row) else Lookup(sets, q, p)
  {
    var siblings := if parent in sets then sets[parent] else map[];
    var row := file;
    if file.path in siblings {
      var prior := siblings[file.path];
      if prior.id != "" && !actual {
        return sets;
      }
      if prior.id == "" && !actual {
        if prior.mtime > file.mtime {
          row := row.(mtime := prior.mtime);
        }
      }
    }
    result := sets[parent := siblings[file.path := row]];
  }

  /** Rows once the first `done` characters of f's path have been scanned. */
  ghost predicate PartlyIndexed(before: seq<File>, f: File, done: int, children: ChildIndex) {
    forall parent, p ::
      Lookup(children, parent, p) ==
      if DirName(p) != parent then None
      else if Below(f.path, p) && |p| < done then RowAt(before + [f], p)
      else RowAt(before, p)
  }

  /** The three cases of `put`, read off the scan. */
  lemma RowAtSnoc(before: seq<File>, f: File, p: string)
    requires f.present && forall g :: g in before ==> g.id != ""
    ensures var row := RowAt(before, p);
            && (row.Some? && row.value.id == "" ==> row.value == Synthesised(p, row.value.mtime))
            && (Below(f.path, p) ==>
                  RowAt(before + [f], p) ==
                    if row.Some? && (row.value.id != "" || row.value.mtime > f.mtime) then row
                    else Some(Synthesised(p, f.mtime)))
            && (p == f.path != "" ==> RowAt(before + [f], p) == Some(f))
            && (!AtOrBelow(f.path, p) ==> RowAt(before + [f], p) == row)
  {
    assert (before + [f])[..|before|] == before;
    if Below(f.path, p) {
      BelowIsLonger(f.path, p);
    }
  }

  /** The parent a scan has reached is the directory of the name it forms. */
  lemma ScanParent(path: string, parent: string, k: int)
    requires 0 <= k <= |path| && |parent| <= k && path[..|parent|] == parent
    requires |parent| > 0 && |parent| < k ==> path[|parent|] == '/'
    requires parent == "" ==> LastSlash(path[..k]) <= 0
    requires forall j :: |parent| < j < k ==> path[j] != '/'
    requires |parent| < k || parent == ""
    ensures DirName(path[..k]) == parent
  {
    var name := path[..k];
    assert forall j :: 0 <= j < k ==> name[j] == path[j];
  }

  method IndexOne(sets: ChildIndex, ghost before: seq<File>, file: File) returns (children: ChildIndex)
    requires file.present && file.path != ""
    requires forall f :: f in before ==> f.id != ""
    requires ChildrenAgree(before, sets)
    ensures ChildrenAgree(before + [file], children)
  {
    hide RowAt, Explicit, NewestBelow, Lookup, DirName;
    children := sets;
    var path := file.path;
    var parent := "";
    var k := 0;
    while k < |path|
      invariant 0 <= k <= |path| && |parent| <= k && path[..|parent|] == parent
      invariant |parent| > 0 ==> |parent| < k && path[|parent|] == '/'
      invariant parent == "" ==> forall j :: 0 < j < k ==> path[j] != '/'
      invariant forall j :: |parent| < j < k ==> path[j] != '/'
      invariant PartlyIndexed(before, file, k, children)
    {
      if path[k] == '/' {
        var name := path[..k];
        assert Below(path, name) by {
          assert path[..k + 1] == name + "/";
        }
        ScanParent(path, parent, k);
        RowAtSnoc(before, file, name);
        children := Put(children, parent, Synthesised(name, file.mtime), false);
        OnlyNewName(path, k);
        parent := name;
      } else {
        NoNewName(path, k);
      }
      k := k + 1;
    }
    assert path[..k] == path;
    ScanParent(path, parent, k);
    forall p ensures RowAt(before + [file], p) ==
                     if p == path then Some(file)
                     else if Below(path, p) then RowAt(before + [file], p) else RowAt(before, p)
    {
      RowAtSnoc(before, file, p);
    }
    children := Put(children, parent, file, true);
  }

  lemma OnlyNewName(path: string, k: int)
    requires 0 <= k < |path|
    ensures forall p :: Below(path, p) && |p| == k ==> p == path[..k]
  {
    forall p | Below(path, p) && |p| == k ensures p == path[..k] {
      assert path[..k + 1] == p + "/";
      assert path[..k] == path[..k + 1][..k];
    }
  }

  lemma NoNewName(path: string, k: int)
    requires 0 <= k < |path| && path[k] != '/'
    ensures forall p :: Below(path, p) ==> |p| != k
  {
    forall p | Below(path, p) ensures |p| != k {
      assert path[|p|] == (p + "/")[|p|];
    }
  }

  /** indexChildren: both the stored and the synthesised rows agree with the scan. */
  method IndexChildren(files: seq<File>) returns (children: ChildIndex)
    requires forall f :: f in files ==> f.id != ""
    ensures ChildrenAgree(files, children)
  {
    children := map[];
    for i := 0 to |files|
      invariant ChildrenAgree(files[..i], children)
    {
      assert files[..i + 1] == files[..i] + [files[i]];
      if files[i].present && files[i].path != "" {
        children := IndexOne(children, files[..i], files[i]);
      } else {
        SkippedFile(files[..i], files[i]);
      }
    }
    assert files[..|files|] == files;
  }

  lemma SkippedFile(before: seq<File>, f: File)
    requires !f.present || f.path == ""
    ensures forall p :: RowAt(before + [f], p) == RowAt(before, p)
  {
    assert (before + [f])[..|before|] == before;
  }

  /** Catalog.IsFolder answers what a scan of the tree answers. */
  method IsFolder(files: seq<File>, byPath: PathIndex, children: ChildIndex, name: string) returns (folder: bool)
    requires PathsAgree(files, byPath) && ChildrenAgree(files, children)
    ensures folder <==> IsFolderNaive(files, name)
  {
    if name in byPath {
      assert Explicit(files, name) == Some(byPath[name]);
      return byPath[name].folder;
    }
    assert Explicit(files, name) == None;
    var parent := DirName(name);
    assert Lookup(children, parent, name) == RowAt(files, name);
    if parent in children && name in children[parent] {
      return children[parent][name].folder;
    }
    return false;
  }

  /** A listing is exact: an entry is a row of its own directory only, stored
      entries win, and a synthesised folder is as new as its newest descendant. */
  lemma RowsMeanTheTree(files: seq<File>, children: ChildIndex, parent: string, p: string)
    requires ChildrenAgree(files, children) && p != ""
    ensures Lookup(children, parent, p).Some? <==>
            DirName(p) == parent && exists f :: f in files && f.present && AtOrBelow(f.path, p)
    ensures forall f :: f in files && f.present && f.path == p && UniquePaths(files) ==>
              Lookup(children, DirName(p), p) == Some(f)
    ensures DirName(p) == parent && (forall f :: f in files && f.present ==> f.path != p) ==>
              forall f :: f in files && f.present && Below(f.path, p) ==>
                var row := Lookup(children, parent, p);
                row.Some? && row.value.folder && row.value.id == "" && f.mtime <= row.value.mtime
                && exists g :: g in files && g.present && Below(g.path, p) && g.mtime == row.value.mtime
  {
    assert Lookup(children, DirName(p), p) == RowAt(files, p);
    if UniquePaths(files) {
      forall f | f in files && f.present && f.path == p ensures Explicit(files, p) == Some(f) {
        var g := Explicit(files, p).value;
        var i :| 0 <= i < |files| && files[i] == f;
        var j :| 0 <= j < |files| && files[j] == g;
        assert i <= j && j <= i;
      }
    }
  }
}
