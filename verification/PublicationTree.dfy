/**
  The directory a bundle is published to: a tree that starts empty and takes one file after
  the other, each in directories made for it. Names are compared letter by letter.
 */
module PublicationTree {
  import opened Options
  import opened RoomFiles

  /** Directories and files by the parts of their paths; [] is the directory itself. */
  datatype Tree = Tree(dirs: set<seq<string>>, files: map<seq<string>, string>)

  const EMPTY_TREE := Tree({[]}, map[])

  /** As `mkdir` does recursively: from the top down, and not where a file is in the way. */
  function MakeDirs(t: Tree, parts: seq<string>): Option<Tree>
    decreases |parts|
  {
    if parts == [] then Some(t)
    else
      match MakeDirs(t, parts[..|parts| - 1])
      case None => None
      case Some(made) => if parts in made.files then None else Some(made.(dirs := made.dirs + {parts}))
  }

  /** As `writeFile` does exclusively: into a directory that is there, under a name that is not taken. */
  function WriteNew(t: Tree, parts: seq<string>, content: string): Option<Tree> {
    if parts == [] || parts in t.dirs || parts in t.files || parts[..|parts| - 1] !in t.dirs then None
    else Some(t.(files := t.files[parts := content]))
  }

  function Place(t: Tree, file: File): Option<Tree> {
    var parts := Split(file.path);
    match MakeDirs(t, parts[..|parts| - 1])
    case None => None
    case Some(made) => WriteNew(made, parts, file.content)
  }

  /** The whole bundle, or None where one of its writes throws. */
  function PlaceAll(files: seq<File>): Option<Tree> {
    if files == [] then Some(EMPTY_TREE)
    else
      match PlaceAll(files[..|files| - 1])
      case None => None
      case Some(t) => Place(t, files[|files| - 1])
  }

  predicate Lands(files: seq<File>) {
    PlaceAll(files).Some?
  }

  /** What is on disk once the bundle has landed. */
  function Landed(files: seq<File>): Tree {
    match PlaceAll(files) case Some(t) => t case None => EMPTY_TREE
  }

  method LayOut(files: seq<File>) returns (tree: Option<Tree>)
    ensures tree == PlaceAll(files)
  {
    hide Place;
    var t := EMPTY_TREE;
    for i := 0 to |files|
      invariant PlaceAll(files[..i]) == Some(t)
    {
      assert files[..i + 1][..i] == files[..i];
      var next := Place(t, files[i]);
      if next == None {
        RefusalStays(files, i + 1);
        return None;
      }
      t := next.value;
    }
    assert files[..|files|] == files;
    tree := Some(t);
  }

  lemma {:induction false} RefusalStays(files: seq<File>, n: nat)
    requires n <= |files| && PlaceAll(files[..n]) == None
    ensures PlaceAll(files) == None
    decreases |files|
  {
    hide Place;
    if n < |files| {
      assert files[..|files| - 1][..n] == files[..n];
      RefusalStays(files[..|files| - 1], n);
    } else {
      assert files[..n] == files;
    }
  }

  // ------------------------------------------------------------------ which bundles land

  /** One path goes on where the other one ends. */
  predicate Inside(outer: seq<string>, inner: seq<string>) {
    |outer| < |inner| && inner[..|outer|] == outer
  }

  predicate NoneInside(files: seq<File>) {
    forall i, j :: 0 <= i < |files| && 0 <= j < |files| ==> !Inside(Split(files[i].path), Split(files[j].path))
  }

  /** The file at `path` keeps out of the way of all of `files`. */
  ghost predicate ClearOf(path: seq<string>, files: seq<File>) {
    forall file :: file in files ==> Split(file.path) != path && !Inside(Split(file.path), path) && !Inside(path, Split(file.path))
  }

  /** On disk are the files and the directories that lead to them, and nothing else. */
  ghost predicate Holds(t: Tree, files: seq<File>) {
    && (forall file :: file in files ==> Split(file.path) in t.files && t.files[Split(file.path)] == file.content)
    && (forall path :: path in t.files ==> exists file :: file in files && Split(file.path) == path)
    && (forall path :: path in t.dirs <==> path == [] || LeadsTo(path, files))
  }

  ghost predicate LeadsTo(path: seq<string>, files: seq<File>) {
    exists file :: file in files && Inside(path, Split(file.path))
  }

  lemma {:induction false} MakeDirsIff(t: Tree, parts: seq<string>)
    ensures MakeDirs(t, parts).Some? <==> forall k :: 0 < k <= |parts| ==> parts[..k] !in t.files
    ensures MakeDirs(t, parts).Some? ==> MakeDirs(t, parts).value.files == t.files
    ensures MakeDirs(t, parts).Some? ==>
              forall path :: path in MakeDirs(t, parts).value.dirs <==> path in t.dirs || (0 < |path| <= |parts| && parts[..|path|] == path)
    decreases |parts|
  {
    if parts != [] {
      var init := parts[..|parts| - 1];
      MakeDirsIff(t, init);
      assert forall k :: 0 < k <= |init| ==> init[..k] == parts[..k];
      assert parts[..|parts|] == parts;
      if MakeDirs(t, init).Some? && parts !in t.files {
        forall path
          ensures path in MakeDirs(t, parts).value.dirs <==> path in t.dirs || (0 < |path| <= |parts| && parts[..|path|] == path)
        {
          if |path| <= |init| {
            assert init[..|path|] == parts[..|path|];
          }
        }
      }
    }
  }

  lemma {:induction false} PlaceUnfolds(t: Tree, file: File)
    requires [] in t.dirs
    ensures var path := Split(file.path);
            Place(t, file).Some? <==>
              && (forall k :: 0 < k < |path| ==> path[..k] !in t.files)
              && path !in t.files && path !in t.dirs
    ensures var path := Split(file.path);
            Place(t, file).Some? ==>
              && Place(t, file).value.files == t.files[path := file.content]
              && forall d :: d in Place(t, file).value.dirs <==> d in t.dirs || (0 < |d| < |path| && path[..|d|] == d)
  {
    var path := Split(file.path);
    var parent := path[..|path| - 1];
    MakeDirsIff(t, parent);
    assert forall k :: 0 < k <= |parent| ==> parent[..k] == path[..k];
    hide MakeDirs, Split;
    if MakeDirs(t, parent).Some? {
      var made := MakeDirs(t, parent).value;
      assert parent == [] || parent[..|parent|] == parent;
      assert parent in made.dirs;
      assert path in made.dirs <==> path in t.dirs;
    }
  }

  /** The next file lands exactly if it is clear of those before it. */
  lemma {:induction false} PlaceIff(t: Tree, files: seq<File>, file: File)
    requires Holds(t, files)
    ensures Place(t, file).Some? <==> ClearOf(Split(file.path), files)
    ensures Place(t, file).Some? ==> Holds(Place(t, file).value, files + [file])
  {
    var path := Split(file.path);
    PlaceUnfolds(t, file);
    hide Place, Split;
    FreeIff(t, files, path);
    if Place(t, file).Some? {
      PlacedHolds(t, files, file, Place(t, file).value);
    }
  }

  lemma {:induction false} FreeIff(t: Tree, files: seq<File>, path: seq<string>)
    requires Holds(t, files) && path != []
    ensures (forall k :: 0 < k < |path| ==> path[..k] !in t.files) && path !in t.files && path !in t.dirs <==> ClearOf(path, files)
  {
    hide Split;
    if ClearOf(path, files) {
      forall k | 0 < k < |path| ensures path[..k] !in t.files {}
    } else {
      var file :| file in files && (Split(file.path) == path || Inside(Split(file.path), path) || Inside(path, Split(file.path)));
      var other := Split(file.path);
      if Inside(other, path) {
        assert path[..|other|] == other && 0 < |other| < |path|;
      } else if Inside(path, other) {
        assert LeadsTo(path, files);
      }
    }
  }

  lemma {:induction false} PlacedHolds(t: Tree, files: seq<File>, file: File, after: Tree)
    requires Holds(t, files) && ClearOf(Split(file.path), files)
    requires after.files == t.files[Split(file.path) := file.content]
    requires forall d :: d in after.dirs <==> d in t.dirs || (0 < |d| < |Split(file.path)| && Split(file.path)[..|d|] == d)
    ensures Holds(after, files + [file])
  {
    hide Split;
    var path, all := Split(file.path), files + [file];
    assert file in all && forall f :: f in files ==> f in all;
    forall d ensures d in after.dirs <==> d == [] || LeadsTo(d, all) {
      if LeadsTo(d, all) {
        var f :| f in all && Inside(d, Split(f.path));
        if f in files {
          assert LeadsTo(d, files);
        }
      }
      if LeadsTo(d, files) {
        var f :| f in files && Inside(d, Split(f.path));
        assert f in all;
      }
      if 0 < |d| < |path| && path[..|d|] == d {
        assert Inside(d, Split(file.path));
      }
    }
  }

  lemma SamePathSameParts(a: File, b: File)
    ensures Split(a.path) == Split(b.path) ==> a.path == b.path
  {
    JoinSplit(a.path);
    JoinSplit(b.path);
    hide Split, Join;
  }

  lemma {:induction false} NoneInsideIsClear(files: seq<File>)
    requires files != [] && DistinctPaths(files) && NoneInside(files)
    ensures NoneInside(files[..|files| - 1]) && ClearOf(Split(files[|files| - 1].path), files[..|files| - 1])
  {
    var init, last := files[..|files| - 1], files[|files| - 1];
    LastPathIsNew(files);
    hide Split, DistinctPaths, Inside;
    forall file | file in init
      ensures Split(file.path) != Split(last.path) && !Inside(Split(file.path), Split(last.path)) && !Inside(Split(last.path), Split(file.path))
    {
      SamePathSameParts(file, last);
      var k :| 0 <= k < |init| && init[k] == file;
      assert files[k] == file;
    }
    forall i, j | 0 <= i < |init| && 0 <= j < |init| ensures !Inside(Split(init[i].path), Split(init[j].path)) {
      assert init[i] == files[i] && init[j] == files[j];
    }
  }

  lemma NotInsideItself(path: seq<string>)
    ensures !Inside(path, path)
  {
  }

  lemma {:induction false} ClearIsNoneInside(files: seq<File>)
    requires files != [] && NoneInside(files[..|files| - 1]) && ClearOf(Split(files[|files| - 1].path), files[..|files| - 1])
    ensures NoneInside(files)
  {
    var init, last := files[..|files| - 1], files[|files| - 1];
    hide Split, Inside;
    NotInsideItself(Split(last.path));
    forall i, j | 0 <= i < |files| && 0 <= j < |files| ensures !Inside(Split(files[i].path), Split(files[j].path)) {
      if i < |init| && j < |init| {
        assert files[i] == init[i] && files[j] == init[j];
      } else if i < |init| {
        assert files[i] == init[i] && init[i] in init && files[j] == last;
      } else if j < |init| {
        assert files[j] == init[j] && init[j] in init && files[i] == last;
      }
    }
  }

  lemma {:induction false} ClearMeansNoneInside(files: seq<File>)
    requires files != [] && DistinctPaths(files)
    ensures NoneInside(files) <==> NoneInside(files[..|files| - 1]) && ClearOf(Split(files[|files| - 1].path), files[..|files| - 1])
  {
    hide *;
    if NoneInside(files) {
      NoneInsideIsClear(files);
    } else if NoneInside(files[..|files| - 1]) && ClearOf(Split(files[|files| - 1].path), files[..|files| - 1]) {
      ClearIsNoneInside(files);
    }
  }

  /**
    All writes of a bundle land, in whatever order its files come, exactly if none of its
    paths lies inside another; and then the directory holds the bundle and nothing else.
   */
  lemma {:induction false} LandsIff(files: seq<File>)
    requires DistinctPaths(files)
    ensures Lands(files) <==> NoneInside(files)
    ensures Lands(files) ==> Holds(Landed(files), files)
  {
    hide Place, Split, Inside, NoneInside, ClearOf, Holds;
    if files == [] {
      EmptyLands();
    } else {
      var init, last := files[..|files| - 1], files[|files| - 1];
      hide DistinctPaths;
      LastPathIsNew(files);
      LandsIff(init);
      ClearMeansNoneInside(files);
      assert files == init + [last];
      if Lands(init) {
        PlaceIff(Landed(init), init, last);
      }
    }
  }

  lemma EmptyLands()
    ensures NoneInside([]) && Holds(EMPTY_TREE, [])
  {
  }

  /** Where a download and the published directory both are, they show the same files. */
  lemma {:induction false} DiskIsDownload(files: seq<File>)
    requires Valid(files) && Lands(files)
    ensures forall file :: file in files ==>
              && file.path in Packed(files) && Split(file.path) in Landed(files).files
              && Landed(files).files[Split(file.path)] == Packed(files)[file.path]
    ensures forall path :: path in Landed(files).files ==> exists file :: file in files && Split(file.path) == path
  {
    LandsIff(files);
    PackedHolds(files);
    hide Valid, Split, Packed, Landed, Lands;
  }

  /** An accepted bundle that cannot land: one file's name is another one's directory. */
  const NESTED := [File("a.md", ""), File("a.md/b.md", "")]

  lemma {:induction false} SplitPlain(s: string)
    requires '/' !in s
    ensures Split(s) == [s]
    decreases |s|
  {
    if s != "" {
      SplitPlain(s[..|s| - 1]);
      assert s == s[..|s| - 1] + [s[|s| - 1]];
    }
  }

  lemma {:induction false} SplitAfterSlash(a: string, b: string)
    requires '/' !in b
    ensures Split(a + "/" + b) == Split(a) + [b]
    decreases |b|
  {
    var s := a + "/" + b;
    if b == "" {
      assert s[..|s| - 1] == a;
    } else {
      SplitAfterSlash(a, b[..|b| - 1]);
      assert s[..|s| - 1] == a + "/" + b[..|b| - 1];
      assert b == b[..|b| - 1] + [b[|b| - 1]];
    }
  }

  lemma {:induction false} PlainNameIsSafe(name: string)
    requires name == "a.md" || name == "b.md"
    ensures name != "" && Word(name[0]) && (forall c :: c in name ==> PathChar(c)) && '/' !in name && SafePart(name)
  {
    var dot := First(name, (c: char) => c == '.');
    assert name[1] == '.' && dot == 1;
    assert |LowerCase(name[..dot])| == 1;
    assert forall d :: d in DEVICES ==> |d| == 3;
  }

  lemma {:induction false} PlainExtension(path: string, name: string)
    requires name == "a.md" || name == "b.md"
    requires Split(path)[|Split(path)| - 1] == name
    ensures Extension(path) == ".md"
  {
    hide Split;
    var dot := AfterLast(name, (c: char) => c == '.');
    assert name[1] == '.' && name[2] != '.' && name[3] != '.' && dot == 2;
    assert name[1..] == ".md";
  }

  lemma {:induction false} OneInTheOther(a: string, b: string, path: string)
    requires '/' !in a && '/' !in b && path == a + "/" + b
    ensures Split(a) == [a] && Split(path) == [a, b]
  {
    SplitPlain(a);
    SplitAfterSlash(a, b);
    hide Split;
  }

  lemma {:induction false} SafeFromParts(path: string)
    requires path != "" && Word(path[0]) && (forall c :: c in path ==> PathChar(c))
    requires forall k :: 0 <= k < |Split(path)| ==> SafePart(Split(path)[k])
    requires Extension(path) == ".md"
    ensures SafePath(path)
  {
    hide Word, PathChar, SafePart, Extension, Split;
  }

  lemma {:induction false} PathCharsOf(a: string, b: string, path: string)
    requires path == a + "/" + b && a != "" && (forall c :: c in a ==> PathChar(c)) && (forall c :: c in b ==> PathChar(c))
    ensures path != "" && path[0] == a[0] && forall c :: c in path ==> PathChar(c)
  {
    SlashIsPathChar();
    hide PathChar;
  }

  lemma {:induction false} SafeInSafe(a: string, b: string, path: string)
    requires (a == "a.md" || a == "b.md") && (b == "a.md" || b == "b.md") && path == a + "/" + b
    ensures SafePath(a) && SafePath(path) && Split(a) == [a] && Split(path) == [a, b]
  {
    hide *;
    PlainNameIsSafe(a);
    PlainNameIsSafe(b);
    OneInTheOther(a, b, path);
    PlainExtension(a, a);
    PlainExtension(path, b);
    PathCharsOf(a, b, path);
    SafeFromParts(a);
    SafeFromParts(path);
  }

  lemma SlashIsPathChar()
    ensures PathChar('/')
  {
  }

  lemma {:induction false} NestedIsSmall()
    ensures Size(NESTED) == 0
  {
    assert NESTED[..1] == [NESTED[0]] && NESTED[..1][..0] == [];
    assert Size([]) == 0;
    assert Size([NESTED[0]]) == 0;
  }

  lemma {:induction false} NestedIsValid()
    ensures Valid(NESTED) && !Lands(NESTED)
  {
    hide SafePath, Split, Lands, LowerCase, Extension;
    SafeInSafe("a.md", "b.md", "a.md/b.md");
    NestedIsSmall();
    hide Size;
    assert |LowerCase(NESTED[0].path)| != |LowerCase(NESTED[1].path)|;
    LandsIff(NESTED);
    assert Inside(Split(NESTED[0].path), Split(NESTED[1].path));
  }
}
