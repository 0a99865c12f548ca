/**
  The artifact bundle an agent proposes: which paths are accepted, and why a bundle that is
  accepted loses nothing when it is packed by path.
 */
module RoomFiles {
  import opened Options

  datatype File = File(path: string, content: string)

  const EXTENSIONS := {".md", ".txt", ".json", ".html", ".css", ".js", ".jsx", ".ts", ".tsx", ".py", ".sql", ".svg", ".yaml", ".yml"}
  const MAX_BUNDLE := 600000

  predicate Word(c: char) {
    'a' <= c <= 'z' || 'A' <= c <= 'Z' || '0' <= c <= '9' || c == '_'
  }

  predicate PathChar(c: char) {
    Word(c) || c == '.' || c == '/' || c == '-'
  }

  function Lower(c: char): char {
    if 'A' <= c <= 'Z' then c - 'A' + 'a' else c
  }

  /** As `toLowerCase` does on the characters a path may have. */
  function LowerCase(s: string): (r: string)
    ensures |r| == |s| && forall i :: 0 <= i < |s| ==> r[i] == Lower(s[i])
  {
    if s == "" then "" else LowerCase(s[..|s| - 1]) + [Lower(s[|s| - 1])]
  }

  /** As `split("/")`: the parts between slashes, one more than there are slashes. */
  function Split(s: string): (parts: seq<string>)
    ensures parts != []
    decreases |s|
  {
    if s == "" then [""]
    else
      var init, last := Split(s[..|s| - 1]), s[|s| - 1];
      if last == '/' then init + [""] else init[..|init| - 1] + [init[|init| - 1] + [last]]
  }

  function Join(parts: seq<string>): string
    requires parts != []
    decreases |parts|
  {
    if |parts| == 1 then parts[0] else Join(parts[..|parts| - 1]) + "/" + parts[|parts| - 1]
  }

  const DEVICES := {"con", "prn", "aux", "nul"}

  /** A name Windows reserves for a device, alone or before a dot, in any case. */
  predicate Device(part: string) {
    var dot := First(part, (c: char) => c == '.');
    var stem := LowerCase(part[..dot]);
    stem in DEVICES || (|stem| == 4 && (stem[..3] == "com" || stem[..3] == "lpt") && '0' <= stem[3] <= '9')
  }

  predicate SafePart(part: string) {
    part != "" && part[0] != '.' && !Device(part)
  }

  /** The text from the last dot of a name, unless that dot opens it. */
  function NameExtension(name: string): string {
    var dot := AfterLast(name, (c: char) => c == '.');
    if dot <= 1 then "" else name[dot - 1..]
  }

  function Extension(path: string): string {
    var parts := Split(path);
    NameExtension(parts[|parts| - 1])
  }

  predicate SafePath(path: string) {
    && path != "" && Word(path[0]) && (forall c :: c in path ==> PathChar(c))
    && (forall part :: part in Split(path) ==> SafePart(part))
    && Extension(path) in EXTENSIONS
  }

  /** A content is its UTF-8 bytes, one character each. */
  function Size(files: seq<File>): nat {
    if files == [] then 0 else Size(files[..|files| - 1]) + |files[|files| - 1].content|
  }

  predicate DistinctPaths(files: seq<File>) {
    forall i, j :: 0 <= i < j < |files| ==> LowerCase(files[i].path) != LowerCase(files[j].path)
  }

  predicate Valid(files: seq<File>) {
    (forall file :: file in files ==> SafePath(file.path)) && DistinctPaths(files) && Size(files) <= MAX_BUNDLE
  }

  /** The loop over a growing set of paths seen. */
  method ValidateFiles(files: seq<File>) returns (ok: bool)
    ensures ok <==> Valid(files)
  {
    hide SafePath, LowerCase;
    var seen := {};
    for i := 0 to |files|
      invariant seen == set k | 0 <= k < i :: LowerCase(files[k].path)
      invariant forall k :: 0 <= k < i ==> SafePath(files[k].path)
      invariant DistinctPaths(files[..i])
    {
      var path := files[i].path;
      assert files[i] in files;
      if !SafePath(path) {
        return false;
      }
      if LowerCase(path) in seen {
        var k :| 0 <= k < i && LowerCase(files[k].path) == LowerCase(path);
        return false;
      }
      assert forall k :: 0 <= k < i ==> LowerCase(files[k].path) in seen;
      seen := seen + {LowerCase(path)};
    }
    assert files[..|files|] == files;
    ok := Size(files) <= MAX_BUNDLE;
  }

  lemma {:induction false} JoinSplit(s: string)
    ensures Join(Split(s)) == s
    decreases |s|
  {
    if s != "" {
      var init, last := Split(s[..|s| - 1]), s[|s| - 1];
      JoinSplit(s[..|s| - 1]);
      var parts := Split(s);
      assert s == s[..|s| - 1] + [last];
      if last == '/' {
        assert parts[..|parts| - 1] == init;
      } else if |init| > 1 {
        assert parts[..|parts| - 1] == init[..|init| - 1];
      }
    }
  }

  lemma {:induction false} PartsHaveNoSlash(s: string)
    ensures forall part :: part in Split(s) ==> '/' !in part
    decreases |s|
  {
    if s != "" {
      var init := Split(s[..|s| - 1]);
      PartsHaveNoSlash(s[..|s| - 1]);
      assert init[|init| - 1] in init;
      assert forall part :: part in init[..|init| - 1] ==> part in init;
    }
  }

  /** Where a path leads inside a directory: each part one level down, ".." one level up. */
  function Resolve(parts: seq<string>, depth: int): int {
    if parts == [] then depth
    else
      var before := Resolve(parts[..|parts| - 1], depth);
      var last := parts[|parts| - 1];
      if last == ".." then before - 1 else if last == "." || last == "" then before else before + 1
  }

  lemma {:induction false} SafePartsDescend(parts: seq<string>, depth: int)
    requires forall part :: part in parts ==> part != "" && part[0] != '.'
    ensures Resolve(parts, depth) == depth + |parts|
  {
    if parts != [] {
      var init, last := parts[..|parts| - 1], parts[|parts| - 1];
      assert parts == init + [last];
      assert forall part :: part in init ==> part in parts;
      assert last in parts;
      SafePartsDescend(parts[..|parts| - 1], depth);
    }
  }

  /**
    An accepted path is relative, goes down at every part and never up, so a file written at
    it stays below the directory it is published to.
   */
  lemma {:induction false} SafePathStaysInside(path: string, k: nat)
    requires SafePath(path) && 0 < k <= |Split(path)|
    ensures path[0] != '/' && Join(Split(path)) == path
    ensures Resolve(Split(path)[..k], 0) == k
  {
    JoinSplit(path);
    var parts := Split(path);
    hide Device, Extension, Join, Split, Resolve;
    assert forall part :: part in parts[..k] ==> part in parts;
    SafePartsDescend(parts[..k], 0);
  }

  /** Packing by path: a later file of the same path would replace an earlier one. */
  function Packed(files: seq<File>): map<string, string> {
    if files == [] then map[]
    else Packed(files[..|files| - 1])[files[|files| - 1].path := files[|files| - 1].content]
  }

  lemma LastPathIsNew(files: seq<File>)
    requires DistinctPaths(files) && files != []
    ensures DistinctPaths(files[..|files| - 1])
    ensures forall file :: file in files[..|files| - 1] ==> file.path != files[|files| - 1].path
  {
    var init, last := files[..|files| - 1], files[|files| - 1];
    forall file | file in init ensures file.path != last.path {
      var k :| 0 <= k < |init| && init[k] == file;
      assert LowerCase(files[k].path) != LowerCase(files[|files| - 1].path);
    }
  }

  function Paths(files: seq<File>): set<string> {
    set file | file in files :: file.path
  }

  lemma {:induction false} PackedHolds(files: seq<File>)
    requires DistinctPaths(files)
    ensures Packed(files).Keys == Paths(files)
    ensures |Packed(files)| == |files|
    ensures forall file :: file in files ==> file.path in Packed(files) && Packed(files)[file.path] == file.content
  {
    if files != [] {
      var init, last := files[..|files| - 1], files[|files| - 1];
      LastPathIsNew(files);
      PackedHolds(init);
      PathsGrow(files);
      assert Packed(files) == Packed(init)[last.path := last.content];
      hide DistinctPaths, Packed, Paths;
      assert last.path !in Packed(init);
      forall file | file in files ensures file.path in Packed(files) && Packed(files)[file.path] == file.content {
        assert file == last || file in init;
      }
    }
  }

  lemma PathsGrow(files: seq<File>)
    requires files != []
    ensures Paths(files) == Paths(files[..|files| - 1]) + {files[|files| - 1].path}
    ensures files[|files| - 1].path in Paths(files[..|files| - 1]) ==>
              exists file :: file in files[..|files| - 1] && file.path == files[|files| - 1].path
  {
    assert files == files[..|files| - 1] + [files[|files| - 1]];
  }

  /** An accepted bundle is packed without loss: as many entries as files, each its own. */
  lemma {:induction false} PackingIsLossless(files: seq<File>)
    requires Valid(files)
    ensures |Packed(files)| == |files|
    ensures forall path :: path in Packed(files) <==> exists file :: file in files && file.path == path
    ensures forall file :: file in files ==> file.path in Packed(files) && Packed(files)[file.path] == file.content
  {
    PackedHolds(files);
  }

  /** Two paths that differ only in case are one file on some systems, and are refused. */
  lemma CaseTwinsAreRefused(a: File, b: File)
    requires LowerCase(a.path) == LowerCase(b.path)
    ensures !Valid([a, b])
  {
    var files := [a, b];
    assert LowerCase(files[0].path) == LowerCase(files[1].path);
  }
}
