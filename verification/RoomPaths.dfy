/**
  Which bundles are accepted, in terms of the characters, parts and sizes of their files.
 */
module RoomPaths {
  import opened Options
  import opened RoomFiles

  predicate Letter(c: char) {
    'a' <= c <= 'z' || 'A' <= c <= 'Z'
  }

  predicate Digit(c: char) {
    '0' <= c <= '9'
  }

  predicate SameLetter(a: char, b: char) {
    a == b || (Letter(a) && Letter(b) && (a as int - b as int == 32 || b as int - a as int == 32))
  }

  predicate SameName(a: string, b: string) {
    |a| == |b| && forall i :: 0 <= i < |a| ==> SameLetter(a[i], b[i])
  }

  /** One of the names that Windows keeps for devices, in any case. */
  ghost predicate DeviceName(name: string) {
    || SameName(name, "con") || SameName(name, "prn") || SameName(name, "aux") || SameName(name, "nul")
    || exists digit :: Digit(digit) && (SameName(name, "com" + [digit]) || SameName(name, "lpt" + [digit]))
  }

  /** The part names a device, with or without something after a dot. */
  ghost predicate NamesDevice(part: string) {
    exists n: nat :: n <= |part| && DeviceName(part[..n]) && '.' !in part[..n] && (n == |part| || part[n] == '.')
  }

  /** The name ends in one of the accepted extensions, and has something before it. */
  ghost predicate EndsAccepted(name: string) {
    exists extension :: extension in EXTENSIONS && |extension| < |name| && name[|name| - |extension|..] == extension
  }

  ghost predicate Acceptable(path: string) {
    && path != "" && (Letter(path[0]) || Digit(path[0]) || path[0] == '_')
    && (forall i :: 0 <= i < |path| ==> Letter(path[i]) || Digit(path[i]) || path[i] in "_./-")
    && (forall part :: part in Split(path) ==> part != "" && part[0] != '.' && !NamesDevice(part))
    && EndsAccepted(Split(path)[|Split(path)| - 1])
  }

  lemma LowerIff(a: char, b: char)
    requires !('A' <= b <= 'Z')
    ensures Lower(a) == b <==> SameLetter(a, b)
  {
  }

  lemma {:induction false} LowerCaseIff(a: string, b: string)
    requires forall i :: 0 <= i < |b| ==> !('A' <= b[i] <= 'Z')
    ensures LowerCase(a) == b <==> SameName(a, b)
  {
    hide SameLetter;
    if |a| == |b| {
      forall i | 0 <= i < |a| ensures LowerCase(a)[i] == b[i] <==> SameLetter(a[i], b[i]) {
        LowerIff(a[i], b[i]);
      }
    }
  }

  /** A lower-case stem that is a device's is the stem of a device's name. */
  lemma {:induction false} StemIff(name: string)
    ensures var stem := LowerCase(name);
            stem in DEVICES || (|stem| == 4 && (stem[..3] == "com" || stem[..3] == "lpt") && '0' <= stem[3] <= '9') <==> DeviceName(name)
  {
    var stem := LowerCase(name);
    LowerCaseIff(name, "con");
    LowerCaseIff(name, "prn");
    LowerCaseIff(name, "aux");
    LowerCaseIff(name, "nul");
    forall digit | Digit(digit)
      ensures LowerCase(name) == "com" + [digit] <==> SameName(name, "com" + [digit])
      ensures LowerCase(name) == "lpt" + [digit] <==> SameName(name, "lpt" + [digit])
    {
      LowerCaseIff(name, "com" + [digit]);
      LowerCaseIff(name, "lpt" + [digit]);
    }
    hide LowerCase, SameName;
    if |stem| == 4 {
      assert stem == stem[..3] + [stem[3]];
    }
    if digit :| Digit(digit) && (stem == "com" + [digit] || stem == "lpt" + [digit]) {
      assert stem[..3] == "com" || stem[..3] == "lpt";
    }
  }

  lemma {:induction false} DeviceIff(part: string)
    ensures Device(part) <==> NamesDevice(part)
  {
    var dot := First(part, (c: char) => c == '.');
    StemIff(part[..dot]);
    assert '.' !in part[..dot] && (dot == |part| || part[dot] == '.');
    hide LowerCase, DeviceName;
    forall n: nat | n <= |part| && '.' !in part[..n] && (n == |part| || part[n] == '.') ensures n == dot {
      NoLongerStem(part, n, dot);
      NoLongerStem(part, dot, n);
    }
  }

  lemma NoLongerStem(part: string, n: nat, m: nat)
    requires n <= |part| && m <= |part| && '.' !in part[..n] && (m == |part| || part[m] == '.')
    ensures n <= m
  {
    NoDotBefore(part, n);
  }

  lemma NoDotBefore(part: string, n: nat)
    requires n <= |part| && '.' !in part[..n]
    ensures forall k :: 0 <= k < n ==> part[k] != '.'
  {
    forall k | 0 <= k < n ensures part[k] != '.' {
      assert part[..n][k] == part[k];
    }
  }

  lemma ExtensionsAreSimple(extension: string)
    requires extension in EXTENSIONS
    ensures |extension| >= 2 && extension[0] == '.' && '.' !in extension[1..]
  {
  }

  /** An accepted extension starts at the last dot. */
  lemma {:induction false} LastDot(name: string, extension: string)
    requires extension in EXTENSIONS && |extension| < |name| && name[|name| - |extension|..] == extension
    ensures AfterLast(name, (c: char) => c == '.') == |name| - |extension| + 1
  {
    ExtensionsAreSimple(extension);
    var at := |name| - |extension|;
    assert name[at] == extension[0];
    forall j | at < j < |name| ensures name[j] != '.' {
      assert name[j] == extension[j - at] == extension[1..][j - at - 1];
    }
    hide *;
  }

  lemma {:induction false} NameEnds(name: string)
    ensures NameExtension(name) in EXTENSIONS <==> EndsAccepted(name)
  {
    var dot := AfterLast(name, (c: char) => c == '.');
    if NameExtension(name) in EXTENSIONS {
      ExtensionsAreSimple(NameExtension(name));
      assert name[|name| - |name[dot - 1..]|..] == name[dot - 1..];
    }
    if extension :| extension in EXTENSIONS && |extension| < |name| && name[|name| - |extension|..] == extension {
      LastDot(name, extension);
    }
  }

  lemma {:induction false} ExtensionIff(path: string)
    ensures Extension(path) in EXTENSIONS <==> EndsAccepted(Split(path)[|Split(path)| - 1])
  {
    NameEnds(Split(path)[|Split(path)| - 1]);
    hide Split, EndsAccepted;
  }

  /** Exactly the acceptable paths are safe. */
  lemma {:induction false} SafePathIff(path: string)
    ensures SafePath(path) <==> Acceptable(path)
  {
    ExtensionIff(path);
    hide Split, Extension, Device, EndsAccepted, NamesDevice;
    forall part: string ensures Device(part) <==> NamesDevice(part) {
      DeviceIff(part);
    }
    assert forall i :: 0 <= i < |path| ==> path[i] in path;
    assert forall c :: PathChar(c) <==> Letter(c) || Digit(c) || c in "_./-" by {
      assert "_./-"[0] == '_' && "_./-"[1] == '.' && "_./-"[2] == '/' && "_./-"[3] == '-';
    }
  }

  /** A bundle's size is what its files hold, one after the other. */
  lemma {:induction false} SizesAddUp(files: seq<File>, file: File)
    ensures Size([]) == 0 && Size(files + [file]) == Size(files) + |file.content|
  {
    assert (files + [file])[..|files|] == files;
  }

  /**
    A bundle is accepted exactly if each of its paths is acceptable, no two are the same up to
    case, and it holds no more than 600 000 bytes.
   */
  lemma {:induction false} ValidIff(files: seq<File>)
    ensures Valid(files) <==>
              && (forall i :: 0 <= i < |files| ==> Acceptable(files[i].path))
              && (forall i, j :: 0 <= i < j < |files| ==> !SameName(files[i].path, files[j].path))
              && Size(files) <= 600_000
  {
    hide SafePath, Acceptable, Size, LowerCase, SameName;
    forall i | 0 <= i < |files| ensures SafePath(files[i].path) <==> Acceptable(files[i].path) {
      SafePathIff(files[i].path);
    }
    forall i, j | 0 <= i < j < |files| ensures LowerCase(files[i].path) == LowerCase(files[j].path) <==> SameName(files[i].path, files[j].path) {
      LowerCasesIff(files[i].path, files[j].path);
    }
    assert forall i :: 0 <= i < |files| ==> files[i] in files;
  }

  lemma LowersIff(a: char, b: char)
    ensures Lower(a) == Lower(b) <==> SameLetter(a, b)
  {
  }

  lemma {:induction false} LowerCasesIff(a: string, b: string)
    ensures LowerCase(a) == LowerCase(b) <==> SameName(a, b)
  {
    hide SameLetter, Lower;
    if |a| == |b| {
      forall i | 0 <= i < |a| ensures LowerCase(a)[i] == LowerCase(b)[i] <==> SameLetter(a[i], b[i]) {
        LowersIff(a[i], b[i]);
      }
    }
  }
}
