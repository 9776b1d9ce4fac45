/**
 * Image upload: the file name's extension must be .png, .jpg or .jpeg; the
 * file is written to `path + name`, and read back from
 * `path + separator + name`. The file system is the set of existing files,
 * each named by its normalised path.
 */
module FileService {
  import opened Outcome

  /** `File.separator` on the platform the store runs on. */
  const SeparatorChar: char := '/'
  const Separator: string := [SeparatorChar]

  const InvalidFileName: string := "Invalid FileName !"

  /** Java's `String.lastIndexOf`: the last position of `c` in `s`, or -1. */
  function LastIndexOf(s: string, c: char): (r: int)
    ensures -1 <= r < |s|
    ensures r == -1 <==> c !in s
    ensures r >= 0 ==> s[r] == c && forall k | r < k < |s| :: s[k] != c
  {
    if s == [] then -1
    else if s[|s| - 1] == c then |s| - 1
    else LastIndexOf(s[..|s| - 1], c)
  }

  /** Java's `String.substring(begin)`, which throws for a start outside the string. */
  function Substring(s: string, begin: int): (r: Result<string>)
    ensures r.Success? <==> 0 <= begin <= |s|
    ensures r.Success? ==> s == s[..begin] + r.value
    ensures r.Failure? ==> r.error == Uncaught("StringIndexOutOfBoundsException")
  {
    if 0 <= begin <= |s| then Success(s[begin..])
    else Failure(Uncaught("StringIndexOutOfBoundsException"))
  }

  /** The extension of a file name: from its last '.' to the end. */
  function Extension(fileName: string): (r: Result<string>)
    ensures r.Success? <==> '.' in fileName
  {
    Substring(fileName, LastIndexOf(fileName, '.'))
  }

  /** The whitelist, case-sensitive. */
  predicate AllowedExtension(ext: string)
    ensures AllowedExtension(ext) ==> 4 <= |ext| <= 5 && ext[0] == '.'
  {
    ext == ".png" || ext == ".jpg" || ext == ".jpeg"
  }

  /** Where an upload to directory `path` is written: no separator is inserted. */
  function UploadTarget(path: string, fileName: string): (r: string)
    ensures |r| == |path| + |fileName|
    ensures r[..|path|] == path && r[|path|..] == fileName
  {
    path + fileName
  }

  /** Where a resource is read from: the separator is inserted. */
  function ResourcePath(path: string, name: string): (r: string)
    ensures |r| == |path| + 1 + |name|
    ensures r[..|path|] == path && r[|path|] == SeparatorChar && r[|path| + 1..] == name
  {
    path + Separator + name
  }

  /**
   * The file a path names. `java.io.File` and `java.nio.file.Path` both
   * collapse a run of separators into one, so "img//a.png" and "img/a.png"
   * are the same file.
   */
  function Normalize(p: string): (r: string)
    ensures |r| <= |p|
    ensures |p| > 0 ==> |r| > 0 && r[0] == p[0]
  {
    if |p| < 2 then p
    else if p[0] == SeparatorChar && p[1] == SeparatorChar then Normalize(p[1..])
    else [p[0]] + Normalize(p[1..])
  }

  /** A normalised path has no two separators in a row. */
  lemma {:induction false} NormalizeHasNoRuns(p: string)
    ensures forall k | 0 <= k < |Normalize(p)| - 1 ::
      !(Normalize(p)[k] == SeparatorChar && Normalize(p)[k + 1] == SeparatorChar)
  {
    if |p| >= 2 {
      NormalizeHasNoRuns(p[1..]);
    }
  }

  // ---------------------------------------------------------------------
  // Properties of the extension

  /**
   * A name with a '.' has as extension the suffix from its last '.': it
   * starts with '.', holds no other '.', and the name ends with it. A name
   * without a '.' makes `substring(-1)` throw.
   */
  lemma ExtensionIsLastDotSuffix(fileName: string)
    ensures '.' !in fileName ==> Extension(fileName) == Failure(Uncaught("StringIndexOutOfBoundsException"))
    ensures '.' in fileName ==>
      && Extension(fileName).Success?
      && var ext := Extension(fileName).value;
      && 0 < |ext| <= |fileName|
      && ext[0] == '.' && '.' !in ext[1..]
      && fileName == fileName[..|fileName| - |ext|] + ext
  {
    if '.' in fileName {
      var i := LastIndexOf(fileName, '.');
      var ext := fileName[i..];
      assert fileName == fileName[..i] + ext;
      forall k | 1 <= k < |ext| ensures ext[k] != '.' {
        assert ext[k] == fileName[i + k];
      }
    }
  }

  /** Conversely, whatever precedes it, a suffix that starts with '.' and holds no other '.' is the extension. */
  lemma {:induction false} ExtensionOfSuffix(stem: string, ext: string)
    requires 0 < |ext| && ext[0] == '.' && '.' !in ext[1..]
    ensures Extension(stem + ext) == Success(ext)
  {
    var name := stem + ext;
    var i := LastIndexOf(name, '.');
    assert name[|stem|] == '.';
    assert forall k | |stem| < k < |name| :: name[k] == ext[1..][k - |stem| - 1];
    assert name[i..] == ext;
  }

  /** An accepted file name ends in ".png", ".jpg" or ".jpeg", with that case. */
  lemma AcceptedNamesEndInImageExtension(fileName: string)
    requires Extension(fileName).Success? && AllowedExtension(Extension(fileName).value)
    ensures exists ext | ext in [".png", ".jpg", ".jpeg"] :: |ext| <= |fileName| && fileName[|fileName| - |ext|..] == ext
  {
    ExtensionIsLastDotSuffix(fileName);
    var ext := Extension(fileName).value;
    assert fileName[|fileName| - |ext|..] == ext;
    assert ext in [".png", ".jpg", ".jpeg"];
  }

  /** The case of the extension matters: whatever the stem, ".PNG" is refused and ".png" accepted. */
  lemma ExtensionCaseSensitive(stem: string)
    ensures Extension(stem + ".PNG") == Success(".PNG") && !AllowedExtension(".PNG")
    ensures Extension(stem + ".png") == Success(".png") && AllowedExtension(".png")
  {
    ExtensionOfSuffix(stem, ".PNG");
    ExtensionOfSuffix(stem, ".png");
  }

  /** Normalising splits at a point where no two separators meet. */
  lemma {:induction false} NormalizeAppend(a: string, b: string)
    requires !(|a| > 0 && |b| > 0 && a[|a| - 1] == SeparatorChar && b[0] == SeparatorChar)
    ensures Normalize(a + b) == Normalize(a) + Normalize(b)
  {
    if a == [] {
      assert a + b == b;
    } else if |a| == 1 {
      if |b| > 0 {
        assert (a + b)[1..] == b;
      }
    } else if |a| >= 2 {
      assert (a + b)[1..] == a[1..] + b;
      assert (a + b)[0] == a[0] && (a + b)[1] == a[1];
      NormalizeAppend(a[1..], b);
      if a[0] != SeparatorChar || a[1] != SeparatorChar {
        assert [a[0]] + (Normalize(a[1..]) + Normalize(b)) == ([a[0]] + Normalize(a[1..])) + Normalize(b);
      }
    }
  }

  /** A doubled separator names the same file as a single one. */
  lemma {:induction false} NormalizeDoubled(q: string, n: string)
    ensures Normalize(q + Separator + Separator + n) == Normalize(q + Separator + n)
  {
    var long := q + Separator + Separator + n;
    var short := q + Separator + n;
    if q == [] {
      assert long[1..] == short;
    } else {
      assert long[1..] == q[1..] + Separator + Separator + n;
      assert short[1..] == q[1..] + Separator + n;
      NormalizeDoubled(q[1..], n);
    }
  }

  /** With `path` ending in a separator, the upload and the read name the same file. */
  lemma UploadUnderSeparatorIsRead(path: string, name: string)
    requires |path| > 0 && path[|path| - 1] == SeparatorChar
    ensures Normalize(UploadTarget(path, name)) == Normalize(ResourcePath(path, name))
  {
    var q := path[..|path| - 1];
    assert path == q + Separator;
    assert UploadTarget(path, name) == q + Separator + name;
    assert ResourcePath(path, name) == q + Separator + Separator + name;
    NormalizeDoubled(q, name);
  }

  /** Otherwise the read path names a file one separator longer than the upload's. */
  lemma UploadWithoutSeparatorIsNotRead(path: string, name: string)
    requires !(|path| > 0 && path[|path| - 1] == SeparatorChar)
    requires |name| > 0 ==> name[0] != SeparatorChar
    ensures |Normalize(ResourcePath(path, name))| == |Normalize(UploadTarget(path, name))| + 1
  {
    NormalizeAppend(path, name);
    NormalizeAppend(Separator, name);
    NormalizeAppend(path, Separator + name);
    assert ResourcePath(path, name) == path + (Separator + name);
  }

  /**
   * `getResource(path, name)` reads the file `uploadFile(…, path)` wrote
   * exactly when `path` ends in a separator (for a name that neither starts
   * nor ends with one): the upload inserts no separator, the read does.
   */
  lemma UploadThenRead(path: string, name: string)
    requires |name| > 0 && name[0] != SeparatorChar && name[|name| - 1] != SeparatorChar
    ensures Normalize(UploadTarget(path, name)) == Normalize(ResourcePath(path, name))
      <==> |path| > 0 && path[|path| - 1] == SeparatorChar
  {
    if |path| > 0 && path[|path| - 1] == SeparatorChar {
      UploadUnderSeparatorIsRead(path, name);
    } else {
      UploadWithoutSeparatorIsNotRead(path, name);
    }
  }

  // ---------------------------------------------------------------------
  // The file system and the two operations

  /** The files that exist, each named by its normalised path. */
  class FileSystem {
    var files: set<string>

    constructor (files: set<string>)
      ensures this.files == files
    {
      this.files := files;
    }
  }

  /**
   * uploadFile: a missing (null) file name returns "Invalid FileName !" and
   * writes nothing; otherwise the extension is taken from the last '.',
   * and an allowed one has the file copied to `path + name` (failing if
   * that file is already there) and the name returned, any other is a
   * BadApiRequest naming the extension.
   */
  method UploadFile(fs: FileSystem, originalFileName: Option<string>, path: string) returns (r: Result<string>)
    modifies fs
    ensures originalFileName.None? ==> r == Success(InvalidFileName) && fs.files == old(fs.files)
    ensures originalFileName.Some? ==>
      var name := originalFileName.value;
      match Extension(name)
      case Failure(e) => r == Failure(e) && fs.files == old(fs.files)
      case Success(ext) =>
        if !AllowedExtension(ext) then
          r == Failure(BadApiRequest("File with extension: " + ext + " not allowed !")) && fs.files == old(fs.files)
        else if Normalize(UploadTarget(path, name)) in old(fs.files) then
          r == Failure(Uncaught("FileAlreadyExistsException")) && fs.files == old(fs.files)
        else
          r == Success(name) && fs.files == old(fs.files) + {Normalize(UploadTarget(path, name))}
  {
    if originalFileName.None? {
      return Success(InvalidFileName);
    }
    var name := originalFileName.value;
    var fileNameWithPath := UploadTarget(path, name);
    var extension := Extension(name);
    if extension.Failure? {
      return Failure(extension.error);
    }
    if !AllowedExtension(extension.value) {
      return Failure(BadApiRequest("File with extension: " + extension.value + " not allowed !"));
    }
    if Normalize(fileNameWithPath) in fs.files {
      return Failure(Uncaught("FileAlreadyExistsException"));
    }
    fs.files := fs.files + {Normalize(fileNameWithPath)};
    r := Success(name);
  }

  /**
   * getResource: opens `path + separator + name`, returning the file it
   * names; a missing file is FileNotFoundException.
   */
  method GetResource(fs: FileSystem, path: string, name: string) returns (r: Result<string>)
    ensures r.Success? <==> Normalize(ResourcePath(path, name)) in fs.files
    ensures r.Success? ==> r.value == Normalize(ResourcePath(path, name))
    ensures r.Failure? ==> r.error == Uncaught("FileNotFoundException")
  {
    var fullPath := ResourcePath(path, name);
    if Normalize(fullPath) !in fs.files {
      return Failure(Uncaught("FileNotFoundException"));
    }
    r := Success(Normalize(fullPath));
  }
}
