/** Which directory entries `scan_directory` hands to the scanner (src/scanner.rs:463-485):
    regular files whose extension, lower-cased, is one of the supported image formats.
    The extension follows `std::path::Path::extension` on `/`-separated paths. */
module ImagePaths {
  import opened Common

  /** The index of the last occurrence of `c` in `s`, if any. */
  function LastIndex(s: string, c: char): (r: Option<nat>)
    ensures r.Some? ==> r.value < |s| && s[r.value] == c && forall k :: r.value < k < |s| ==> s[k] != c
    ensures r.None? ==> c !in s
  {
    if |s| == 0 then None
    else if s[|s| - 1] == c then Some(|s| - 1)
    else LastIndex(s[..|s| - 1], c)
  }

  /** The last component of a path: everything after the last separator. */
  function FileName(path: string): string {
    match LastIndex(path, '/')
    case Some(k) => path[k + 1..]
    case None => path
  }

  /** `Path::extension` of a file name: the text after its last dot, except that a
      name without a dot, a name whose only dot is its first character, and `..`
      have none. */
  function Extension(name: string): Option<string> {
    if name == ".." then None
    else
      match LastIndex(name, '.')
      case None => None
      case Some(k) => if k == 0 then None else Some(name[k + 1..])
  }

  /** The file name is the suffix of the path after its last separator, or the whole
      path when it has none. */
  lemma FileNameIsLastComponent(path: string)
    ensures '/' !in FileName(path)
    ensures '/' in path ==> |FileName(path)| < |path| && path[|path| - |FileName(path)|..] == FileName(path)
    ensures '/' !in path ==> FileName(path) == path
  {
  }

  /** A file name has an extension exactly when it is not `..` and has a dot after its
      first character; the extension is then the dot-free suffix after the last dot. */
  lemma ExtensionIsAfterLastDot(name: string)
    ensures Extension(name).Some? <==> name != ".." && exists k :: 0 < k < |name| && name[k] == '.'
    ensures Extension(name).Some? ==>
      var ext := Extension(name).value;
      && '.' !in ext && |ext| < |name| && name[|name| - |ext| - 1] == '.'
      && name[|name| - |ext|..] == ext
  {
  }

  function AsciiLowerChar(c: char): char {
    if 'A' <= c <= 'Z' then (c as int - 'A' as int + 'a' as int) as char else c
  }

  /** `to_lowercase`, restricted to ASCII letters. */
  function AsciiLower(s: string): (r: string)
    ensures |r| == |s| && forall i :: 0 <= i < |s| ==> r[i] == AsciiLowerChar(s[i])
  {
    seq(|s|, i requires 0 <= i < |s| => AsciiLowerChar(s[i]))
  }

  /** The extensions of the formats the scanner accepts, in lower case. */
  const IMAGE_EXTENSIONS: seq<string> := ["png", "jpg", "jpeg", "bmp", "gif", "webp", "tiff", "tif"]

  /** The path names a file the scanner accepts. */
  predicate IsImagePath(path: string) {
    match Extension(FileName(path))
    case Some(ext) => AsciiLower(ext) in IMAGE_EXTENSIONS
    case None => false
  }

  lemma LowerCharKeepsNonLetters(c: char, d: char)
    requires !('A' <= d <= 'Z') && !('a' <= d <= 'z')
    ensures AsciiLowerChar(c) == d <==> c == d
  {
  }

  lemma {:induction false} LowerKeepsLastIndex(s: string, c: char)
    requires !('A' <= c <= 'Z') && !('a' <= c <= 'z')
    ensures LastIndex(AsciiLower(s), c) == LastIndex(s, c)
  {
    if |s| > 0 {
      var init := s[..|s| - 1];
      assert AsciiLower(s)[..|s| - 1] == AsciiLower(init);
      LowerCharKeepsNonLetters(s[|s| - 1], c);
      LowerKeepsLastIndex(init, c);
    }
  }

  lemma LowerSuffix(s: string, k: nat)
    requires k <= |s|
    ensures AsciiLower(s)[k..] == AsciiLower(s[k..])
  {
  }

  lemma LowerIdempotent(s: string)
    ensures AsciiLower(AsciiLower(s)) == AsciiLower(s)
  {
  }

  lemma FileNameOfLowered(path: string)
    ensures FileName(AsciiLower(path)) == AsciiLower(FileName(path))
  {
    LowerKeepsLastIndex(path, '/');
    match LastIndex(path, '/')
    case Some(k) => LowerSuffix(path, k + 1);
    case None =>
  }

  lemma ExtensionOfLoweredName(name: string)
    ensures Extension(AsciiLower(name)) ==
            match Extension(name) case Some(ext) => Some(AsciiLower(ext)) case None => None
  {
    LowerKeepsLastIndex(name, '.');
    if AsciiLower(name) == ".." {
      assert AsciiLowerChar(name[0]) == '.' && AsciiLowerChar(name[1]) == '.';
      assert name == "..";
    }
    match LastIndex(name, '.')
    case Some(k) => LowerSuffix(name, k + 1);
    case None =>
  }

  /** Lower-casing commutes with taking the file name and its extension, since
      neither the separator nor the dot is a letter. */
  lemma ExtensionOfLowered(path: string)
    ensures Extension(FileName(AsciiLower(path))) ==
            match Extension(FileName(path)) case Some(ext) => Some(AsciiLower(ext)) case None => None
  {
    FileNameOfLowered(path);
    ExtensionOfLoweredName(FileName(path));
  }

  /** The extension filter ignores case entirely: a path is accepted exactly when its
      lower-cased form is. */
  lemma FilterIgnoresCase(path: string)
    ensures IsImagePath(AsciiLower(path)) <==> IsImagePath(path)
  {
    ExtensionOfLowered(path);
    match Extension(FileName(path))
    case Some(ext) => LowerIdempotent(ext);
    case None =>
  }

  lemma LastIndexIs(s: string, c: char, k: nat)
    requires k < |s| && s[k] == c && c !in s[k + 1..]
    ensures LastIndex(s, c) == Some(k)
  {
  }

  /** Upper-case extensions are accepted. */
  lemma UpperCaseExtensionAccepted()
    ensures IsImagePath("photos/IMG_0001.JPG")
  {
    var path := "photos/IMG_0001.JPG";
    var name := "IMG_0001.JPG";
    assert path[7..] == name;
    LastIndexIs(path, '/', 6);
    assert name[9..] == "JPG";
    LastIndexIs(name, '.', 8);
    assert AsciiLower("JPG") == "jpg" == IMAGE_EXTENSIONS[1];
  }

  /** Only the last extension counts. */
  lemma LastExtensionCounts()
    ensures IsImagePath("backup/archive.tar.tif")
  {
    var path := "backup/archive.tar.tif";
    var name := "archive.tar.tif";
    assert path[7..] == name;
    LastIndexIs(path, '/', 6);
    assert name[12..] == "tif";
    LastIndexIs(name, '.', 11);
    assert AsciiLower("tif") == "tif" == IMAGE_EXTENSIONS[7];
  }

  /** A hidden file named after an extension has no extension. */
  lemma HiddenFileRejected()
    ensures !IsImagePath("photos/.png")
  {
    var path := "photos/.png";
    var name := ".png";
    assert path[7..] == name;
    LastIndexIs(path, '/', 6);
    LastIndexIs(name, '.', 0);
  }
}
