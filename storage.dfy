/** File naming of api/services/storage.py: the extension chosen from the
  * content type, the stored path, and the relative URL kept in the
  * database. Writing the bytes and creating the directory are not modelled. */
module Storage {
  import opened Text
  import opened Uuids
  import Config

  const RELATIVE_PREFIX: string := "/storage/receipts"

  /** The extension map of `save_file`, with ".bin" for any other type. */
  function ExtensionFor(contentType: string): (ext: string)
    ensures contentType == "image/jpeg" ==> ext == ".jpg"
    ensures contentType == "image/png" ==> ext == ".png"
    ensures contentType == "application/pdf" ==> ext == ".pdf"
    ensures contentType !in {"image/jpeg", "image/png", "application/pdf"} ==> ext == ".bin"
  {
    var extensionMap := map["image/jpeg" := ".jpg", "image/png" := ".png", "application/pdf" := ".pdf"];
    if contentType in extensionMap then extensionMap[contentType] else ".bin"
  }

  predicate HasNoSlash(s: string)
  {
    forall k :: 0 <= k < |s| ==> s[k] != '/'
  }

  /** `os.path.join(a, b)` for two components. */
  function PathJoin(a: string, b: string): string
  {
    if |b| > 0 && b[0] == '/' then b
    else if a == "" || a[|a| - 1] == '/' then a + b
    else a + "/" + b
  }

  /** `get_file_path`: the storage directory joined with `<id><extension>`. */
  function GetFilePath(receiptId: Uuid, extension: string): (path: string)
    ensures path == Config.STORAGE_PATH + "/" + ToString(receiptId) + extension
  {
    UuidHasNoSlash(receiptId);
    PathJoin(Config.STORAGE_PATH, ToString(receiptId) + extension)
  }

  lemma UuidHasNoSlash(u: Uuid)
    ensures HasNoSlash(ToString(u)) && |ToString(u)| > 0 && ToString(u)[0] != '/'
  {
    var s := ToString(u);
    assert forall n: Nibble :: HexChar(n) != '/';
  }

  /** `save_file` without its write: the path it writes to and returns. */
  function SaveFile(receiptId: Uuid, contentType: string): (path: string)
    ensures path == GetFilePath(receiptId, ExtensionFor(contentType))
  {
    var extension := ExtensionFor(contentType);
    GetFilePath(receiptId, extension)
  }

  /** `s.replace(pat, rep)`: every non-overlapping occurrence of `pat`, from
    * left to right, becomes `rep`. */
  function ReplaceAll(s: string, pat: string, rep: string): string
    requires |pat| > 0
    decreases |s|
  {
    if |s| < |pat| then s
    else if s[..|pat|] == pat then rep + ReplaceAll(s[|pat|..], pat, rep)
    else [s[0]] + ReplaceAll(s[1..], pat, rep)
  }

  /** `get_relative_url`. */
  function GetRelativeUrl(filePath: string): string
  {
    ReplaceAll(filePath, Config.STORAGE_PATH, RELATIVE_PREFIX)
  }

  /** A string without an occurrence of the pattern is returned unchanged. */
  lemma {:induction false} ReplaceAllAbsent(s: string, pat: string, rep: string)
    requires |pat| > 0
    requires !Contains(s, pat)
    ensures ReplaceAll(s, pat, rep) == s
    decreases |s|
  {
    if |s| >= |pat| {
      assert !OccursAt(s, pat, 0);
      if Contains(s[1..], pat) {
        var i :| 0 <= i <= |s[1..]| && OccursAt(s[1..], pat, i);
        assert s[i + 1..i + 1 + |pat|] == s[1..][i..i + |pat|];
        assert OccursAt(s, pat, i + 1);
      }
      ReplaceAllAbsent(s[1..], pat, rep);
      assert s == [s[0]] + s[1..];
    }
  }

  /** A slash followed by slash-free text cannot contain the storage path,
    * which has slashes at indices 0 and 4. */
  lemma NoStoragePathAfterSlash(f: string)
    requires HasNoSlash(f)
    ensures !Contains("/" + f, Config.STORAGE_PATH)
  {
    var s := "/" + f;
    var p := Config.STORAGE_PATH;
    forall i | 0 <= i <= |s| ensures !OccursAt(s, p, i) {
      if i == 0 && |s| >= |p| {
        assert s[4] == f[3];
      } else if i + |p| <= |s| {
        assert s[i] == f[i - 1];
      }
    }
  }

  /** For a path built by `get_file_path`, the relative URL is
    * "/storage/receipts/<id><extension>". */
  lemma RelativeUrlOfFilePath(receiptId: Uuid, extension: string)
    requires HasNoSlash(extension)
    ensures GetRelativeUrl(GetFilePath(receiptId, extension)) == RELATIVE_PREFIX + "/" + ToString(receiptId) + extension
  {
    var f := ToString(receiptId) + extension;
    var p := Config.STORAGE_PATH;
    var path := GetFilePath(receiptId, extension);
    UuidHasNoSlash(receiptId);
    assert HasNoSlash(f);
    assert path == p + ("/" + f);
    assert path[..|p|] == p;
    assert path[|p|..] == "/" + f;
    NoStoragePathAfterSlash(f);
    ReplaceAllAbsent("/" + f, p, RELATIVE_PREFIX);
  }

  /** `save_file` extensions never contain a slash, so the lemma above
    * applies to every stored upload. */
  lemma ExtensionsHaveNoSlash(contentType: string)
    ensures HasNoSlash(ExtensionFor(contentType))
  {
  }
}
