/** `FileUtils.getFileNameFromUrl`: the last segment of a '/'-separated path. */
module FileUtils {
  import opened Common

  const UNIX_SEPARATOR: char := '/'

  /** `String.lastIndexOf(c)`: the last position holding `c`, or -1. */
  function LastIndexOf(s: string, c: char): (r: int)
    ensures -1 <= r < |s|
    ensures r == -1 <==> c !in s
    ensures r >= 0 ==> s[r] == c && c !in s[r + 1..]
  {
    if |s| == 0 then -1
    else if s[|s| - 1] == c then |s| - 1
    else
      assert s == s[..|s| - 1] + [s[|s| - 1]];
      LastIndexOf(s[..|s| - 1], c)
  }

  /**
   * `getFileNameFromUrl`: "" for a null path, the path itself when it has
   * no separator, otherwise what follows the last separator. In every case
   * the result is the longest separator-free suffix of the path.
   */
  function GetFileNameFromUrl(path: Option<string>): (name: string)
    ensures path.None? ==> name == ""
    ensures path.Some? && UNIX_SEPARATOR !in path.value ==> name == path.value
    ensures path.Some? ==> UNIX_SEPARATOR !in name
    ensures path.Some? ==> |name| <= |path.value| && name == path.value[|path.value| - |name|..]
    ensures path.Some? && |name| < |path.value| ==> path.value[|path.value| - |name| - 1] == UNIX_SEPARATOR
  {
    if path.None? then ""
    else
      var index := LastIndexOf(path.value, UNIX_SEPARATOR);
      if index == -1 then path.value
      else path.value[index + 1..]
  }

  /** Whatever precedes the last separator, the name is what follows it. */
  lemma NameAfterLastSeparator(dir: string, file: string)
    requires UNIX_SEPARATOR !in file
    ensures GetFileNameFromUrl(Some(dir + [UNIX_SEPARATOR] + file)) == file
  {
    var p := dir + [UNIX_SEPARATOR] + file;
    assert p[|p| - |file| - 1] == UNIX_SEPARATOR;
    assert p[|p| - |file|..] == file;
  }

  /** A path ending in a separator names no file. */
  lemma TrailingSeparatorGivesEmpty(dir: string)
    ensures GetFileNameFromUrl(Some(dir + [UNIX_SEPARATOR])) == ""
  {
    NameAfterLastSeparator(dir, "");
    assert dir + [UNIX_SEPARATOR] + "" == dir + [UNIX_SEPARATOR];
  }

  /** A name has no separator left, so taking the name again changes nothing. */
  lemma NameIsIdempotent(path: Option<string>)
    ensures var name := GetFileNameFromUrl(path);
            GetFileNameFromUrl(Some(name)) == name
  {
  }

  /** The case the repository's unit test checks. */
  lemma GankImageUrl()
    ensures GetFileNameFromUrl(Some("http://gank.io/api/image/beautifulgirl.jpg")) == "beautifulgirl.jpg"
  {
    NameAfterLastSeparator("http://gank.io/api/image", "beautifulgirl.jpg");
    assert "http://gank.io/api/image" + [UNIX_SEPARATOR] + "beautifulgirl.jpg"
        == "http://gank.io/api/image/beautifulgirl.jpg";
  }
}
