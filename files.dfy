/**
 * The browser `File` as the upload forms see it, the size-then-type check
 * they all run before an upload, and the timestamped storage names they
 * build from `Date.now()` and the file's extension.
 */
module Files {
  import opened Wrappers
  import opened Strings

  /** A chosen file: its name, its size in bytes and its MIME type. */
  datatype File = File(name: string, size: int, mimeType: string)

  /** One megabyte as the forms count it. */
  const MiB: int := 1024 * 1024

  /** `file.type.startsWith('image/')`. */
  predicate IsImage(f: File) {
    StartsWith(f.mimeType, "image/")
  }

  /** Why a file was turned away. */
  datatype FileProblem = TooLarge | NotImage

  /**
   * The check every upload form runs: the size limit first, then the image
   * type; `None` when the file may be uploaded.
   */
  function CheckFile(f: File, maxBytes: int): (r: Option<FileProblem>)
    ensures r.None? <==> f.size <= maxBytes && IsImage(f)
    ensures r == Some(TooLarge) <==> f.size > maxBytes
    ensures r == Some(NotImage) <==> f.size <= maxBytes && !IsImage(f)
  {
    if f.size > maxBytes then Some(TooLarge)
    else if !IsImage(f) then Some(NotImage)
    else None
  }

  /** `name.split('.').pop()`: the text after the last '.', or the whole name when it has none. */
  function Extension(f: File): (ext: string)
    ensures '.' !in ext
    ensures |ext| <= |f.name| && f.name[|f.name| - |ext|..] == ext
    ensures |ext| == |f.name| || f.name[|f.name| - |ext| - 1] == '.'
    ensures '.' !in f.name ==> ext == f.name
  {
    AfterLast(f.name, '.')
  }

  /** `<prefix><timestamp>.<extension>`: a storage name made unique by the clock. */
  function StampedName(prefix: string, timestamp: nat, f: File): string {
    prefix + DecimalString(timestamp) + "." + Extension(f)
  }

  /** After the prefix, a stamped name reads its timestamp up to the first '.'. */
  lemma StampedNameDigits(prefix: string, t: nat, f: File)
    ensures |prefix| <= |StampedName(prefix, t, f)|
    ensures BeforeFirst(StampedName(prefix, t, f)[|prefix|..], '.') == DecimalString(t)
  {
    var d := DecimalString(t);
    var r := d + ['.'] + Extension(f);
    assert StampedName(prefix, t, f) == prefix + r;
    assert r == (prefix + r)[|prefix|..];
    assert '.' !in d;
    BeforeFirstOfJoin(d, '.', Extension(f));
  }

  /**
   * Two names built with the same prefix at different instants differ, whatever
   * the two files are called.
   */
  lemma StampedNamesDistinct(prefix: string, t1: nat, f1: File, t2: nat, f2: File)
    requires t1 != t2
    ensures StampedName(prefix, t1, f1) != StampedName(prefix, t2, f2)
  {
    StampedNameDigits(prefix, t1, f1);
    StampedNameDigits(prefix, t2, f2);
    DecimalRoundTrip(t1);
    DecimalRoundTrip(t2);
  }
}
