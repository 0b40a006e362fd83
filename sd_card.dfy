/** The string handling of main/peripherals/sd_card.c: building the path of
    the version file with strcpy/strcat into a heap block, reading one line
    with fgets and cutting it at the first newline with strchr. C strings are
    character arrays holding a NUL terminator. */
module SdCard {
  import opened CTypes
  import opened SystemConfig

  const NUL: char := '\0'
  const FILE_VERSION: string := "/version.txt"

  datatype EspErr = EspOk | EspFail

  /** The position of the first `c` in `s`. */
  function IndexOf(s: seq<char>, c: char): (i: nat)
    requires c in s
    ensures i < |s| && s[i] == c && c !in s[..i]
  {
    if s[0] == c then 0
    else
      assert s == [s[0]] + s[1..];
      var j := IndexOf(s[1..], c);
      assert s[..j + 1] == [s[0]] + s[1..][..j];
      1 + j
  }

  /** The C string a buffer holds: the characters before its first NUL. */
  function CStr(s: seq<char>): (r: seq<char>)
    requires NUL in s
    ensures NUL !in r && |r| < |s| && s[..|r|] == r && s[|r|] == NUL
  {
    s[..IndexOf(s, NUL)]
  }

  /** A buffer that starts with `str` and a terminator holds the C string
      `str`, whatever follows. */
  lemma CStrOfTerminated(s: seq<char>, str: seq<char>)
    requires NUL !in str && |str| < |s| && s[..|str|] == str && s[|str|] == NUL
    ensures NUL in s && CStr(s) == str
  {
  }

  /** strlen. */
  method Strlen(a: array<char>) returns (n: nat)
    requires NUL in a[..]
    ensures n == |CStr(a[..])|
  {
    n := 0;
    while a[n] != NUL
      invariant n <= |CStr(a[..])|
      invariant NUL !in a[..n]
      decreases |CStr(a[..])| - n
    {
      assert a[..n + 1] == a[..n] + [a[n]];
      n := n + 1;
    }
    CStrOfTerminated(a[..], a[..n]);
  }

  /** strcpy(dst, src) for a string literal `src` that fits with its
      terminator. */
  method Strcpy(dst: array<char>, src: string)
    requires NUL !in src && |src| < dst.Length
    modifies dst
    ensures NUL in dst[..] && CStr(dst[..]) == src
    ensures dst[|src| + 1..] == old(dst[|src| + 1..])
  {
    var i := 0;
    while i < |src|
      invariant 0 <= i <= |src|
      invariant dst[..i] == src[..i]
      invariant dst[i..] == old(dst[i..])
    {
      dst[i] := src[i];
      assert dst[..i + 1] == src[..i + 1];
      i := i + 1;
    }
    dst[i] := NUL;
    assert dst[..|src|] == src;
    CStrOfTerminated(dst[..], src);
  }

  /** strcat(dst, src): `src` is copied over the terminator of the C string
      in `dst`, followed by a new terminator; every write must land inside
      the buffer. */
  method Strcat(dst: array<char>, src: string)
    requires NUL in dst[..] && NUL !in src
    requires |CStr(dst[..])| + |src| < dst.Length
    modifies dst
    ensures NUL in dst[..] && CStr(dst[..]) == old(CStr(dst[..])) + src
    ensures dst[|old(CStr(dst[..]))| + |src| + 1..] == old(dst[|CStr(dst[..])| + |src| + 1..])
  {
    ghost var head := CStr(dst[..]);
    var n := Strlen(dst);
    var i := 0;
    while i < |src|
      invariant 0 <= i <= |src|
      invariant dst[..n] == head
      invariant dst[n..n + i] == src[..i]
      invariant forall k :: n + i <= k < dst.Length ==> dst[k] == old(dst[k])
    {
      dst[n + i] := src[i];
      assert dst[n..n + i + 1] == dst[n..n + i] + [src[i]];
      i := i + 1;
    }
    dst[n + i] := NUL;
    assert dst[n + i + 1..] == old(dst[n + i + 1..]);
    assert dst[..n + |src|] == dst[..n] + dst[n..n + |src|];
    assert NUL !in head + src;
    CStrOfTerminated(dst[..], head + src);
  }

  /** strchr(a, c) for a character other than NUL: the position of the first
      `c` of the C string, or a null pointer when it holds none. */
  method Strchr(a: array<char>, c: char) returns (pos: Option<nat>)
    requires NUL in a[..] && c != NUL
    ensures pos.None? <==> c !in CStr(a[..])
    ensures pos.Some? ==> c in CStr(a[..]) && pos.value == IndexOf(CStr(a[..]), c)
  {
    ghost var str := CStr(a[..]);
    var i := 0;
    while a[i] != NUL && a[i] != c
      invariant i <= |str|
      invariant c !in str[..i]
      decreases |str| - i
    {
      assert str[..i + 1] == str[..i] + [str[i]];
      i := i + 1;
    }
    if a[i] == c {
      assert i < |str| && str[i] == c;
      pos := Some(i);
    } else {
      assert i == |str|;
      pos := None;
    }
  }

  /** The line as logged: cut before its first newline, if any. */
  function TrimNewline(s: string): (r: string)
    ensures '\n' !in r && |r| <= |s| && r == s[..|r|]
    ensures '\n' !in s ==> r == s
    ensures '\n' in s ==> |r| < |s| && s[|r|] == '\n'
  {
    if '\n' in s then s[..IndexOf(s, '\n')] else s
  }

  /** Trimming twice is trimming once. */
  lemma TrimNewlineIdempotent(s: string)
    ensures TrimNewline(TrimNewline(s)) == TrimNewline(s)
  {
  }

  /** Independent characterisation: the trimmed line is the longest prefix
      of the line without a newline. */
  lemma TrimNewlineIsLongestClean(s: string, j: nat)
    requires j <= |s| && '\n' !in s[..j]
    ensures j <= |TrimNewline(s)|
  {
  }

  /** The newline stripping of s_example_read_file: `*strchr(line, '\n') =
      '\0'` when there is a newline. */
  method StripNewline(line: array<char>)
    requires NUL in line[..]
    modifies line
    ensures NUL in line[..] && CStr(line[..]) == TrimNewline(old(CStr(line[..])))
    ensures '\n' in old(CStr(line[..])) ==> line[..] == old(line[..])[IndexOf(old(CStr(line[..])), '\n') := NUL]
    ensures '\n' !in old(CStr(line[..])) ==> line[..] == old(line[..])
  {
    ghost var str := CStr(line[..]);
    var pos := Strchr(line, '\n');
    if pos.Some? {
      line[pos.value] := NUL;
      assert line[..pos.value] == str[..pos.value];
      CStrOfTerminated(line[..], str[..pos.value]);
    }
  }

  /** What fgets(line, n, f) stores before the terminator: at most n - 1
      characters of the content, stopping after the first newline, which is
      kept (section 7.21.7.2 of the C11 standard). */
  function FgetsLine(content: string, n: nat): (r: string)
    requires n > 0
    ensures |r| <= n - 1 && |r| <= |content| && r == content[..|r|]
    ensures forall i :: 0 <= i < |r| - 1 ==> r[i] != '\n'
    ensures |r| < n - 1 && |r| < |content| ==> |r| > 0 && r[|r| - 1] == '\n'
  {
    var m := if n - 1 < |content| then n - 1 else |content|;
    if '\n' in content[..m] then content[..IndexOf(content[..m], '\n') + 1] else content[..m]
  }

  /** fgets(line, line.Length, f) on a file whose remaining content is
      `content`. At end of file with nothing read it returns a null pointer
      and leaves the buffer as it was. */
  method Fgets(line: array<char>, content: string) returns (ok: bool)
    requires line.Length >= 2
    modifies line
    ensures ok <==> content != []
    ensures ok ==> NUL in line[..] && line[..|FgetsLine(content, line.Length)|] == FgetsLine(content, line.Length)
    ensures ok ==> line[|FgetsLine(content, line.Length)|] == NUL
    ensures !ok ==> line[..] == old(line[..])
  {
    if content == [] {
      return false;
    }
    ghost var r := FgetsLine(content, line.Length);
    var i := 0;
    var sawNewline := false;
    while i < line.Length - 1 && i < |content| && !sawNewline
      invariant 0 <= i <= line.Length - 1 && i <= |content|
      invariant line[..i] == content[..i]
      invariant sawNewline <==> i > 0 && content[i - 1] == '\n'
      invariant '\n' !in content[..(if sawNewline then i - 1 else i)]
    {
      line[i] := content[i];
      assert line[..i + 1] == content[..i + 1];
      assert content[..i + 1] == content[..i] + [content[i]];
      sawNewline := content[i] == '\n';
      i := i + 1;
    }
    assert i == |r| && r == content[..i] by {
      var m := if line.Length - 1 < |content| then line.Length - 1 else |content|;
      if sawNewline {
        assert content[..m][..i - 1] == content[..i - 1];
        assert content[..m][i - 1] == '\n';
        var k := IndexOf(content[..m], '\n');
      } else {
        assert content[..m] == content[..i];
      }
    }
    line[i] := NUL;
    ok := true;
  }

  /** s_example_read_file(path) where fopen yields `file` (None standing for
      a null FILE pointer). `stale` is the indeterminate content of the
      uninitialised line buffer, which fgets leaves in place on an empty
      file; the source does not check fgets's result, so that buffer must
      happen to hold a terminator. Returns the error code and the text
      logged. */
  method ReadFile(file: Option<string>, stale: seq<char>) returns (ret: EspErr, logged: string)
    requires |stale| == SD_MAX_CHAR_SIZE
    requires file == Some([]) ==> NUL in stale
    ensures ret == EspFail <==> file.None?
    ensures file == Some([]) ==> logged == TrimNewline(CStr(stale))
    ensures file.Some? && file.value != [] ==>
      logged == TrimNewline(CStr(FgetsLine(file.value, SD_MAX_CHAR_SIZE) + [NUL]))
  {
    if file.None? {
      return EspFail, "";
    }
    var line := new char[SD_MAX_CHAR_SIZE](i requires 0 <= i < SD_MAX_CHAR_SIZE => stale[i]);
    assert line[..] == stale;
    var ok := Fgets(line, file.value);
    ghost var read := CStr(line[..]);
    if ok {
      var r := FgetsLine(file.value, SD_MAX_CHAR_SIZE);
      assert line[..|r| + 1] == r + [NUL];
      CStrOfTerminated(r + [NUL], CStr(line[..]));
    }
    StripNewline(line);
    logged := CStr(line[..]);
    ret := EspOk;
  }

  /** s_example_write_file's result: ESP_FAIL exactly when fopen fails. */
  function WriteFileResult(fopenOk: bool): (r: EspErr)
    ensures r == EspFail <==> !fopenOk
  {
    if fopenOk then EspOk else EspFail
  }

  /** The size init() passes to malloc, as written:
      strlen(SD_MOUNT_POINT) + strlen(file_version), with no room for the
      terminator. */
  function AsWrittenPathAlloc(): (n: nat)
    ensures n == 19
    ensures n < |SD_MOUNT_POINT + FILE_VERSION| + 1
  {
    |SD_MOUNT_POINT| + |FILE_VERSION|
  }

  /** With the as-written allocation, the strcat after the strcpy of the
      mount point needs to write its terminator at index 19 of a 19-byte
      block: its in-bounds precondition fails. */
  lemma AsWrittenPathOverflows(block: seq<char>)
    requires |block| == AsWrittenPathAlloc()
    requires NUL in block && CStr(block) == SD_MOUNT_POINT
    ensures |block| == 19
    ensures |CStr(block)| + |FILE_VERSION| == |block|
    ensures !(|CStr(block)| + |FILE_VERSION| < |block|)
  {
  }

  /** The allocation the path needs: both strings and the terminator. */
  function PathAlloc(): nat
  {
    |SD_MOUNT_POINT| + |FILE_VERSION| + 1
  }

  /** init()'s path building with the corrected allocation: every write is
      in bounds and the block holds "/sdcard/version.txt". */
  method BuildVersionPath() returns (path: array<char>)
    ensures path.Length == PathAlloc() == 20
    ensures NUL in path[..] && CStr(path[..]) == SD_MOUNT_POINT + FILE_VERSION
    ensures CStr(path[..]) == "/sdcard/version.txt"
  {
    path := new char[PathAlloc()];
    Strcpy(path, SD_MOUNT_POINT);
    Strcat(path, FILE_VERSION);
  }
}
