/**
  The two static string helpers of the uploader: sanitising an entity name
  for use as an object-storage key component, and taking the file name from
  a path. Strings are sequences of characters; Python's `str.replace` with
  one-character arguments and `str.split` with a one-character separator are
  written out as recursive functions.
 */
module Names {

  /** `s.replace(a, b)` for single characters: every `a` becomes `b`. */
  function ReplaceChar(s: string, a: char, b: char): (r: string)
    ensures |r| == |s|
    ensures forall i :: 0 <= i < |s| ==> r[i] == (if s[i] == a then b else s[i])
  {
    if s == [] then [] else [if s[0] == a then b else s[0]] + ReplaceChar(s[1..], a, b)
  }

  /** `_clean_name_for_s3`: spaces, then dashes, are replaced by underscores. */
  function CleanNameForS3(name: string): (r: string)
    ensures |r| == |name|
    ensures forall i :: 0 <= i < |name| ==>
      r[i] == (if name[i] == ' ' || name[i] == '-' then '_' else name[i])
    ensures ' ' !in r && '-' !in r
  {
    ReplaceChar(ReplaceChar(name, ' ', '_'), '-', '_')
  }

  /** Cleaning a cleaned name changes nothing. */
  lemma CleanNameIdempotent(name: string)
    ensures CleanNameForS3(CleanNameForS3(name)) == CleanNameForS3(name)
  {
  }

  /** A name is left as it is exactly when it holds no space and no dash. */
  lemma CleanNameFixedPoints(name: string)
    ensures CleanNameForS3(name) == name <==> (' ' !in name && '-' !in name)
  {
  }

  /** Python's `s.split(sep)` for a one-character separator: the pieces between separators,
      at least one piece, and an empty piece where two separators meet or at either end. */
  function Split(s: string, sep: char): (parts: seq<string>)
    ensures |parts| >= 1
    ensures forall k :: 0 <= k < |parts| ==> sep !in parts[k]
  {
    if s == [] then [[]]
    else
      var tail := Split(s[1..], sep);
      if s[0] == sep then [[]] + tail else [[s[0]] + tail[0]] + tail[1..]
  }

  /** The last piece of a split ends the string. There is a single piece exactly when the
      separator does not occur, and it is then the whole string; otherwise the last piece
      follows an occurrence of the separator. */
  lemma {:induction false} SplitLastPiece(s: string, sep: char)
    ensures var parts := Split(s, sep); var last := parts[|parts| - 1];
      && |last| <= |s| && s[|s| - |last|..] == last
      && (|parts| == 1 <==> sep !in s)
      && (|parts| == 1 ==> last == s)
      && (|parts| > 1 ==> |last| < |s| && s[|s| - |last| - 1] == sep)
  {
    if s != [] {
      var rest := s[1..];
      var tail := Split(rest, sep);
      var last := tail[|tail| - 1];
      SplitLastPiece(rest, sep);
      assert s == [s[0]] + rest;
      assert s[|s| - |last|..] == rest[|rest| - |last|..];
      if s[0] == sep {
        assert Split(s, sep) == [[]] + tail;
        assert sep in s;
      } else {
        var parts := [[s[0]] + tail[0]] + tail[1..];
        assert Split(s, sep) == parts;
        if |tail| == 1 {
          assert parts == [s];
          assert sep !in s by {
            assert forall i :: 1 <= i < |s| ==> s[i] == rest[i - 1];
          }
        } else {
          assert parts[|parts| - 1] == last;
          assert s[|s| - |last| - 1] == rest[|rest| - |last| - 1];
          assert sep in s by {
            assert s[|s| - |last| - 1] == sep;
          }
        }
      }
    }
  }

  /** `sep.join(parts)`, the inverse of `Split`. */
  function Join(parts: seq<string>, sep: char): string
    requires |parts| >= 1
  {
    if |parts| == 1 then parts[0] else parts[0] + [sep] + Join(parts[1..], sep)
  }

  /** Putting a character in front of the first piece puts it in front of the joined string. */
  lemma JoinConsFirst(c: char, parts: seq<string>, sep: char)
    requires |parts| >= 1
    ensures Join([[c] + parts[0]] + parts[1..], sep) == [c] + Join(parts, sep)
  {
  }

  /** Splitting loses nothing: joining the pieces gives the string back. */
  lemma {:induction false} JoinSplit(s: string, sep: char)
    ensures Join(Split(s, sep), sep) == s
  {
    if s != [] {
      var tail := Split(s[1..], sep);
      JoinSplit(s[1..], sep);
      if s[0] == sep {
        assert Split(s, sep) == [[]] + tail;
        assert ([[]] + tail)[1..] == tail;
      } else {
        assert Split(s, sep) == [[s[0]] + tail[0]] + tail[1..];
        JoinConsFirst(s[0], tail, sep);
      }
      assert s == [s[0]] + s[1..];
    }
  }

  /** `_extract_file_name`: the last `/`-separated piece of the path. It never holds a
      slash, it ends the path, and it is the whole path or is preceded by a slash. */
  function ExtractFileName(path: string): (r: string)
    ensures '/' !in r
    ensures |r| <= |path| && path[|path| - |r|..] == r
    ensures '/' !in path ==> r == path
    ensures '/' in path ==> |r| < |path| && path[|path| - |r| - 1] == '/'
  {
    SplitLastPiece(path, '/');
    var parts := Split(path, '/');
    parts[|parts| - 1]
  }

  /** The file name is the longest slash-free suffix: any suffix without a slash is no longer. */
  lemma ExtractFileNameLongest(path: string, k: nat)
    requires k <= |path| && '/' !in path[|path| - k..]
    ensures k <= |ExtractFileName(path)|
  {
  }
}
