/**
 * The script that turns a Windows `PATH` value into a POSIX one: split on
 * ';', skip empty entries, turn backslashes into slashes, rewrite a leading
 * "C:" as "/c", and join the entries with ':'. Reading the argument and
 * printing the result are left to the caller.
 */
module ConvertPath {
  import opened Basics
  import opened Text

  /** `s.replace(from, to)` for one character. */
  function ReplaceChar(s: String, from: char, to: char): (r: String)
    ensures |r| == |s|
    ensures forall i :: 0 <= i < |s| ==> r[i] == if s[i] == from then to else s[i]
  {
    seq(|s|, i requires 0 <= i < |s| => if s[i] == from then to else s[i])
  }

  /** One entry: slashes for backslashes, then "/c" for an upper-case "C:" drive prefix. */
  function ConvertEntry(path: String): String
  {
    var posix := ReplaceChar(path, '\\', '/');
    if StartsWith(posix, "C:") then "/c" + posix[2..] else posix
  }

  function NonEmpty(): String -> bool
  {
    (s: String) => s != []
  }

  function ConvertEach(paths: seq<String>): (r: seq<String>)
    ensures |r| == |paths| && forall i :: 0 <= i < |paths| ==> r[i] == ConvertEntry(paths[i])
  {
    seq(|paths|, i requires 0 <= i < |paths| => ConvertEntry(paths[i]))
  }

  /** The entries the script keeps, in order: the non-empty pieces between semicolons. */
  function KeptEntries(windowsPath: String): seq<String>
  {
    Filter(SplitOn(windowsPath, ";"), NonEmpty())
  }

  /** The converted `PATH`. */
  function Converted(windowsPath: String): String
  {
    Join(ConvertEach(KeptEntries(windowsPath)), ":")
  }

  /** The script's loop, accumulating the converted entries. */
  method Convert(windowsPath: String) returns (posixPath: String)
    ensures posixPath == Converted(windowsPath)
  {
    var pathList := SplitOn(windowsPath, ";");
    var posixPathList: seq<String> := [];
    for i := 0 to |pathList|
      invariant posixPathList == ConvertEach(Filter(pathList[..i], NonEmpty()))
    {
      var path := pathList[i];
      FilterAppend(pathList[..i], [path], NonEmpty());
      assert pathList[..i + 1] == pathList[..i] + [path];
      if path != [] {
        var posix := ReplaceChar(path, '\\', '/');
        if StartsWith(posix, "C:") {
          posix := "/c" + posix[2..];
        }
        posixPathList := posixPathList + [posix];
      } else {
        assert Filter([path], NonEmpty()) == [];
      }
    }
    assert pathList[..|pathList|] == pathList;
    posixPath := Join(posixPathList, ":");
  }

  /** An entry comes out without backslashes, and "C:" is rewritten only when it is the entry's own prefix. */
  lemma ConvertEntryShape(path: String)
    ensures '\\' !in ConvertEntry(path)
    ensures StartsWith(path, "C:") ==> ConvertEntry(path) == "/c" + ReplaceChar(path[2..], '\\', '/')
    ensures !StartsWith(path, "C:") ==> ConvertEntry(path) == ReplaceChar(path, '\\', '/')
  {
    var posix := ReplaceChar(path, '\\', '/');
    assert StartsWith(posix, "C:") <==> StartsWith(path, "C:") by {
      if |path| >= 2 {
        assert posix[..2] == "C:" <==> path[..2] == "C:" by {
          assert posix[0] == 'C' <==> path[0] == 'C';
          assert posix[1] == ':' <==> path[1] == ':';
        }
      }
    }
    if StartsWith(path, "C:") {
      assert posix[2..] == ReplaceChar(path[2..], '\\', '/');
    }
  }

  /** The output holds no backslash at all. */
  lemma ConvertedHasNoBackslash(windowsPath: String)
    ensures '\\' !in Converted(windowsPath)
  {
    var converted := ConvertEach(KeptEntries(windowsPath));
    forall i | 0 <= i < |converted| ensures '\\' !in converted[i] {
      ConvertEntryShape(KeptEntries(windowsPath)[i]);
    }
    JoinAbsent(converted, ":", '\\');
  }

  /** The kept entries are exactly the non-empty pieces, in their order, and one comes out per entry. */
  lemma KeptEntriesExactly(windowsPath: String)
    ensures forall p :: p in KeptEntries(windowsPath) <==> p in SplitOn(windowsPath, ";") && p != []
    ensures |ConvertEach(KeptEntries(windowsPath))| == |KeptEntries(windowsPath)|
  {
    FilterMembers(SplitOn(windowsPath, ";"), NonEmpty());
  }

  /** The colons of the output: one between each two entries, plus those inside the entries. */
  lemma ConvertedColons(windowsPath: String)
    ensures var converted := ConvertEach(KeptEntries(windowsPath));
      Count(Converted(windowsPath), ':') == if |converted| == 0 then 0 else |converted| - 1 + CountAll(converted, ':')
  {
    var converted := ConvertEach(KeptEntries(windowsPath));
    if |converted| > 0 {
      JoinCharCount(converted, ':');
    }
  }
}
