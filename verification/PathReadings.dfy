/** What the path operations return, spelled out with letter tables, literal
    prefixes and positions, apart from the helpers that compute it. */
module PathReadings {
  import opened Common
  import opened PathPolicy

  const LOWER: string := "abcdefghijklmnopqrstuvwxyz"
  const UPPER: string := "ABCDEFGHIJKLMNOPQRSTUVWXYZ"

  /** `c` is letter number `k`, in either case. */
  predicate IsLetter(c: char, k: nat) {
    k < 26 && (c == LOWER[k] || c == UPPER[k])
  }

  ghost predicate SomeLetter(c: char) {
    exists k :: IsLetter(c, k)
  }

  lemma LowerTable(k: nat)
    requires k < 26
    ensures LOWER[k] as int == 'a' as int + k
  {
  }

  lemma UpperTable(k: nat)
    requires k < 26
    ensures UPPER[k] as int == 'A' as int + k
  {
  }

  lemma LetterFacts(c: char, k: nat)
    requires IsLetter(c, k)
    ensures IsAlpha(c) && Upper(c) == UPPER[k] && c != '/' && c != ':' && c != '\\'
  {
    LowerTable(k);
    UpperTable(k);
  }

  lemma AlphaIsLetter(c: char)
    ensures IsAlpha(c) <==> SomeLetter(c)
  {
    if IsAlpha(c) {
      var k := if 'a' <= c <= 'z' then c as int - 'a' as int else c as int - 'A' as int;
      LowerTable(k);
      UpperTable(k);
      assert IsLetter(c, k);
    }
    if SomeLetter(c) {
      var k :| IsLetter(c, k);
      LetterFacts(c, k);
    }
  }

  /** `/cygdrive/`, whatever the case of its letters. */
  predicate IsCygdrive(prefix: string) {
    |prefix| == 10 && forall i :: 0 <= i < 10 ==> prefix[i] == "/cygdrive/"[i] || prefix[i] == "/CYGDRIVE/"[i]
  }

  lemma CygdriveAt(c: char, i: nat)
    requires i < 10
    ensures Lower(c) == "/cygdrive/"[i] <==> c == "/cygdrive/"[i] || c == "/CYGDRIVE/"[i]
  {
  }

  lemma CygdriveAnyCase(raw: string)
    ensures StartsWithCygdrive(raw) <==> |raw| >= 10 && IsCygdrive(raw[..10])
  {
    if |raw| >= 10 {
      forall i | 0 <= i < 10
        ensures Lower(raw[i]) == CYGDRIVE[i] <==> raw[..10][i] == "/cygdrive/"[i] || raw[..10][i] == "/CYGDRIVE/"[i]
      {
        CygdriveAt(raw[i], i);
      }
      hide Lower;
    }
  }

  /** The path names a drive in one of the two spellings with slashes. */
  ghost predicate SlashSpelled(raw: string) {
    || (|raw| >= 2 && raw[0] == '/' && SomeLetter(raw[1]) && (|raw| == 2 || raw[2] == '/'))
    || (|raw| >= 11 && IsCygdrive(raw[..10]) && SomeLetter(raw[10]) && (|raw| == 11 || raw[11] == '/'))
  }

  lemma DrivePrefixMeans(raw: string)
    ensures StartsWithDrivePrefix(raw) <==> SlashSpelled(raw)
  {
    hide SomeLetter, IsCygdrive, IsAlpha;
    CygdriveAnyCase(raw);
    if |raw| >= 2 {
      AlphaIsLetter(raw[1]);
    }
    if |raw| >= 11 {
      AlphaIsLetter(raw[10]);
    }
    if |raw| >= 10 {
      var rest := raw[10..];
      assert |rest| >= 1 ==> rest[0] == raw[10];
      assert |rest| >= 2 ==> rest[1] == raw[11];
    }
    hide StartsWithCygdrive;
  }

  /** A Windows path is absolute exactly when it begins with a drive and a
      separator, with a doubled separator, or with a drive spelled with slashes. */
  lemma AbsoluteMeans(raw: string)
    ensures IsAbsolute(Windows, raw) <==>
              || (|raw| >= 3 && SomeLetter(raw[0]) && raw[1] == ':' && (raw[2] == '\\' || raw[2] == '/'))
              || (|raw| >= 2 && raw[..2] == "\\\\")
              || (|raw| >= 2 && raw[..2] == "//")
              || SlashSpelled(raw)
  {
    hide SomeLetter, SlashSpelled, IsAlpha, StartsWithDrivePrefix;
    DrivePrefixMeans(raw);
    if |raw| >= 3 {
      AlphaIsLetter(raw[0]);
    }
    if |raw| >= 2 {
      assert raw[..2] == [raw[0], raw[1]];
    }
  }

  /** The same text with backslashes for slashes. */
  ghost predicate Backslashed(s: string, t: string) {
    |t| == |s| && forall i :: 0 <= i < |s| ==> t[i] == if s[i] == '/' then '\\' else s[i]
  }

  predicate AllSeparators(s: string) {
    forall i :: 0 <= i < |s| ==> s[i] == '/' || s[i] == '\\'
  }

  lemma {:induction false} TrimsSeparators(seps: string, rest: string)
    requires AllSeparators(seps) && (rest == [] || (rest[0] != '/' && rest[0] != '\\'))
    ensures TrimStart(seps + rest, {'/', '\\'}) == rest
  {
    if seps == [] {
      assert seps + rest == rest;
    } else {
      assert (seps + rest)[1..] == seps[1..] + rest;
      TrimsSeparators(seps[1..], rest);
    }
  }

  lemma BuiltDrive(drive: char, k: nat, seps: string, rest: string)
    requires IsLetter(drive, k) && AllSeparators(seps) && (rest == [] || (rest[0] != '/' && rest[0] != '\\'))
    ensures var path := BuildDrivePath(drive, seps + rest);
            |path| >= 3 && path[..3] == [UPPER[k], ':', '\\'] && Backslashed(rest, path[3..])
  {
    hide TrimStart, IsLetter, Upper;
    LetterFacts(drive, k);
    TrimsSeparators(seps, rest);
  }

  /** A drive spelled `/c/...` or `/cygdrive/c/...`: the letter in upper case, a
      colon and one backslash, then the rest without its leading separators, with
      backslashes for slashes. */
  lemma SlashDriveExactly(prefix: string, drive: char, k: nat, seps: string, rest: string)
    requires (prefix == "/" || IsCygdrive(prefix)) && IsLetter(drive, k)
    requires AllSeparators(seps) && (rest == [] || (rest[0] != '/' && rest[0] != '\\'))
    requires if seps == [] then rest == [] else seps[0] == '/'
    ensures var path := Normalize(Windows, prefix + [drive] + seps + rest);
            |path| >= 3 && path[..3] == [UPPER[k], ':', '\\'] && Backslashed(rest, path[3..])
  {
    hide BuildDrivePath, IsLetter, Backslashed, StartsWithDrivePrefix;
    BuiltDrive(drive, k, seps, rest);
    var raw := prefix + [drive] + seps + rest;
    SpelledWithSlashes(prefix, drive, k, seps, rest);
    assert raw[|prefix|] == drive && raw[|prefix| + 1..] == seps + rest;
  }

  lemma SpelledWithSlashes(prefix: string, drive: char, k: nat, seps: string, rest: string)
    requires (prefix == "/" || IsCygdrive(prefix)) && IsLetter(drive, k)
    requires if seps == [] then rest == [] else seps[0] == '/'
    ensures var raw := prefix + [drive] + seps + rest;
            StartsWithDrivePrefix(raw) && (StartsWithSlashDrive(raw) <==> prefix == "/")
  {
    hide IsLetter;
    var raw := prefix + [drive] + seps + rest;
    LetterFacts(drive, k);
    assert IsLetter(drive, k);
    assert SomeLetter(drive);
    assert raw[|prefix|] == drive;
    assert |raw| > |prefix| + 1 ==> raw[|prefix| + 1] == '/';
    if prefix != "/" {
      assert raw[..10] == prefix && raw[2] == prefix[2];
      assert prefix[2] == 'y' || prefix[2] == 'Y';
    }
    DrivePrefixMeans(raw);
  }

  /** Every other Windows path only has its slashes replaced. */
  lemma OthersKeepTheirText(raw: string)
    requires !SlashSpelled(raw)
    ensures Backslashed(raw, Normalize(Windows, raw))
  {
    hide StartsWithDrivePrefix, SlashSpelled, NormalizeSeparators;
    DrivePrefixMeans(raw);
    SlashDriveIsDrive(raw);
    SeparatorsPointwise(raw);
  }

  /** POSIX paths are taken as they are. */
  lemma PosixIsPlain(raw: string)
    ensures Normalize(Posix, raw) == raw
    ensures IsAbsolute(Posix, raw) <==> |raw| >= 1 && raw[0] == '/'
  {
  }

  /** The three spellings of a place on a drive have one normal form. */
  lemma DriveSpellingsAgree(drive: char, k: nat, prefix: string, rest: string)
    requires IsLetter(drive, k) && IsCygdrive(prefix) && (rest == [] || (rest[0] != '/' && rest[0] != '\\'))
    ensures var native := Normalize(Windows, [UPPER[k], ':', '\\'] + rest);
            && Normalize(Windows, ['/', drive, '/'] + rest) == native
            && Normalize(Windows, prefix + [drive, '/'] + rest) == native
  {
    hide Normalize, IsCygdrive;
    var native := [UPPER[k], ':', '\\'] + rest;
    NotSlashSpelled(k, rest);
    OthersKeepTheirText(native);
    assert ['/', drive, '/'] + rest == "/" + [drive] + "/" + rest;
    assert prefix + [drive, '/'] + rest == prefix + [drive] + "/" + rest;
    SlashDriveExactly("/", drive, k, "/", rest);
    SlashDriveExactly(prefix, drive, k, "/", rest);
    SameNative(k, rest, Normalize(Windows, native), Normalize(Windows, ['/', drive, '/'] + rest));
    SameNative(k, rest, Normalize(Windows, native), Normalize(Windows, prefix + [drive, '/'] + rest));
  }

  lemma NotSlashSpelled(k: nat, rest: string)
    requires k < 26
    ensures !SlashSpelled([UPPER[k], ':', '\\'] + rest)
  {
    hide IsLetter;
    var native := [UPPER[k], ':', '\\'] + rest;
    assert native[0] == UPPER[k];
    UpperTable(k);
    if |native| >= 10 {
      assert native[..10][0] == UPPER[k];
    }
  }

  lemma SameNative(k: nat, rest: string, native: string, path: string)
    requires k < 26 && Backslashed([UPPER[k], ':', '\\'] + rest, native)
    requires |path| >= 3 && path[..3] == [UPPER[k], ':', '\\'] && Backslashed(rest, path[3..])
    ensures path == native
  {
    UpperTable(k);
    assert path == path[..3] + path[3..];
  }

  /** A join below a base: the base as normalised, one separator if it does not
      end with one, and the child as normalised. */
  lemma JoinExactly(style: Style, base: string, child: string)
    ensures var joined, base', child' := Join(style, base, child), Normalize(style, base), Normalize(style, child);
            var sep := if style.Posix? then '/' else '\\';
            if child' == [] || base' == [] || IsAbsolute(style, child') then joined == child'
            else
              && |joined| == |base'| + |child'| + (if base'[|base'| - 1] == sep then 0 else 1)
              && joined[..|base'|] == base'
              && joined[|joined| - |child'|..] == child'
              && joined[|joined| - |child'| - 1] == sep
  {
    hide Normalize, IsAbsolute;
  }

  /** The base name of a POSIX path is its last segment, if it has one. */
  lemma PosixBasename(raw: string) returns (i: nat, j: nat)
    ensures Basename(Posix, raw).None? <==> AllAre(raw, '/')
    ensures Basename(Posix, raw).Some? ==> IsLastSegment(raw, '/', i, j) && Basename(Posix, raw) == Some(raw[i..j])
  {
    i, j := LastSegmentFound(raw, '/');
  }

  /** The base name of a Windows path is the last segment of its normal form after
      a drive or a UNC prefix, or else the drive's letter. */
  lemma WindowsBasename(raw: string) returns (i: nat, j: nat)
    ensures var path, name := Normalize(Windows, raw), Basename(Windows, raw);
            var drive := |path| >= 2 && SomeLetter(path[0]) && path[1] == ':';
            var n := if drive || (|path| >= 2 && path[..2] == "\\\\") then 2 else 0;
            if AllAre(path[n..], '\\') then name == if drive then Some([path[0]]) else None
            else IsLastSegment(path[n..], '\\', i, j) && name == Some(path[n..][i..j])
  {
    var path := Normalize(Windows, raw);
    NormalExactly(raw);
    hide Normalize, LastSegment, SomeLetter, IsAlpha;
    WindowsName(path);
    if |path| >= 2 {
      AlphaIsLetter(path[0]);
      assert path[..2] == [path[0], path[1]];
    }
    i, j := LastSegmentFound(path[PrefixLength(path)..], '\\');
  }
}
