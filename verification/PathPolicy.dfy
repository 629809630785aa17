/** Paths of the remote hosts (`path.rs`), as text: POSIX paths as they are,
    Windows paths with either separator, drive letters, UNC prefixes and the
    `/c/...` and `/cygdrive/c/...` spellings of a drive. Every test the source
    makes on bytes is about ASCII characters, so it is made on characters here. */
module PathPolicy {
  import opened Common

  datatype Style = Posix | Windows

  predicate IsAlpha(c: char) {
    'a' <= c <= 'z' || 'A' <= c <= 'Z'
  }

  function Upper(c: char): char {
    if 'a' <= c <= 'z' then (c as int - 32) as char else c
  }

  function Lower(c: char): char {
    if 'A' <= c <= 'Z' then (c as int + 32) as char else c
  }

  predicate IsSeparator(c: char) {
    c == '/' || c == '\\'
  }

  const CYGDRIVE: string := "/cygdrive/"

  /** A prefix equal to `/cygdrive/` but for the case of ASCII letters. */
  predicate StartsWithCygdrive(raw: string) {
    |raw| >= |CYGDRIVE| && forall i :: 0 <= i < |CYGDRIVE| ==> Lower(raw[i]) == CYGDRIVE[i]
  }

  /** `/c` or `/c/...`. */
  predicate StartsWithSlashDrive(raw: string) {
    |raw| >= 2 && raw[0] == '/' && IsAlpha(raw[1]) && (|raw| == 2 || raw[2] == '/')
  }

  predicate StartsWithDrivePrefix(raw: string) {
    || StartsWithSlashDrive(raw)
    || (&& StartsWithCygdrive(raw)
        && var rest := raw[|CYGDRIVE|..];
           rest != [] && IsAlpha(rest[0]) && (|rest| == 1 || rest[1] == '/'))
  }

  predicate StartsTwice(raw: string, c: char) {
    |raw| >= 2 && raw[0] == c && raw[1] == c
  }

  predicate IsAbsolute(style: Style, raw: string) {
    match style
    case Posix => raw != [] && raw[0] == '/'
    case Windows =>
      || (|raw| >= 3 && IsAlpha(raw[0]) && raw[1] == ':' && IsSeparator(raw[2]))
      || StartsTwice(raw, '\\')
      || StartsTwice(raw, '/')
      || StartsWithDrivePrefix(raw)
  }

  // ----- Normalising ------------------------------------------------------

  function NormalizeChars(raw: string): string {
    seq(|raw|, i requires 0 <= i < |raw| => if IsSeparator(raw[i]) then '\\' else raw[i])
  }

  function TrimStart(s: string, drop: set<char>): string {
    if s != [] && s[0] in drop then TrimStart(s[1..], drop) else s
  }

  function TrimEnd(s: string, drop: set<char>): string {
    if s != [] && s[|s| - 1] in drop then TrimEnd(s[..|s| - 1], drop) else s
  }

  function BuildDrivePath(drive: char, rest: string): string {
    var tail := TrimStart(rest, {'/', '\\'});
    if tail == [] then [Upper(drive), ':', '\\'] else [Upper(drive), ':', '\\'] + NormalizeChars(tail)
  }

  function TranslateDrivePath(raw: string): Option<string> {
    if StartsWithSlashDrive(raw) then Some(BuildDrivePath(raw[1], raw[2..]))
    else if !StartsWithDrivePrefix(raw) then None
    else Some(BuildDrivePath(raw[|CYGDRIVE|], raw[|CYGDRIVE| + 1..]))
  }

  /** The length of a drive letter with its colon, or of a UNC prefix. */
  function PrefixLength(raw: string): (n: nat)
    ensures n <= |raw|
  {
    if |raw| >= 2 && IsAlpha(raw[0]) && raw[1] == ':' then 2
    else if StartsTwice(raw, '\\') || StartsTwice(raw, '/') then 2
    else 0
  }

  function NormalizeSeparators(raw: string): string {
    var n := PrefixLength(raw);
    NormalizeChars(raw[..n]) + NormalizeChars(raw[n..])
  }

  function Normalize(style: Style, raw: string): string {
    match style
    case Posix => raw
    case Windows =>
      var translated := TranslateDrivePath(raw);
      if translated.Some? then translated.value else NormalizeSeparators(raw)
  }

  // ----- Joining ----------------------------------------------------------

  function Separator(style: Style): char {
    if style.Posix? then '/' else '\\'
  }

  function Join(style: Style, base: string, child: string): string {
    var child' := Normalize(style, child);
    if child' == [] || IsAbsolute(style, child') then child'
    else
      var base' := Normalize(style, base);
      if base' == [] then child'
      else if base'[|base'| - 1] == Separator(style) then base' + child'
      else base' + [Separator(style)] + child'
  }

  // ----- Base names -------------------------------------------------------

  /** The segments between separators, the last one first. */
  function RSplit(s: string, sep: char): seq<string>
    decreases |s|
  {
    var n := SegmentLength(s, sep);
    if n == |s| then [s] else [s[|s| - n..]] + RSplit(s[..|s| - n - 1], sep)
  }

  /** The number of characters after the last separator. */
  function SegmentLength(s: string, sep: char): (n: nat)
    ensures n <= |s|
    ensures n < |s| ==> s[|s| - n - 1] == sep
    ensures forall k :: |s| - n <= k < |s| ==> s[k] != sep
  {
    if s == [] || s[|s| - 1] == sep then 0 else SegmentLength(s[..|s| - 1], sep) + 1
  }

  function FirstNonEmpty(segments: seq<string>): Option<string> {
    if segments == [] then None
    else if segments[0] != [] then Some(segments[0])
    else FirstNonEmpty(segments[1..])
  }

  function LastSegment(s: string, sep: char): Option<string> {
    FirstNonEmpty(RSplit(TrimEnd(s, {sep}), sep))
  }

  /** The base name of a prefix alone. */
  function PrefixName(prefix: string): Option<string> {
    var name := TrimStart(TrimEnd(prefix, {':', '\\'}), {'\\'});
    if name == [] then None else Some(name)
  }

  /** The base name of a path in normal form. */
  function NameOf(style: Style, path: string): Option<string> {
    match style
    case Posix => LastSegment(path, '/')
    case Windows =>
      var n := PrefixLength(path);
      if TrimEnd(path[n..], {'\\'}) == [] then PrefixName(path[..n]) else LastSegment(path[n..], '\\')
  }

  function Basename(style: Style, raw: string): Option<string> {
    NameOf(style, Normalize(style, raw))
  }

  // ----- Normal forms -----------------------------------------------------

  lemma SeparatorsPointwise(raw: string)
    ensures NormalizeSeparators(raw) == NormalizeChars(raw)
  {
    var n := PrefixLength(raw);
    assert raw == raw[..n] + raw[n..];
  }

  lemma TranslatedShape(raw: string)
    requires TranslateDrivePath(raw).Some?
    ensures StartsWithDrivePrefix(raw)
    ensures var path := TranslateDrivePath(raw).value;
            |path| >= 3 && IsAlpha(path[0]) && path[1] == ':' && path[2] == '\\' && '/' !in path
  {
  }

  /** A Windows path is in normal form exactly when it has no forward slash. */
  lemma NormalExactly(raw: string)
    ensures '/' !in Normalize(Windows, raw)
    ensures Normalize(Windows, raw) == raw <==> '/' !in raw
  {
    SeparatorsPointwise(raw);
    if TranslateDrivePath(raw).Some? {
      TranslatedShape(raw);
      assert '/' in raw by { DrivePrefixHasSlash(raw); }
    } else if '/' !in raw {
      assert NormalizeChars(raw) == raw;
    }
  }

  lemma DrivePrefixHasSlash(raw: string)
    requires StartsWithDrivePrefix(raw)
    ensures raw != [] && raw[0] == '/'
  {
    assert CYGDRIVE[0] == '/';
    if !StartsWithSlashDrive(raw) {
      assert Lower(raw[0]) == CYGDRIVE[0];
    }
  }

  lemma SlashDriveIsDrive(raw: string)
    ensures StartsWithSlashDrive(raw) ==> StartsWithDrivePrefix(raw)
  {
  }

  lemma Idempotent(style: Style, raw: string)
    ensures Normalize(style, Normalize(style, raw)) == Normalize(style, raw)
  {
    if style.Windows? {
      NormalExactly(raw);
      NormalExactly(Normalize(style, raw));
    }
  }

  /** Normalising keeps an absolute path absolute. It makes a relative one
      absolute exactly when that begins with two separators that differ. */
  lemma AbsoluteExactly(style: Style, raw: string)
    ensures IsAbsolute(style, Normalize(style, raw)) <==>
            IsAbsolute(style, raw) || (style.Windows? && |raw| >= 2 && IsSeparator(raw[0]) && IsSeparator(raw[1]))
  {
    if style.Windows? {
      if TranslateDrivePath(raw).Some? {
        TranslatedShape(raw);
      } else {
        SeparatorsPointwise(raw);
        NormalAbsolute(NormalizeChars(raw));
      }
    }
  }

  /** A path in normal form is absolute by its drive or by its UNC prefix. */
  lemma NormalAbsolute(path: string)
    requires '/' !in path
    ensures IsAbsolute(Windows, path) <==> Rooted(path)
  {
    if StartsWithDrivePrefix(path) {
      DrivePrefixHasSlash(path);
      assert false;
    }
  }

  lemma MixedSeparatorsBecomeAbsolute()
    ensures !IsAbsolute(Windows, "/\\x") && Normalize(Windows, "/\\x") == "\\\\x" && IsAbsolute(Windows, "\\\\x")
  {
    var raw := "/\\x";
    assert !StartsWithDrivePrefix(raw);
    SeparatorsPointwise(raw);
    assert NormalizeChars(raw) == "\\\\x";
  }

  // ----- Joins ------------------------------------------------------------

  /** What `Join` returns is in normal form. */
  lemma JoinIsNormal(style: Style, base: string, child: string)
    ensures Normalize(style, Join(style, base, child)) == Join(style, base, child)
  {
    if style.Windows? {
      NormalExactly(base);
      NormalExactly(child);
      NormalExactly(Join(style, base, child));
    }
  }

  predicate RootsAChild(style: Style, base: string, child: string)
    requires child != []
  {
    || IsAbsolute(style, base)
    || (style.Windows? && |base| == 2 && IsAlpha(base[0]) && base[1] == ':')
    || (style.Windows? && base == "\\" && child[0] == '\\')
  }

  /** When a join is absolute: the child is, or the base is; on Windows also when
      the base is a bare drive, or a lone separator before another one. An empty
      child gives the empty path. */
  lemma JoinAbsoluteExactly(style: Style, base: string, child: string)
    ensures var base', child' := Normalize(style, base), Normalize(style, child);
            IsAbsolute(style, Join(style, base, child)) <==>
              IsAbsolute(style, child') || (child' != [] && base' != [] && RootsAChild(style, base', child'))
  {
    if style.Windows? {
      hide Normalize, IsAbsolute;
      var base', child' := Normalize(style, base), Normalize(style, child);
      NormalExactly(base);
      NormalExactly(child);
      NormalAbsolute(base');
      NormalAbsolute(child');
      NormalAbsolute(Join(style, base, child));
      if child' != [] && base' != [] {
        RootedExactly(base', child');
      }
    }
  }

  predicate Rooted(path: string) {
    (|path| >= 3 && IsAlpha(path[0]) && path[1] == ':' && path[2] == '\\') || StartsTwice(path, '\\')
  }

  /** The base with a separator at its end. */
  function Terminated(base: string, sep: char): string
    requires base != []
  {
    if base[|base| - 1] == sep then base else base + [sep]
  }

  lemma RootedExactly(base: string, child: string)
    requires base != [] && child != []
    ensures Rooted(Terminated(base, '\\') + child) <==>
            || Rooted(base)
            || (|base| == 2 && IsAlpha(base[0]) && base[1] == ':')
            || (base == "\\" && child[0] == '\\')
  {
  }

  /** So an absolute base and a child that is not empty make an absolute path. */
  lemma JoinStaysAbsolute(style: Style, base: string, child: string)
    requires IsAbsolute(style, base) && child != []
    ensures IsAbsolute(style, Join(style, base, child))
  {
    AbsoluteExactly(style, base);
    NotEmptied(style, child);
    NotEmptied(style, base);
    JoinAbsoluteExactly(style, base, child);
  }

  lemma NotEmptied(style: Style, raw: string)
    ensures Normalize(style, raw) == [] <==> raw == []
  {
    hide TranslateDrivePath, NormalizeSeparators, NormalizeChars;
    if style.Windows? {
      if TranslateDrivePath(raw).Some? {
        TranslatedNotEmpty(raw);
      } else {
        SeparatorsPointwise(raw);
        SameLength(raw);
      }
    }
  }

  lemma TranslatedNotEmpty(raw: string)
    requires TranslateDrivePath(raw).Some?
    ensures TranslateDrivePath(raw).value != [] && raw != []
  {
    hide BuildDrivePath, TranslateDrivePath, StartsWithDrivePrefix;
    TranslatedShape(raw);
    DrivePrefixHasSlash(raw);
  }

  lemma SameLength(raw: string)
    ensures |NormalizeChars(raw)| == |raw|
  {
  }

  // ----- Base names -------------------------------------------------------

  /** `name` is the part of `s` before its trailing separators and after the one
      before that. */
  predicate IsLastSegment(s: string, sep: char, i: nat, j: nat) {
    && i < j <= |s|
    && sep !in s[i..j]
    && (i == 0 || s[i - 1] == sep)
    && (forall k :: j <= k < |s| ==> s[k] == sep)
  }

  predicate AllAre(s: string, c: char) {
    forall k :: 0 <= k < |s| ==> s[k] == c
  }

  lemma {:induction false} TrimEndExactly(s: string, sep: char) returns (j: nat)
    ensures j <= |s| && TrimEnd(s, {sep}) == s[..j]
    ensures forall k :: j <= k < |s| ==> s[k] == sep
    ensures j > 0 ==> s[j - 1] != sep
  {
    if s != [] && s[|s| - 1] == sep {
      j := TrimEndExactly(s[..|s| - 1], sep);
    } else {
      j := |s|;
      assert s[..j] == s;
    }
  }

  /** The source's search for the last segment that is not empty finds it, and
      finds nothing exactly when there are only separators. */
  lemma LastSegmentFound(s: string, sep: char) returns (i: nat, j: nat)
    ensures LastSegment(s, sep).None? <==> AllAre(s, sep)
    ensures LastSegment(s, sep).Some? ==> IsLastSegment(s, sep, i, j) && LastSegment(s, sep) == Some(s[i..j])
  {
    j := TrimEndExactly(s, sep);
    var t := s[..j];
    var n := SegmentLength(t, sep);
    i := j - n;
    if j > 0 {
      assert s[j - 1] != sep;
      assert RSplit(t, sep)[0] == t[i..];
      assert t[i..] == s[i..j];
      assert FirstNonEmpty(RSplit(t, sep)).Some?;
    } else {
      var segments := RSplit(t, sep);
      assert |segments| == 1 && segments[0] == [];
      assert segments[1..] == [];
      assert FirstNonEmpty(segments) == None;
    }
  }

  lemma InSegment(s: string, sep: char, i: nat, j: nat, k: nat)
    requires i <= k < j <= |s| && sep !in s[i..j]
    ensures s[k] != sep
  {
    assert s[i..j][k - i] == s[k];
  }

  lemma LastSegmentUnique(s: string, sep: char, i: nat, j: nat, i': nat, j': nat)
    requires IsLastSegment(s, sep, i, j) && IsLastSegment(s, sep, i', j')
    ensures i == i' && j == j'
  {
    InSegment(s, sep, i, j, j - 1);
    InSegment(s, sep, i', j', j' - 1);
    if i < i' {
      InSegment(s, sep, i, j, i' - 1);
    } else if i' < i {
      InSegment(s, sep, i', j', i - 1);
    }
  }

  /** The last segment is found where it is. */
  lemma LastSegmentIs(s: string, sep: char, i: nat, j: nat)
    requires IsLastSegment(s, sep, i, j)
    ensures LastSegment(s, sep) == Some(s[i..j])
  {
    InSegment(s, sep, i, j, i);
    var i', j' := LastSegmentFound(s, sep);
    LastSegmentUnique(s, sep, i, j, i', j');
  }

  lemma PrefixNameIs(path: string)
    requires '/' !in path
    ensures PrefixName(path[..PrefixLength(path)]) ==
            if |path| >= 2 && IsAlpha(path[0]) && path[1] == ':' then Some([path[0]]) else None
  {
    var prefix := path[..PrefixLength(path)];
    var drop := {':', '\\'};
    if |prefix| == 2 {
      var first := prefix[..1];
      assert prefix[1] == path[1] && prefix[1] in drop;
      assert TrimEnd(prefix, drop) == TrimEnd(first, drop);
      assert first == [path[0]] && first[..0] == [];
      if IsAlpha(path[0]) {
        assert TrimEnd(first, drop) == first;
        assert TrimStart(first, {'\\'}) == first;
      } else {
        assert TrimEnd(first, drop) == [];
      }
    }
  }

  /** A base name, when there is one, is not empty and has no separator. */
  lemma BasenameIsAName(style: Style, raw: string)
    requires Basename(style, raw).Some?
    ensures var name := Basename(style, raw).value;
            name != [] && Separator(style) !in name && (style.Windows? ==> '/' !in name)
  {
    hide Normalize, LastSegment, PrefixName;
    var path := Normalize(style, raw);
    match style {
      case Posix =>
        var i, j := LastSegmentFound(path, '/');
      case Windows =>
        NormalExactly(raw);
        PrefixNameIs(path);
        var n := PrefixLength(path);
        var i, j := LastSegmentFound(path[n..], '\\');
        if TrimEnd(path[n..], {'\\'}) != [] {
          assert Basename(style, raw).value == path[n..][i..j] == path[n + i..n + j];
        }
    }
  }

  // ----- The name of a join -----------------------------------------------

  /** What stands before a separator does not change the last segment. */
  lemma SegmentAfter(before: string, s: string, sep: char)
    requires before == [] || before[|before| - 1] == sep
    requires LastSegment(s, sep).Some?
    ensures LastSegment(before + s, sep) == LastSegment(s, sep)
  {
    hide LastSegment;
    var i, j := LastSegmentFound(s, sep);
    var k := |before|;
    assert (before + s)[k + i..k + j] == s[i..j];
    LastSegmentIs(before + s, sep, k + i, k + j);
  }

  lemma SegmentWithin(s: string, sep: char)
    requires s != [] && s[0] == sep && LastSegment(s, sep).Some?
    ensures LastSegment(s[1..], sep) == LastSegment(s, sep)
  {
    hide LastSegment;
    var i, j := LastSegmentFound(s, sep);
    InSegment(s, sep, i, j, i);
    assert s[1..][i - 1..j - 1] == s[i..j];
    LastSegmentIs(s[1..], sep, i - 1, j - 1);
  }

  /** A child such as `C:b`: relative to a drive, and its name follows the colon. */
  predicate NamedByDrive(path: string) {
    && |path| >= 2 && IsAlpha(path[0]) && path[1] == ':'
    && !IsAbsolute(Windows, path)
    && '\\' !in TrimEnd(path[2..], {'\\'})
  }

  /** Joined below a base, a Windows child keeps its last segment. */
  lemma JoinedSegment(base: string, child: string)
    requires base != [] && LastSegment(child, '\\').Some?
    ensures var joined := Terminated(base, '\\') + child;
            LastSegment(joined[PrefixLength(joined)..], '\\') == LastSegment(child, '\\')
  {
    hide LastSegment;
    var before := Terminated(base, '\\');
    var joined := before + child;
    var n := PrefixLength(joined);
    if n <= |before| {
      assert joined[n..] == before[n..] + child;
      SegmentAfter(before[n..], child, '\\');
    } else {
      assert joined[n..] == child[1..];
      SegmentWithin(child, '\\');
    }
  }

  /** On Windows the name is the last segment after the prefix, or else the drive. */
  lemma WindowsName(path: string)
    requires '/' !in path
    ensures var n := PrefixLength(path);
            NameOf(Windows, path) ==
              if LastSegment(path[n..], '\\').Some? then LastSegment(path[n..], '\\')
              else if n == 2 && IsAlpha(path[0]) && path[1] == ':' then Some([path[0]])
              else None
  {
    var rest := path[PrefixLength(path)..];
    PrefixNameIs(path);
    var i, j := LastSegmentFound(rest, '\\');
    var k := TrimEndExactly(rest, '\\');
    if k > 0 {
      assert rest[k - 1] != '\\';
    }
  }

  /** Cutting a drive off its relative path changes the last segment exactly
      when the name follows the colon. */
  lemma DriveName(path: string)
    requires '/' !in path && |path| >= 2 && IsAlpha(path[0]) && path[1] == ':' && !IsAbsolute(Windows, path)
    ensures LastSegment(path, '\\').Some?
    ensures LastSegment(path, '\\') == NameOf(Windows, path) <==> !NamedByDrive(path)
  {
    hide LastSegment;
    NormalAbsolute(path);
    WindowsName(path);
    var rest := path[2..];
    var i, j := LastSegmentFound(rest, '\\');
    var k := TrimEndExactly(rest, '\\');
    if rest == [] {
      LastSegmentIs(path, '\\', 0, 2);
    } else {
      InSegment(rest, '\\', i, j, j - 1);
      assert k == j;
      assert forall m :: 0 <= m < |rest| ==> rest[m] == path[m + 2];
      if i == 0 {
        assert rest[..j] == rest[i..j];
        assert '\\' !in path[0..j + 2] by { assert path[0..j + 2] == path[..2] + rest[..j]; }
        LastSegmentIs(path, '\\', 0, j + 2);
      } else {
        assert rest[..j][i - 1] == '\\';
        assert path[i + 2..j + 2] == rest[i..j];
        LastSegmentIs(path, '\\', i + 2, j + 2);
      }
    }
  }

  /** The name of a join is the name of its child, for every child that has one,
      except a drive-relative child named right after the colon, below a base. */
  lemma BasenameOfJoin(style: Style, base: string, child: string)
    requires Basename(style, child).Some?
    ensures Basename(style, Join(style, base, child)) == Basename(style, child) <==>
            !(style.Windows? && Normalize(style, base) != [] && NamedByDrive(Normalize(style, child)))
  {
    hide Normalize, LastSegment, NameOf, IsAbsolute, PrefixName;
    var base', child' := Normalize(style, base), Normalize(style, child);
    var joined := Join(style, base, child);
    JoinIsNormal(style, base, child);
    NameNotEmpty(style, child');
    if base' != [] && !IsAbsolute(style, child') {
      assert joined == Terminated(base', Separator(style)) + child';
      match style {
        case Posix => PosixJoined(base', child');
        case Windows =>
          NormalExactly(base);
          NormalExactly(child);
          WindowsJoined(base', child');
      }
    } else {
      Idempotent(style, child);
    }
  }

  /** Such a child: below `a`, the name of `C:b` is no longer `b`. */
  lemma DriveRelativeChildIsRenamed()
    ensures Join(Windows, "a", "C:b") == "a\\C:b"
    ensures Basename(Windows, "C:b") == Some("b") && Basename(Windows, "a\\C:b") == Some("C:b")
  {
    hide Normalize, NameOf, IsAbsolute;
    NormalExactly("a");
    NormalExactly("C:b");
    NormalExactly("a\\C:b");
    NormalAbsolute("C:b");
    NameOfChild();
    NameOfJoined();
    assert "a" + ['\\'] + "C:b" == "a\\C:b";
  }

  lemma NameOfChild()
    ensures NameOf(Windows, "C:b") == Some("b")
  {
    hide NameOf, LastSegment;
    var child := "C:b";
    WindowsName(child);
    assert PrefixLength(child) == 2 && child[2..] == "b";
    assert "b"[0..1] == "b";
    LastSegmentIs("b", '\\', 0, 1);
  }

  lemma NameOfJoined()
    ensures NameOf(Windows, "a\\C:b") == Some("C:b")
  {
    hide NameOf, LastSegment;
    var joined := "a\\C:b";
    WindowsName(joined);
    assert PrefixLength(joined) == 0 && joined[0..] == joined;
    assert joined[2..5] == "C:b";
    LastSegmentIs(joined, '\\', 2, 5);
  }

  lemma NameNotEmpty(style: Style, path: string)
    requires NameOf(style, path).Some?
    ensures path != []
  {
    if path == [] {
      assert TrimEnd(path, {'/'}) == [] && TrimEnd(path, {'\\'}) == [];
      var i, j := LastSegmentFound(path, '/');
    }
  }

  lemma PosixJoined(base: string, child: string)
    requires base != [] && NameOf(Posix, child).Some?
    ensures NameOf(Posix, Terminated(base, '/') + child) == NameOf(Posix, child)
  {
    hide LastSegment;
    SegmentAfter(Terminated(base, '/'), child, '/');
  }

  lemma WindowsJoined(base: string, child: string)
    requires base != [] && '/' !in base && '/' !in child
    requires NameOf(Windows, child).Some? && !IsAbsolute(Windows, child)
    ensures NameOf(Windows, Terminated(base, '\\') + child) == NameOf(Windows, child) <==> !NamedByDrive(child)
  {
    hide LastSegment, NameOf, PrefixName, IsAbsolute;
    NormalAbsolute(child);
    WindowsName(child);
    if |child| >= 2 && IsAlpha(child[0]) && child[1] == ':' {
      DriveName(child);
    } else {
      assert child[0..] == child;
    }
    JoinedSegment(base, child);
    WindowsName(Terminated(base, '\\') + child);
  }
}
