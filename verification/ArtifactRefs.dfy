/** Relative artifact references: which strings are accepted, and how they relate to path components. */
module ArtifactRefs {
  import opened Wrappers

  // ---------------------------------------------------------------- pure posix paths

  /** value.split("/"): always at least one piece. */
  function Split(s: string): (pieces: seq<string>)
    ensures |pieces| > 0
    ensures forall i :: 0 <= i < |pieces| ==> '/' !in pieces[i]
  {
    if |s| == 0 then [""]
    else
      var rest := Split(s[1..]);
      if s[0] == '/' then [""] + rest else [[s[0]] + rest[0]] + rest[1..]
  }

  function Join(parts: seq<string>): string {
    if |parts| == 0 then "" else if |parts| == 1 then parts[0] else parts[0] + "/" + Join(parts[1..])
  }

  /** Empty and "." components disappear when a path is parsed. */
  function Kept(pieces: seq<string>): seq<string> {
    if |pieces| == 0 then [] else (if pieces[0] in {"", "."} then [] else [pieces[0]]) + Kept(pieces[1..])
  }

  function PathParts(s: string): seq<string> {
    Kept(Split(s))
  }

  /** str(path) of a relative path. */
  function PathText(parts: seq<string>): string {
    if |parts| == 0 then "." else Join(parts)
  }

  predicate IsAbsolute(s: string) {
    |s| > 0 && s[0] == '/'
  }

  // ---------------------------------------------------------------- the validator

  predicate DrivePrefixed(s: string, isAlpha: char -> bool) {
    |s| >= 2 && isAlpha(s[0]) && s[1] == ':'
  }

  /** validate_relative_artifact_ref without allow_current_dir. */
  predicate Accepted(s: string, isAlpha: char -> bool) {
    && '\\' !in s && !DrivePrefixed(s, isAlpha)
    && !IsAbsolute(s)
    && PathParts(s) != [] && ".." !in PathParts(s)
    && PathText(PathParts(s)) == s
  }

  /** A component that names something below its parent. */
  predicate Ordinary(part: string) {
    part !in {"", ".", ".."} && '/' !in part && '\\' !in part
  }

  predicate AllOrdinary(parts: seq<string>) {
    forall i :: 0 <= i < |parts| ==> Ordinary(parts[i])
  }

  // ---------------------------------------------------------------- split and join

  lemma {:induction false} JoinSplit(s: string)
    ensures Join(Split(s)) == s
  {
    if |s| > 0 {
      JoinSplit(s[1..]);
      var rest := Split(s[1..]);
      if s[0] == '/' {
        assert ([""] + rest)[1..] == rest;
      } else {
        assert ([[s[0]] + rest[0]] + rest[1..])[1..] == rest[1..];
      }
    }
  }

  lemma {:induction false} SplitOne(s: string)
    requires '/' !in s
    ensures Split(s) == [s]
  {
    if |s| > 0 {
      SplitOne(s[1..]);
      assert [s[0]] + s[1..] == s;
    }
  }

  lemma {:induction false} SplitCons(part: string, rest: string)
    requires '/' !in part
    ensures Split(part + "/" + rest) == [part] + Split(rest)
  {
    var s := part + "/" + rest;
    if |part| == 0 {
      assert s[1..] == rest;
    } else {
      SplitCons(part[1..], rest);
      assert s[1..] == part[1..] + "/" + rest;
      assert [part[0]] + part[1..] == part;
    }
  }

  lemma {:induction false} SplitJoin(parts: seq<string>)
    requires |parts| > 0 && forall i :: 0 <= i < |parts| ==> '/' !in parts[i]
    ensures Split(Join(parts)) == parts
  {
    if |parts| == 1 {
      SplitOne(parts[0]);
    } else {
      SplitJoin(parts[1..]);
      SplitCons(parts[0], Join(parts[1..]));
    }
  }

  lemma {:induction false} KeptOrdinary(parts: seq<string>)
    requires forall i :: 0 <= i < |parts| ==> parts[i] !in {"", "."}
    ensures Kept(parts) == parts
  {
    if |parts| > 0 {
      KeptOrdinary(parts[1..]);
    }
  }

  lemma {:induction false} KeptIsClean(pieces: seq<string>)
    ensures forall i :: 0 <= i < |Kept(pieces)| ==> Kept(pieces)[i] !in {"", "."} && Kept(pieces)[i] in pieces
  {
    if |pieces| > 0 {
      KeptIsClean(pieces[1..]);
    }
  }

  lemma {:induction false} JoinChars(parts: seq<string>, i: nat, c: char)
    requires i < |parts| && c in parts[i]
    ensures c in Join(parts)
  {
    if i > 0 {
      JoinChars(parts[1..], i - 1, c);
    }
  }

  lemma {:induction false} JoinHasOnly(parts: seq<string>, c: char)
    requires c != '/' && forall i :: 0 <= i < |parts| ==> c !in parts[i]
    ensures c !in Join(parts)
  {
    if |parts| > 1 {
      JoinHasOnly(parts[1..], c);
    }
  }

  // ---------------------------------------------------------------- what is accepted

  /** Parsing an ordinary path's text gives its components back. */
  lemma PartsOfJoin(parts: seq<string>)
    requires |parts| > 0 && AllOrdinary(parts)
    ensures PathParts(Join(parts)) == parts && !IsAbsolute(Join(parts)) && '\\' !in Join(parts)
  {
    SplitJoin(parts);
    KeptOrdinary(parts);
    JoinHasOnly(parts, '\\');
    assert Ordinary(parts[0]) && parts[0] != "";
    assert Join(parts)[0] == parts[0][0];
  }

  lemma AcceptedParts(s: string, isAlpha: char -> bool)
    requires Accepted(s, isAlpha)
    ensures AllOrdinary(PathParts(s)) && |PathParts(s)| > 0 && s == Join(PathParts(s))
  {
    var parts := PathParts(s);
    KeptIsClean(Split(s));
    forall i | 0 <= i < |parts| ensures Ordinary(parts[i]) {
      assert parts[i] in Split(s);
      if '\\' in parts[i] {
        JoinChars(parts, i, '\\');
        assert false;
      }
    }
  }

  /** The accepted strings are exactly the printed ordinary paths, short of one that looks like a drive. */
  lemma AcceptedIffOrdinaryPath(s: string, isAlpha: char -> bool)
    ensures Accepted(s, isAlpha)
       <==> !DrivePrefixed(s, isAlpha) && exists parts :: |parts| > 0 && AllOrdinary(parts) && s == Join(parts)
  {
    if Accepted(s, isAlpha) {
      AcceptedParts(s, isAlpha);
    }
    forall parts | |parts| > 0 && AllOrdinary(parts) && s == Join(parts) && !DrivePrefixed(s, isAlpha)
      ensures Accepted(s, isAlpha)
    {
      PartsOfJoin(parts);
    }
  }

  lemma {:induction false} JoinAppend(a: seq<string>, b: seq<string>)
    requires |a| > 0 && |b| > 0
    ensures Join(a + b) == Join(a) + "/" + Join(b)
  {
    if |a| == 1 {
      assert (a + b)[1..] == b;
    } else {
      JoinAppend(a[1..], b);
      assert (a + b)[1..] == a[1..] + b;
      assert Join(a + b) == a[0] + "/" + (Join(a[1..]) + "/" + Join(b));
    }
  }

  /** A reference below a reference is a reference, with the components of both. */
  lemma NestedRefIsAccepted(a: string, b: string, isAlpha: char -> bool)
    requires Accepted(a, isAlpha) && Accepted(b, isAlpha)
    ensures Accepted(a + "/" + b, isAlpha) && PathParts(a + "/" + b) == PathParts(a) + PathParts(b)
  {
    AcceptedParts(a, isAlpha);
    AcceptedParts(b, isAlpha);
    var parts := PathParts(a) + PathParts(b);
    JoinAppend(PathParts(a), PathParts(b));
    PartsOfJoin(parts);
    AcceptedIffOrdinaryPath(a + "/" + b, isAlpha);
  }

  // ---------------------------------------------------------------- resolving below a root

  /** resolve_relative_artifact_ref, with no symbolic links below the root. */
  function Resolve(root: seq<string>, ref: string): seq<string> {
    root + PathParts(ref)
  }

  predicate Below(path: seq<string>, root: seq<string>) {
    root <= path
  }

  /** str(path.relative_to(root)). */
  function RelativeTo(path: seq<string>, root: seq<string>): string
    requires Below(path, root)
  {
    PathText(path[|root|..])
  }

  /** An accepted reference survives the trip to a path and back; the path is a proper descendant of the root. */
  lemma ResolvedRefReadsBack(root: seq<string>, ref: string, isAlpha: char -> bool)
    requires Accepted(ref, isAlpha)
    ensures var path := Resolve(root, ref);
      Below(path, root) && path != root && RelativeTo(path, root) == ref
  {
    assert (root + PathParts(ref))[|root|..] == PathParts(ref);
  }

  /** Distinct accepted references never resolve to the same place. */
  lemma ResolveIsInjective(root: seq<string>, a: string, b: string, isAlpha: char -> bool)
    requires Accepted(a, isAlpha) && Accepted(b, isAlpha) && Resolve(root, a) == Resolve(root, b)
    ensures a == b
  {
    ResolvedRefReadsBack(root, a, isAlpha);
    ResolvedRefReadsBack(root, b, isAlpha);
  }

  /** _validate_ref_under_artifact_dir. */
  predicate UnderDir(dir: string, ref: string) {
    && PathParts(dir) != [] && |PathParts(ref)| > |PathParts(dir)|
    && PathParts(ref)[..|PathParts(dir)|] == PathParts(dir)
  }

  lemma FileUnderDir(dir: string, file: string, isAlpha: char -> bool)
    requires Accepted(dir, isAlpha) && Accepted(file, isAlpha)
    ensures UnderDir(dir, dir + "/" + file)
  {
    NestedRefIsAccepted(dir, file, isAlpha);
    AcceptedParts(file, isAlpha);
  }

  /** An ordinary file name of two letters or more is a reference on its own. */
  lemma PlainFileIsAccepted(file: string, isAlpha: char -> bool)
    requires Ordinary(file) && |file| >= 2 && file[1] != ':'
    ensures Accepted(file, isAlpha) && PathParts(file) == [file]
  {
    assert Join([file]) == file;
    PartsOfJoin([file]);
    AcceptedIffOrdinaryPath(file, isAlpha);
  }

  /** A file directly inside a referenced directory, named relative to the root. */
  lemma FileInRef(root: seq<string>, dir: string, file: string, isAlpha: char -> bool)
    requires Accepted(dir, isAlpha) && Ordinary(file) && |file| >= 2 && file[1] != ':'
    ensures Below(Resolve(root, dir) + [file], root)
    ensures var ref := RelativeTo(Resolve(root, dir) + [file], root); Accepted(ref, isAlpha) && UnderDir(dir, ref)
  {
    PlainFileIsAccepted(file, isAlpha);
    NestedRefIsAccepted(dir, file, isAlpha);
    FileUnderDir(dir, file, isAlpha);
    ResolvedRefReadsBack(root, dir + "/" + file, isAlpha);
    assert Resolve(root, dir + "/" + file) == Resolve(root, dir) + [file];
  }

  /** What stands behind the first component of a reference. */
  lemma BehindFirst(first: string, rest: string, isAlpha: char -> bool)
    requires '/' !in first && Accepted(first + "/" + rest, isAlpha)
    ensures |Split(rest)| > 0 && AllOrdinary(Split(rest)) && rest == Join(Split(rest))
    ensures PathParts(first + "/" + rest) == [first] + Split(rest)
  {
    var s := first + "/" + rest;
    AcceptedParts(s, isAlpha);
    SplitJoin(PathParts(s));
    SplitCons(first, rest);
    assert Split(s) == PathParts(s) == [first] + Split(rest);
    forall i | 0 <= i < |Split(rest)| ensures Ordinary(Split(rest)[i]) {
      assert PathParts(s)[i + 1] == Split(rest)[i];
    }
    JoinSplit(rest);
  }

  lemma {:induction false} JoinLastSuffix(parts: seq<string>, suffix: string)
    requires |parts| > 0
    ensures Join(parts) + suffix == Join(parts[..|parts| - 1] + [parts[|parts| - 1] + suffix])
  {
    var longer := parts[..|parts| - 1] + [parts[|parts| - 1] + suffix];
    if |parts| > 1 {
      JoinLastSuffix(parts[1..], suffix);
      assert longer[1..] == parts[1..][..|parts| - 2] + [parts[1..][|parts| - 2] + suffix];
      assert Join(parts) + suffix == parts[0] + "/" + (Join(parts[1..]) + suffix);
    }
  }

  /** A slash-free suffix lengthens the last component. */
  lemma SplitSuffixed(s: string, suffix: string)
    requires '/' !in suffix
    ensures var pieces := Split(s); Split(s + suffix) == pieces[..|pieces| - 1] + [pieces[|pieces| - 1] + suffix]
  {
    var pieces := Split(s);
    var longer := pieces[..|pieces| - 1] + [pieces[|pieces| - 1] + suffix];
    JoinSplit(s);
    JoinLastSuffix(pieces, suffix);
    SplitJoin(longer);
  }

  /** A name accepted below one directory stays accepted below another, with an ordinary suffix. */
  lemma SuffixedElsewhere(first: string, other: string, rest: string, suffix: string, isAlpha: char -> bool)
    requires '/' !in first && Accepted(first + "/" + rest, isAlpha)
    requires Ordinary(other) && |other| >= 2 && other[1] != ':'
    requires Ordinary(suffix) && |suffix| >= 3
    ensures Accepted(other + "/" + rest + suffix, isAlpha)
  {
    BehindFirst(first, rest, isAlpha);
    var parts := Split(rest);
    JoinLastSuffix(parts, suffix);
    var longer := parts[..|parts| - 1] + [parts[|parts| - 1] + suffix];
    var last := parts[|parts| - 1] + suffix;
    assert Ordinary(parts[|parts| - 1]);
    assert |last| >= 4;
    assert Ordinary(last);
    assert AllOrdinary(longer) by {
      forall i | 0 <= i < |longer| - 1 ensures Ordinary(longer[i]) {
        assert longer[i] == parts[i];
      }
    }
    OrdinaryBelow(other, longer, isAlpha);
    assert other + "/" + (rest + suffix) == other + "/" + rest + suffix;
  }

  lemma OrdinaryBelow(first: string, parts: seq<string>, isAlpha: char -> bool)
    requires Ordinary(first) && |first| >= 2 && first[1] != ':' && |parts| > 0 && AllOrdinary(parts)
    ensures Accepted(first + "/" + Join(parts), isAlpha)
  {
    var all := [first] + parts;
    assert all[1..] == parts;
    assert Join(all) == first + "/" + Join(parts);
    assert AllOrdinary(all);
    assert Join(all)[1] == first[1];
    AcceptedIffOrdinaryPath(Join(all), isAlpha);
  }

  /** Ordinary up to its last component, which may be anything without a backslash. */
  predicate PrefixFits(name: string) {
    && '\\' !in name
    && forall i :: 0 <= i < |Split(name)| - 1 ==> Ordinary(Split(name)[i])
  }

  /** A name that gets an ordinary suffix makes a reference below a directory exactly when it is ordinary up to there. */
  lemma SuffixedBelowIff(first: string, name: string, suffix: string, isAlpha: char -> bool)
    requires Ordinary(first) && |first| >= 2 && first[1] != ':' && Ordinary(suffix) && |suffix| >= 3
    ensures Accepted(first + "/" + (name + suffix), isAlpha) <==> PrefixFits(name)
  {
    var pieces := Split(name);
    var last := pieces[|pieces| - 1];
    var longer := pieces[..|pieces| - 1] + [last + suffix];
    SplitSuffixed(name, suffix);
    JoinSplit(name);
    JoinSplit(name + suffix);
    if Accepted(first + "/" + (name + suffix), isAlpha) {
      BehindFirst(first, name + suffix, isAlpha);
      forall i | 0 <= i < |pieces| - 1 ensures Ordinary(pieces[i]) {
        assert longer[i] == pieces[i];
      }
      assert Ordinary(longer[|pieces| - 1]);
      JoinHasOnly(pieces, '\\');
    }
    if PrefixFits(name) {
      assert AllOrdinary(longer) by {
        if '\\' in last {
          JoinChars(pieces, |pieces| - 1, '\\');
          assert false;
        }
        assert Ordinary(last + suffix);
      }
      OrdinaryBelow(first, longer, isAlpha);
    }
  }

  // ---------------------------------------------------------------- joining a name to a directory

  /** A PurePosixPath with a root; exactly two leading slashes are a root of their own. */
  datatype PurePath = Rooted(parts: seq<string>) | DoubleRooted(parts: seq<string>)

  predicate DoubleSlashed(s: string) {
    |s| >= 2 && s[0] == '/' && s[1] == '/' && (|s| == 2 || s[2] != '/')
  }

  /** base / s: an absolute s replaces the base. */
  function JoinedTo(base: seq<string>, s: string): PurePath {
    if !IsAbsolute(s) then Rooted(base + PathParts(s))
    else if DoubleSlashed(s) then DoubleRooted(PathParts(s))
    else Rooted(PathParts(s))
  }

  /** str(path.relative_to(root)); None where it raises. */
  function RefFrom(root: seq<string>, p: PurePath): Option<string> {
    if p.Rooted? && root <= p.parts then Some(PathText(p.parts[|root|..])) else None
  }

  /** Parent components taken back, as resolving does without symbolic links. */
  function Collapse(parts: seq<string>): seq<string> {
    if |parts| == 0 then []
    else
      var front, last := Collapse(parts[..|parts| - 1]), parts[|parts| - 1];
      if last != ".." then front + [last] else if |front| == 0 then [] else front[..|front| - 1]
  }

  /** path.resolve(). */
  function Located(p: PurePath): seq<string> {
    Collapse(p.parts)
  }

  lemma {:induction false} CollapseClean(parts: seq<string>)
    requires ".." !in parts
    ensures Collapse(parts) == parts
  {
    if |parts| > 0 {
      var n := |parts| - 1;
      assert parts == parts[..n] + [parts[n]];
      CollapseClean(parts[..n]);
    }
  }

  lemma {:induction false} KeptConcat(a: seq<string>, b: seq<string>)
    ensures Kept(a + b) == Kept(a) + Kept(b)
  {
    if |a| == 0 {
      assert a + b == b;
    } else {
      KeptConcat(a[1..], b);
      assert (a + b)[0] == a[0] && (a + b)[1..] == a[1..] + b;
      var head := if a[0] in {"", "."} then [] else [a[0]];
      KeptCons(a);
      KeptCons(a + b);
      assert head + (Kept(a[1..]) + Kept(b)) == head + Kept(a[1..]) + Kept(b);
    }
  }

  lemma KeptCons(a: seq<string>)
    requires |a| > 0
    ensures Kept(a) == (if a[0] in {"", "."} then [] else [a[0]]) + Kept(a[1..])
  {
  }

  /** What a name keeps of its components before the last, and the last as it stands. */
  function Front(name: string): seq<string> {
    Kept(Split(name)[..|Split(name)| - 1])
  }

  function Last(name: string): string {
    Split(name)[|Split(name)| - 1]
  }

  lemma PartsOfSuffixed(name: string, suffix: string)
    requires Ordinary(suffix) && |suffix| >= 3
    ensures PathParts(name + suffix) == Front(name) + [Last(name) + suffix]
  {
    SplitSuffixed(name, suffix);
    KeptConcat(Split(name)[..|Split(name)| - 1], [Last(name) + suffix]);
    assert Kept([Last(name) + suffix]) == [Last(name) + suffix];
  }

  /** The text of kept components is accepted when all of them are ordinary and it does not look like a drive. */
  lemma AcceptedTextIff(parts: seq<string>, isAlpha: char -> bool)
    requires |parts| > 0 && forall i :: 0 <= i < |parts| ==> parts[i] !in {"", "."} && '/' !in parts[i]
    ensures Accepted(PathText(parts), isAlpha) <==> AllOrdinary(parts) && !DrivePrefixed(Join(parts), isAlpha)
  {
    SplitJoin(parts);
    KeptOrdinary(parts);
    if Accepted(Join(parts), isAlpha) {
      AcceptedParts(Join(parts), isAlpha);
    }
    if AllOrdinary(parts) {
      PartsOfJoin(parts);
    }
  }

  lemma FrontIsKept(name: string)
    ensures forall i :: 0 <= i < |Front(name)| ==> Front(name)[i] !in {"", "."} && '/' !in Front(name)[i]
    ensures '/' !in Last(name)
  {
    var pieces := Split(name)[..|Split(name)| - 1];
    KeptIsClean(pieces);
    forall i | 0 <= i < |Front(name)| ensures '/' !in Front(name)[i] {
      var j :| 0 <= j < |pieces| && pieces[j] == Front(name)[i];
      assert pieces[j] == Split(name)[j];
    }
  }
}
