/**
 Where a calibration puts its runs: a task id with a suffix, joined to a folder of the output directory.  An id may
 have components of its own; what the manifest lists is the directory relative to the output directory.
 */
module ControlPaths {
  import opened Wrappers
  import opened ArtifactRefs

  // ---------------------------------------------------------------- which ids can be listed

  /** A component that stays below its parent and can be written down. */
  predicate GoodPart(part: string) {
    part != ".." && '\\' !in part
  }

  predicate AllGood(parts: seq<string>) {
    forall i :: 0 <= i < |parts| ==> GoodPart(parts[i])
  }

  /**
   No backslash, and no parent component before the last.  An absolute id has to lead into the output directory, and
   what is left of it must not begin like a drive.
   */
  predicate IdFits(root: seq<string>, id: string, isAlpha: char -> bool) {
    && '\\' !in Last(id)
    && if !IsAbsolute(id) then AllGood(Front(id))
       else
         && !DoubleSlashed(id) && root <= Front(id)
         && AllGood(Front(id)[|root|..])
         && !DrivePrefixed((Front(id)[|root|..] + [Last(id)])[0], isAlpha)
  }

  /** A tag that is put behind an id. */
  predicate Tag(suffix: string) {
    Ordinary(suffix) && |suffix| >= 3 && suffix[0] == '_' && suffix[1] == '_'
  }

  /** A folder of the output directory. */
  predicate PlainFolder(folder: string) {
    Ordinary(folder) && |folder| >= 2 && folder[1] != ':'
  }

  function TaggedPath(root: seq<string>, folder: string, id: string, suffix: string): PurePath {
    JoinedTo(root + [folder], id + suffix)
  }

  lemma TaggedIsAbsolute(id: string, suffix: string)
    requires Tag(suffix)
    ensures IsAbsolute(id + suffix) <==> IsAbsolute(id)
    ensures IsAbsolute(id) ==> (DoubleSlashed(id + suffix) <==> DoubleSlashed(id))
  {
    var s := id + suffix;
    assert |id| >= 1 ==> s[0] == id[0];
    assert |id| >= 2 ==> s[1] == id[1];
    assert |id| >= 3 ==> s[2] == id[2];
    assert |id| == 0 ==> s[0] == suffix[0];
    assert |id| == 1 ==> s[1] == suffix[0];
    assert |id| == 2 ==> s[2] == suffix[0];
  }

  /** The components of a tagged path. */
  function TaggedParts(root: seq<string>, folder: string, id: string, suffix: string): seq<string> {
    (if IsAbsolute(id) then [] else root + [folder]) + Front(id) + [Last(id) + suffix]
  }

  lemma TaggedPathIs(root: seq<string>, folder: string, id: string, suffix: string)
    requires Tag(suffix)
    ensures TaggedPath(root, folder, id, suffix) ==
      if IsAbsolute(id) && DoubleSlashed(id) then DoubleRooted(TaggedParts(root, folder, id, suffix))
      else Rooted(TaggedParts(root, folder, id, suffix))
  {
    TaggedIsAbsolute(id, suffix);
    PartsOfSuffixed(id, suffix);
  }

  lemma LastIsOrdinaryIff(id: string, suffix: string)
    requires Tag(suffix)
    ensures Ordinary(Last(id) + suffix) <==> '\\' !in Last(id)
    ensures Last(id) + suffix !in {"", ".", ".."} && '/' !in Last(id) + suffix
  {
    FrontIsKept(id);
    assert |Last(id) + suffix| >= 3;
    if '\\' in Last(id) {
      var i :| 0 <= i < |Last(id)| && Last(id)[i] == '\\';
      assert (Last(id) + suffix)[i] == '\\';
    }
  }

  lemma GoodIsOrdinary(id: string)
    ensures forall i :: 0 <= i < |Front(id)| ==> (Ordinary(Front(id)[i]) <==> GoodPart(Front(id)[i]))
  {
    FrontIsKept(id);
  }

  /** What a path begins with decides whether it looks like a drive. */
  lemma DriveIsInTheFirst(parts: seq<string>, suffix: string, isAlpha: char -> bool)
    requires |parts| > 0 && Tag(suffix) && forall i :: 0 <= i < |parts| - 1 ==> parts[i] != ""
    ensures var n := |parts| - 1; DrivePrefixed(Join(parts[..n] + [parts[n] + suffix]), isAlpha) <==> DrivePrefixed(parts[0], isAlpha)
  {
    var n := |parts| - 1;
    var all := parts[..n] + [parts[n] + suffix];
    var text := Join(all);
    if n == 0 {
      assert all == [parts[0] + suffix] && text == parts[0] + suffix;
    } else {
      assert all[0] == parts[0] && text == parts[0] + "/" + Join(all[1..]);
      JoinIsLong(all[1..]);
    }
  }

  lemma {:induction false} JoinIsLong(parts: seq<string>)
    requires |parts| > 0 && |parts[|parts| - 1]| > 0
    ensures |Join(parts)| > 0
  {
    if |parts| > 1 {
      JoinIsLong(parts[1..]);
    }
  }

  /** The directory of a tagged id can be listed exactly when the id fits, whatever the tag and the folder. */
  lemma ListedIffFits(root: seq<string>, folder: string, id: string, suffix: string, isAlpha: char -> bool)
    requires Tag(suffix) && PlainFolder(folder)
    ensures var ref := RefFrom(root, TaggedPath(root, folder, id, suffix));
      ref.Some? && Accepted(ref.value, isAlpha) <==> IdFits(root, id, isAlpha)
  {
    TaggedPathIs(root, folder, id, suffix);
    if IsAbsolute(id) {
      if !DoubleSlashed(id) {
        AbsoluteListedIff(root, folder, id, suffix, isAlpha);
      }
    } else {
      RelativeListedIff(root, folder, id, suffix, isAlpha);
    }
  }

  lemma RelativeListedIff(root: seq<string>, folder: string, id: string, suffix: string, isAlpha: char -> bool)
    requires Tag(suffix) && PlainFolder(folder) && !IsAbsolute(id)
    ensures var ref := RefFrom(root, Rooted(TaggedParts(root, folder, id, suffix)));
      && ref == Some(PathText([folder] + Front(id) + [Last(id) + suffix]))
      && (Accepted(ref.value, isAlpha) <==> IdFits(root, id, isAlpha))
  {
    var below := [folder] + Front(id) + [Last(id) + suffix];
    assert TaggedParts(root, folder, id, suffix) == root + below;
    FrontIsKept(id);
    GoodIsOrdinary(id);
    LastIsOrdinaryIff(id, suffix);
    AcceptedTextIff(below, isAlpha);
    assert Join(below) == folder + "/" + Join(below[1..]);
    assert !DrivePrefixed(Join(below), isAlpha);
    assert below[|below| - 1] == Last(id) + suffix;
    assert forall i :: 0 <= i < |Front(id)| ==> below[i + 1] == Front(id)[i];
    if AllOrdinary(below) {
      forall i | 0 <= i < |Front(id)| ensures GoodPart(Front(id)[i]) {
        assert Ordinary(below[i + 1]);
      }
    }
    if AllGood(Front(id)) && '\\' !in Last(id) {
      forall i | 0 <= i < |below| ensures Ordinary(below[i]) {
        if 0 < i < |below| - 1 {
          assert below[i] == Front(id)[i - 1];
        }
      }
    }
  }

  lemma AbsoluteListedIff(root: seq<string>, folder: string, id: string, suffix: string, isAlpha: char -> bool)
    requires Tag(suffix) && IsAbsolute(id) && !DoubleSlashed(id)
    ensures var ref := RefFrom(root, Rooted(TaggedParts(root, folder, id, suffix)));
      ref.Some? && Accepted(ref.value, isAlpha) <==> IdFits(root, id, isAlpha)
  {
    var parts := TaggedParts(root, folder, id, suffix);
    var n := |Front(id)|;
    assert parts == Front(id) + [Last(id) + suffix];
    if root <= parts {
      if |root| == n + 1 {
        assert parts[|root|..] == [];
        CurrentDirIsRefused(isAlpha);
        assert !(root <= Front(id));
      } else {
        assert root == parts[..|root|] == Front(id)[..|root|];
        BelowRootListedIff(Front(id)[|root|..], id, suffix, isAlpha, |root|);
        assert parts[|root|..] == Front(id)[|root|..] + [Last(id) + suffix];
      }
    }
  }

  lemma CurrentDirIsRefused(isAlpha: char -> bool)
    ensures !Accepted(PathText([]), isAlpha)
  {
    SplitOne(".");
    assert Kept(["."]) == [];
  }

  lemma BelowRootListedIff(rest: seq<string>, id: string, suffix: string, isAlpha: char -> bool, skipped: nat)
    requires Tag(suffix) && skipped <= |Front(id)| && rest == Front(id)[skipped..]
    ensures Accepted(PathText(rest + [Last(id) + suffix]), isAlpha) <==>
      '\\' !in Last(id) && AllGood(rest) && !DrivePrefixed((rest + [Last(id)])[0], isAlpha)
  {
    var all := rest + [Last(id) + suffix];
    FrontIsKept(id);
    GoodIsOrdinary(id);
    LastIsOrdinaryIff(id, suffix);
    assert forall i :: 0 <= i < |rest| ==> rest[i] == Front(id)[skipped + i];
    AcceptedTextIff(all, isAlpha);
    var bare := rest + [Last(id)];
    DriveIsInTheFirst(bare, suffix, isAlpha);
    assert bare[..|rest|] == rest && bare[|rest|] == Last(id);
    assert all[|rest|] == Last(id) + suffix;
    if AllOrdinary(all) {
      forall i | 0 <= i < |rest| ensures GoodPart(rest[i]) {
        assert Ordinary(all[i]) && all[i] == rest[i];
      }
    }
    if AllGood(rest) && '\\' !in Last(id) {
      forall i | 0 <= i < |all| ensures Ordinary(all[i]) {
        if i < |rest| {
          assert all[i] == rest[i];
        }
      }
    }
  }

  /** A path whose id fits is where it says. */
  lemma FittingIsLocated(root: seq<string>, folder: string, id: string, suffix: string, isAlpha: char -> bool)
    requires Tag(suffix) && PlainFolder(folder) && IdFits(root, id, isAlpha) && ".." !in root
    ensures Located(TaggedPath(root, folder, id, suffix)) == TaggedParts(root, folder, id, suffix)
  {
    TaggedPathIs(root, folder, id, suffix);
    LastIsOrdinaryIff(id, suffix);
    var parts := TaggedParts(root, folder, id, suffix);
    if IsAbsolute(id) {
      assert Front(id) == root + Front(id)[|root|..];
    }
    assert ".." !in parts;
    CollapseClean(parts);
  }
}
