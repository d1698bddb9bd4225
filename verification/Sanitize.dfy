/** `sanitizeArchivePath`: which paths it accepts, and what it turns them into. */
module Sanitize {
  import opened Model
  import opened Paths

  /** Every backslash turned into a slash. */
  function Normalized(p: string): (n: string)
    ensures |n| == |p|
  {
    seq(|p|, i requires 0 <= i < |p| => if p[i] == '\\' then '/' else p[i])
  }

  /** The stack `path.Clean` keeps while it reads segments from left to right. */
  function CleanWalk(segs: seq<string>, stack: seq<string>, rooted: bool): seq<string> {
    if segs == [] then stack
    else
      var next :=
        if segs[0] == "" || segs[0] == "." then stack
        else if segs[0] != ".." then stack + [segs[0]]
        else if stack != [] && stack[|stack| - 1] != ".." then stack[..|stack| - 1]
        else if rooted then stack
        else stack + [".."];
      CleanWalk(segs[1..], next, rooted)
  }

  /** `path.Clean`. */
  function Clean(p: string): string {
    var rooted := p != "" && p[0] == '/';
    var stack := CleanWalk(Split(p), [], rooted);
    if rooted then "/" + Join(stack) else if stack == [] then "." else Join(stack)
  }

  predicate BadSegment(seg: string) {
    seg == "" || seg == "." || seg == ".."
  }

  predicate HasDriveLetter(p: string) {
    |p| >= 2 && p[1] == ':'
  }

  /** The function as written: `None` is the error return. */
  function Sanitize(p: string): Option<string> {
    if p == "" then None
    else
      var normalized := Normalized(p);
      if '\0' in normalized then None
      else if HasDriveLetter(normalized) then None
      else
        var clean := Clean(normalized);
        var cleaned := if clean != "" && clean[0] == '/' then clean[1..] else clean;
        if cleaned == "." || cleaned == ".." || "../" <= cleaned || normalized[0] == '/' then None
        else if exists seg :: seg in Split(cleaned) && BadSegment(seg) then None
        else Some(cleaned)
  }

  // ----- the reference: a walk that must stay inside the archive root -----

  /** Follows the segments from the folder `stack`; `None` once it climbs above the root. */
  function Walk(segs: seq<string>, stack: seq<string>): Option<seq<string>> {
    if segs == [] then Some(stack)
    else if segs[0] == "" || segs[0] == "." then Walk(segs[1..], stack)
    else if segs[0] != ".." then Walk(segs[1..], stack + [segs[0]])
    else if stack == [] then None
    else Walk(segs[1..], stack[..|stack| - 1])
  }

  /** What an acceptable path is: relative, free of NUL and of a drive letter, and leading
      strictly below the root without ever leaving it. */
  function Destination(p: string): Option<seq<string>> {
    var n := Normalized(p);
    if p == "" || '\0' in n || HasDriveLetter(n) || n[0] == '/' then None
    else
      match Walk(Split(n), [])
      case None => None
      case Some(stack) => if stack == [] then None else Some(stack)
  }

  predicate GoodSegments(segs: seq<string>) {
    forall i :: 0 <= i < |segs| ==> SlashFree(segs[i]) && !BadSegment(segs[i])
  }

  lemma {:induction false} WalkKeepsGood(segs: seq<string>, stack: seq<string>)
    requires AllSlashFree(segs) && GoodSegments(stack)
    ensures Walk(segs, stack).Some? ==>
              GoodSegments(Walk(segs, stack).value) && CleanWalk(segs, stack, false) == Walk(segs, stack).value
    ensures Walk(segs, stack).None? ==>
              CleanWalk(segs, stack, false) != [] && CleanWalk(segs, stack, false)[0] == ".."
    ensures AllSlashFree(CleanWalk(segs, stack, false))
  {
    if segs != [] {
      if segs[0] == "" || segs[0] == "." {
        WalkKeepsGood(segs[1..], stack);
      } else if segs[0] != ".." {
        WalkKeepsGood(segs[1..], stack + [segs[0]]);
      } else if stack == [] {
        assert stack + [".."] == [".."];
        BottomStays(segs[1..], [".."]);
      } else {
        WalkKeepsGood(segs[1..], stack[..|stack| - 1]);
      }
    }
  }

  /** A `..` at the bottom of the stack is never popped. */
  lemma {:induction false} BottomStays(segs: seq<string>, stack: seq<string>)
    requires AllSlashFree(segs) && AllSlashFree(stack) && stack != [] && stack[0] == ".."
    ensures var out := CleanWalk(segs, stack, false); AllSlashFree(out) && out != [] && out[0] == ".."
  {
    if segs != [] {
      if segs[0] == "" || segs[0] == "." {
        BottomStays(segs[1..], stack);
      } else if segs[0] != ".." {
        BottomStays(segs[1..], stack + [segs[0]]);
      } else if stack[|stack| - 1] != ".." {
        BottomStays(segs[1..], stack[..|stack| - 1]);
      } else {
        BottomStays(segs[1..], stack + [".."]);
      }
    }
  }

  /** A rooted walk never climbs: what it leaves are plain segments. */
  lemma {:induction false} RootedKeepsGood(segs: seq<string>, stack: seq<string>)
    requires AllSlashFree(segs) && GoodSegments(stack)
    ensures GoodSegments(CleanWalk(segs, stack, true))
  {
    if segs != [] {
      if segs[0] == "" || segs[0] == "." {
        RootedKeepsGood(segs[1..], stack);
      } else if segs[0] != ".." {
        RootedKeepsGood(segs[1..], stack + [segs[0]]);
      } else if stack != [] {
        RootedKeepsGood(segs[1..], stack[..|stack| - 1]);
      } else {
        RootedKeepsGood(segs[1..], stack);
      }
    }
  }

  /** Cleaning a rooted path gives a slash and plain segments, however often it climbs; that is why
      rooted paths have to be refused by what they were, not by what they become. */
  lemma {:induction false} RootedIsClean(p: string)
    requires p != "" && p[0] == '/'
    ensures Clean(p) == "/" || (Clean(p)[0] == '/' && GoodSegments(Split(Clean(p)[1..])))
  {
    JoinSplit(p);
    var stack := CleanWalk(Split(p), [], true);
    RootedKeepsGood(Split(p), []);
    if stack != [] {
      SplitJoin(stack);
      assert ("/" + Join(stack))[1..] == Join(stack);
    }
  }

  lemma {:induction false} FirstSegment(q: string)
    ensures "../" <= q ==> Split(q)[0] == ".."
    ensures q != "" && q[0] == '/' ==> Split(q)[0] == ""
  {
    if "../" <= q {
      SplitPrefix("..", q[3..]);
      assert q == ".." + "/" + q[3..];
    }
  }

  lemma {:induction false} JoinGood(segs: seq<string>)
    requires segs != [] && GoodSegments(segs)
    ensures var q := Join(segs);
            && Split(q) == segs && q != "" && q[0] != '/' && q != "." && q != ".." && !("../" <= q)
  {
    SplitJoin(segs);
    FirstSegment(Join(segs));
    SplitSlashFree(".");
    SplitSlashFree("..");
  }

  lemma {:induction false} DotDotFirst(segs: seq<string>)
    requires segs != [] && segs[0] == ".."
    ensures Join(segs) == ".." || "../" <= Join(segs)
  {
  }

  /** The function accepts exactly the paths with a destination, and returns the destination's
      segments joined by slashes.  In particular its last loop never rejects anything. */
  lemma {:induction false} SanitizeExact(p: string)
    ensures Sanitize(p) ==
            match Destination(p)
            case None => None
            case Some(segs) => Some(Join(segs))
  {
    var n := Normalized(p);
    if p != "" && '\0' !in n && !HasDriveLetter(n) && n[0] != '/' {
      JoinSplit(n);
      WalkKeepsGood(Split(n), []);
      var stack := CleanWalk(Split(n), [], false);
      if Walk(Split(n), []).None? {
        DotDotFirst(stack);
      } else if stack != [] {
        JoinGood(stack);
      }
    }
  }

  // ----- what an accepted path looks like -----

  predicate Plain(s: string) {
    '\\' !in s && '\0' !in s
  }

  predicate AllPlain(segs: seq<string>) {
    forall i :: 0 <= i < |segs| ==> Plain(segs[i])
  }

  lemma {:induction false} WalkKeepsPlain(segs: seq<string>, stack: seq<string>)
    requires AllPlain(segs) && AllPlain(stack)
    ensures Walk(segs, stack).Some? ==> AllPlain(Walk(segs, stack).value)
  {
    if segs != [] {
      if segs[0] == "" || segs[0] == "." {
        WalkKeepsPlain(segs[1..], stack);
      } else if segs[0] != ".." {
        WalkKeepsPlain(segs[1..], stack + [segs[0]]);
      } else if stack != [] {
        WalkKeepsPlain(segs[1..], stack[..|stack| - 1]);
      }
    }
  }

  lemma {:induction false} AllPlainCons(head: string, rest: seq<string>)
    ensures AllPlain([head] + rest) <==> Plain(head) && AllPlain(rest)
  {
    var all := [head] + rest;
    if AllPlain(all) {
      assert all[0] == head && forall i :: 0 <= i < |rest| ==> rest[i] == all[i + 1];
    }
  }

  lemma {:induction false} PlainCons(c: char, s: string)
    ensures Plain([c] + s) <==> c != '\\' && c != '\0' && Plain(s)
  {
    assert c in [c] + s;
    assert forall x :: x in s ==> x in [c] + s;
  }

  lemma {:induction false} SplitPlain(s: string)
    ensures Plain(s) <==> AllPlain(Split(s))
  {
    if s == "" {
      assert Split(s)[0] == "";
    } else {
      SplitPlain(s[1..]);
      var rest := Split(s[1..]);
      assert s == [s[0]] + s[1..] && rest == [rest[0]] + rest[1..];
      PlainCons(s[0], s[1..]);
      AllPlainCons(rest[0], rest[1..]);
      if s[0] == '/' {
        AllPlainCons("", rest);
      } else {
        PlainCons(s[0], rest[0]);
        AllPlainCons([s[0]] + rest[0], rest[1..]);
      }
    }
  }

  lemma {:induction false} NormalizedPlain(p: string)
    ensures Plain(p) ==> Normalized(p) == p
    ensures '\\' !in Normalized(p)
  {
  }

  lemma {:induction false} GoodWalks(segs: seq<string>, stack: seq<string>)
    requires GoodSegments(segs)
    ensures Walk(segs, stack) == Some(stack + segs)
  {
    if segs != [] {
      GoodWalks(segs[1..], stack + [segs[0]]);
      assert stack + [segs[0]] + segs[1..] == stack + segs;
    } else {
      assert stack + segs == stack;
    }
  }

  /** On a path already made of good segments the function is the identity, unless its second
      byte is a colon, in which case it rejects. */
  lemma {:induction false} SanitizeGood(q: string)
    requires q != "" && Plain(q) && GoodSegments(Split(q))
    ensures Sanitize(q) == if HasDriveLetter(q) then None else Some(q)
  {
    NormalizedPlain(q);
    JoinSplit(q);
    JoinGood(Split(q));
    GoodWalks(Split(q), []);
    assert [] + Split(q) == Split(q);
    SanitizeExact(q);
  }

  /** Accepted output is a plain relative path of good segments: no absolute path, no `..`,
      no empty segment, no backslash, no NUL. */
  lemma {:induction false} OutputIsSafe(p: string)
    requires Sanitize(p).Some?
    ensures var q := Sanitize(p).value; q != "" && q[0] != '/' && Plain(q) && GoodSegments(Split(q))
  {
    SanitizeExact(p);
    var n := Normalized(p);
    var segs := Destination(p).value;
    JoinSplit(n);
    WalkKeepsGood(Split(n), []);
    JoinGood(segs);
    NormalizedPlain(p);
    SplitPlain(n);
    WalkKeepsPlain(Split(n), []);
    SplitPlain(Join(segs));
  }

  /** When a drive letter gets through: exactly when the first segment of the destination is
      one.  The test on the uncleaned path only rules it out where nothing precedes it. */
  lemma {:induction false} DriveLetterExactly(p: string)
    requires Sanitize(p).Some?
    ensures Destination(p).Some? && Destination(p).value != []
    ensures HasDriveLetter(Sanitize(p).value) <==> HasDriveLetter(Destination(p).value[0])
  {
    SanitizeExact(p);
    var n := Normalized(p);
    JoinSplit(n);
    WalkKeepsGood(Split(n), []);
    var segs := Destination(p).value;
    if |segs| > 1 {
      assert Join(segs) == segs[0] + "/" + Join(segs[1..]);
    }
  }

  /** Cleaning an output again changes nothing, if and only if the first segment of the path's
      destination is no drive letter; otherwise the second pass rejects it. */
  lemma {:induction false} Idempotent(p: string)
    requires Sanitize(p).Some?
    ensures Destination(p).Some? && Destination(p).value != []
    ensures var q := Sanitize(p).value;
            Sanitize(q) == if HasDriveLetter(Destination(p).value[0]) then None else Some(q)
  {
    OutputIsSafe(p);
    DriveLetterExactly(p);
    SanitizeGood(Sanitize(p).value);
  }

  /** The drive-letter test reads the uncleaned path, so a drive letter behind `./` gets
      through. */
  lemma {:induction false} DriveLetterSlipsThrough()
    ensures Sanitize("./C:") == Some("C:") && HasDriveLetter("C:")
  {
    assert Normalized("./C:") == "./C:";
    SplitSlashFree("C:");
    SplitPrefix(".", "C:");
    assert "./C:" == "." + "/" + "C:";
    var segs := ["."] + ["C:"];
    assert Split("./C:") == segs;
    assert segs[1..] == ["C:"] && ["C:"][1..] == [];
    assert Walk(["C:"], []) == Walk([], [] + ["C:"]);
    assert [] + ["C:"] == ["C:"];
    assert Walk(segs, []) == Some(["C:"]);
    assert Join(["C:"]) == "C:";
    SanitizeExact("./C:");
  }
}
