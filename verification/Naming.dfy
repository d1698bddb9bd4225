/** The archive name a user chooses, the top-level folder derived from it, and the rebasing of
    every path onto that folder.  Case folding and white space are those of ASCII. */
module Naming {
  import opened Model
  import opened Paths
  import opened Sanitize

  predicate IsSpace(c: char) {
    c == ' ' || '\t' <= c <= '\r'
  }

  function TrimLeft(s: string): string {
    if s != "" && IsSpace(s[0]) then TrimLeft(s[1..]) else s
  }

  function TrimRight(s: string): string {
    if s != "" && IsSpace(s[|s| - 1]) then TrimRight(s[..|s| - 1]) else s
  }

  /** `strings.TrimSpace`. */
  function Trim(s: string): string {
    TrimRight(TrimLeft(s))
  }

  predicate Continues(s: string, i: nat) {
    i < |s| && 0x80 <= s[i] as int <= 0xBF
  }

  /** Bytes of the first character of a UTF-8 string.  As in Go, a byte that starts no
      well-formed character is a character of its own. */
  function RuneWidth(s: string): (n: nat)
    requires s != ""
    ensures 1 <= n <= |s|
  {
    var a := s[0] as int;
    var b := if |s| > 1 then s[1] as int else 0;
    if 0xC2 <= a <= 0xDF && Continues(s, 1) then 2
    else if 0xE0 <= a <= 0xEF && Continues(s, 1) && Continues(s, 2)
            && (a == 0xE0 ==> b >= 0xA0) && (a == 0xED ==> b < 0xA0)
    then 3
    else if 0xF0 <= a <= 0xF4 && Continues(s, 1) && Continues(s, 2) && Continues(s, 3)
            && (a == 0xF0 ==> b >= 0x90) && (a == 0xF4 ==> b < 0x90)
    then 4
    else 1
  }

  /** Characters of a UTF-8 string. */
  function RuneCount(s: string): nat {
    if s == "" then 0 else 1 + RuneCount(s[RuneWidth(s)..])
  }

  /** The pattern `^[^/\\\x00]{1,255}$`. */
  predicate MatchesPattern(s: string) {
    SlashFree(s) && Plain(s) && 1 <= RuneCount(s) <= 255
  }

  /** `validateArchiveName`: `None` is a validation error. */
  function ValidateArchiveName(raw: string): Option<string> {
    var name := Trim(raw);
    if name == "" || !MatchesPattern(name) || name == "." || name == ".." then None else Some(name)
  }

  function Lower(c: char): char {
    if 'A' <= c <= 'Z' then ((c as int) + 32) as char else c
  }

  /** `name` ends in `ext`, letter case ignored. */
  predicate EndsWith(name: string, ext: string) {
    |ext| <= |name| && forall i :: 0 <= i < |ext| ==> Lower(name[|name| - |ext| + i]) == ext[i]
  }

  /** `archiveRootDir`: the name without a trailing `.zip` or `.tar`. */
  function RootDir(archiveName: string): string {
    var name := Trim(archiveName);
    var stem := if EndsWith(name, ".zip") || EndsWith(name, ".tar") then Trim(name[..|name| - 4]) else name;
    if stem == "." || stem == ".." then "" else stem
  }

  /** `rebaseArchivePath`: the first segment replaced by `root`; an empty root changes nothing. */
  function Rebase(p: string, root: string): string {
    if root == "" then p else root + p[FirstSlash(p)..]
  }

  /** Index of the first slash, or the length of the string. */
  function FirstSlash(p: string): (i: nat)
    ensures i <= |p| && SlashFree(p[..i]) && (i < |p| ==> p[i] == '/')
  {
    if p == "" || p[0] == '/' then 0
    else
      var i := 1 + FirstSlash(p[1..]);
      assert p[..i] == [p[0]] + p[1..][..i - 1];
      i
  }

  // ----- what trimming does -----

  /** White space of ASCII. */
  predicate Blank(s: string) {
    forall i :: 0 <= i < |s| ==> s[i] in {' ', '\t', '\n', '\U{000B}', '\U{000C}', '\r'}
  }

  /** Neither end is white space. */
  predicate Trimmed(s: string) {
    s == "" || (!Blank([s[0]]) && !Blank([s[|s| - 1]]))
  }

  lemma {:induction false} BlankIsSpace(c: char)
    ensures Blank([c]) <==> IsSpace(c)
  {
    assert [c][0] == c;
  }

  lemma {:induction false} TrimLeftDrops(a: string, s: string)
    requires Blank(a)
    ensures TrimLeft(a + s) == TrimLeft(s)
  {
    if a == "" {
      assert a + s == s;
    } else {
      assert (a + s)[1..] == a[1..] + s && IsSpace(a[0]);
      TrimLeftDrops(a[1..], s);
    }
  }

  lemma {:induction false} TrimRightDrops(s: string, b: string)
    requires Blank(b)
    ensures TrimRight(s + b) == TrimRight(s)
  {
    if b == "" {
      assert s + b == s;
    } else {
      var last := |b| - 1;
      assert (s + b)[..|s + b| - 1] == s + b[..last] && IsSpace(b[last]);
      TrimRightDrops(s, b[..last]);
    }
  }

  lemma {:induction false} TrimmedStays(x: string)
    requires Trimmed(x)
    ensures TrimLeft(x) == x && TrimRight(x) == x && Trim(x) == x
  {
    if x != "" {
      BlankIsSpace(x[0]);
      BlankIsSpace(x[|x| - 1]);
    }
  }

  /** Trimming drops the white space at both ends and nothing else. */
  lemma {:induction false} TrimExact(a: string, x: string, b: string)
    requires Blank(a) && Trimmed(x) && Blank(b)
    ensures Trim(a + x + b) == x
  {
    TrimmedStays(x);
    assert a + x + b == a + (x + b);
    TrimLeftDrops(a, x + b);
    if x == "" {
      assert x + b == b && b == b + "";
      TrimLeftDrops(b, "");
    } else {
      BlankIsSpace(x[0]);
      assert (x + b)[0] == x[0];
      TrimRightDrops(x, b);
    }
  }

  // ----- which names are accepted -----

  /** A name is accepted, as trimmed, exactly if it is not empty, "." or "..", has no slash,
      backslash or NUL, and has at most 255 characters. */
  lemma {:induction false} ValidateExactly(raw: string, name: string)
    ensures ValidateArchiveName(raw) == Some(name) <==>
            && name == Trim(raw) && name != "" && name != "." && name != ".."
            && '/' !in name && '\\' !in name && '\0' !in name && RuneCount(name) <= 255
  {
    assert SlashFree(name) <==> '/' !in name;
  }

  /** The UTF-8 form of a character. */
  function Encoded(c: int): string
    requires IsScalar(c)
  {
    if c < 0x80 then [c as char]
    else if c < 0x800 then [(0xC0 + c / 64) as char, (0x80 + c % 64) as char]
    else if c < 0x1_0000 then [(0xE0 + c / 4096) as char, (0x80 + c / 64 % 64) as char, (0x80 + c % 64) as char]
    else [(0xF0 + c / 262144) as char, (0x80 + c / 4096 % 64) as char,
          (0x80 + c / 64 % 64) as char, (0x80 + c % 64) as char]
  }

  predicate IsScalar(c: int) {
    0 <= c < 0xD800 || 0xE000 <= c < 0x11_0000
  }

  function EncodedAll(text: seq<int>): string
    requires forall i :: 0 <= i < |text| ==> IsScalar(text[i])
  {
    if text == [] then "" else Encoded(text[0]) + EncodedAll(text[1..])
  }

  lemma {:induction false} OneByte(c: int, rest: string)
    requires IsScalar(c) && 0 <= c < 0x80
    ensures RuneWidth(Encoded(c) + rest) == |Encoded(c)|
  {
    var s := Encoded(c) + rest;
    assert forall i :: 0 <= i < |Encoded(c)| ==> s[i] == Encoded(c)[i];
  }

  lemma {:induction false} TwoBytes(c: int, rest: string)
    requires IsScalar(c) && 0x80 <= c < 0x800
    ensures RuneWidth(Encoded(c) + rest) == |Encoded(c)|
  {
    var s := Encoded(c) + rest;
    assert forall i :: 0 <= i < |Encoded(c)| ==> s[i] == Encoded(c)[i];
  }

  lemma {:induction false} ThreeBytes(c: int, rest: string)
    requires IsScalar(c) && 0x800 <= c < 0x1_0000
    ensures RuneWidth(Encoded(c) + rest) == |Encoded(c)|
  {
    var s := Encoded(c) + rest;
    assert forall i :: 0 <= i < |Encoded(c)| ==> s[i] == Encoded(c)[i];
  }

  lemma {:induction false} FourBytes(c: int, rest: string)
    requires IsScalar(c) && 0x1_0000 <= c < 0x11_0000
    ensures RuneWidth(Encoded(c) + rest) == |Encoded(c)|
  {
    var s := Encoded(c) + rest;
    assert forall i :: 0 <= i < |Encoded(c)| ==> s[i] == Encoded(c)[i];
  }

  lemma {:induction false} EncodedWidth(c: int, rest: string)
    requires IsScalar(c)
    ensures RuneWidth(Encoded(c) + rest) == |Encoded(c)|
  {
    if c < 0x80 {
      OneByte(c, rest);
    } else if c < 0x800 {
      TwoBytes(c, rest);
    } else if c < 0x1_0000 {
      ThreeBytes(c, rest);
    } else {
      FourBytes(c, rest);
    }
  }

  /** The length limit counts characters, not bytes. */
  lemma {:induction false} CharactersCounted(text: seq<int>)
    requires forall i :: 0 <= i < |text| ==> IsScalar(text[i])
    ensures RuneCount(EncodedAll(text)) == |text|
  {
    if text != [] {
      var rest := EncodedAll(text[1..]);
      EncodedWidth(text[0], rest);
      assert (Encoded(text[0]) + rest)[|Encoded(text[0])|..] == rest;
      CharactersCounted(text[1..]);
    }
  }

  // ----- the root a name gives -----

  /** `.zip` or `.tar` in any letter case. */
  predicate ArchiveSuffix(ext: string) {
    && |ext| == 4 && ext[0] == '.'
    && ((ext[1] in {'z', 'Z'} && ext[2] in {'i', 'I'} && ext[3] in {'p', 'P'})
        || (ext[1] in {'t', 'T'} && ext[2] in {'a', 'A'} && ext[3] in {'r', 'R'}))
  }

  lemma {:induction false} FourMatch(name: string, ext: string)
    requires |ext| == 4 && |name| >= 4
    ensures var tail := name[|name| - 4..];
            EndsWith(name, ext) <==>
            Lower(tail[0]) == ext[0] && Lower(tail[1]) == ext[1] && Lower(tail[2]) == ext[2] && Lower(tail[3]) == ext[3]
  {
    var tail := name[|name| - 4..];
    assert forall i :: 0 <= i < 4 ==> tail[i] == name[|name| - |ext| + i];
    if EndsWith(name, ext) {
      assert ext[0] == Lower(name[|name| - |ext| + 0]) && ext[1] == Lower(name[|name| - |ext| + 1]);
      assert ext[2] == Lower(name[|name| - |ext| + 2]) && ext[3] == Lower(name[|name| - |ext| + 3]);
    }
  }

  lemma {:induction false} SuffixSeen(name: string)
    ensures EndsWith(name, ".zip") || EndsWith(name, ".tar") <==>
            |name| >= 4 && ArchiveSuffix(name[|name| - 4..])
  {
    if |name| >= 4 {
      FourMatch(name, ".zip");
      FourMatch(name, ".tar");
    }
  }

  /** A name with an archive suffix gives the name without it. */
  lemma {:induction false} SuffixStripped(x: string, ext: string)
    requires Trimmed(x) && ArchiveSuffix(ext)
    ensures RootDir(x + ext) == if x == "." || x == ".." then "" else x
  {
    var name := x + ext;
    BlankIsSpace(name[0]);
    BlankIsSpace(name[|name| - 1]);
    if x != "" {
      BlankIsSpace(x[0]);
    }
    TrimmedStays(name);
    assert name[|name| - 4..] == ext && name[..|name| - 4] == x;
    SuffixSeen(name);
    TrimmedStays(x);
  }

  /** Any other name gives itself. */
  lemma {:induction false} OtherNameKept(name: string)
    requires Trimmed(name) && (|name| >= 4 ==> !ArchiveSuffix(name[|name| - 4..]))
    ensures RootDir(name) == if name == "." || name == ".." then "" else name
  {
    TrimmedStays(name);
    SuffixSeen(name);
  }

  /** So the root is empty exactly when nothing usable remains. */
  lemma {:induction false} RootExactly(raw: string)
    ensures var name := Trim(raw);
            var stem := if |name| >= 4 && ArchiveSuffix(name[|name| - 4..]) then Trim(name[..|name| - 4]) else name;
            && (RootDir(raw) == "" <==> stem == "" || stem == "." || stem == "..")
            && (RootDir(raw) != "" ==> RootDir(raw) == stem)
  {
    SuffixSeen(Trim(raw));
  }

  // ----- the derived root is harmless -----

  lemma {:induction false} TrimKeeps(s: string)
    ensures SlashFree(s) ==> SlashFree(Trim(s))
    ensures Plain(s) ==> Plain(Trim(s))
  {
    TrimLeftKeeps(s);
    TrimRightKeeps(TrimLeft(s));
  }

  lemma {:induction false} TrimLeftKeeps(s: string)
    ensures SlashFree(s) ==> SlashFree(TrimLeft(s))
    ensures Plain(s) ==> Plain(TrimLeft(s))
  {
    if s != "" && IsSpace(s[0]) {
      TrimLeftKeeps(s[1..]);
      assert s == [s[0]] + s[1..];
      PlainCons(s[0], s[1..]);
    }
  }

  lemma {:induction false} TrimRightKeeps(s: string)
    ensures SlashFree(s) ==> SlashFree(TrimRight(s))
    ensures Plain(s) ==> Plain(TrimRight(s))
  {
    if s != "" && IsSpace(s[|s| - 1]) {
      TrimRightKeeps(s[..|s| - 1]);
    }
  }

  /** For every accepted name the derived top-level folder is empty or one safe segment. */
  lemma {:induction false} RootIsSafe(raw: string)
    requires ValidateArchiveName(raw).Some?
    ensures var root := RootDir(ValidateArchiveName(raw).value);
            root == "" || (SlashFree(root) && !BadSegment(root) && Plain(root))
  {
    var name := ValidateArchiveName(raw).value;
    var trimmed := Trim(name);
    TrimKeeps(name);
    if |trimmed| >= 4 {
      TrimKeeps(trimmed[..|trimmed| - 4]);
    }
  }

  // ----- rebasing keeps the tree -----

  lemma {:induction false} SplitFirst(p: string)
    ensures var i := FirstSlash(p);
            Split(p) == if i == |p| then [p] else [p[..i]] + Split(p[i + 1..])
  {
    var i := FirstSlash(p);
    if i == |p| {
      assert p[..i] == p;
      SplitSlashFree(p);
    } else {
      assert p == p[..i] + "/" + p[i + 1..];
      SplitPrefix(p[..i], p[i + 1..]);
    }
  }

  /** Rebasing replaces the first segment and keeps the others. */
  lemma {:induction false} RebaseSegments(p: string, root: string)
    requires SlashFree(root) && root != ""
    ensures Split(Rebase(p, root)) == [root] + Split(p)[1..]
  {
    SplitFirst(p);
    var i := FirstSlash(p);
    if i == |p| {
      assert Rebase(p, root) == root;
      SplitSlashFree(root);
    } else {
      assert p[i..] == "/" + p[i + 1..];
      assert Rebase(p, root) == root + "/" + p[i + 1..];
      SplitPrefix(root, p[i + 1..]);
    }
  }

  /** On paths that share their first segment, rebasing is injective and preserves and
      reflects lying under a folder. */
  lemma {:induction false} RebaseKeepsTree(p: string, q: string, root: string)
    requires SlashFree(root) && Split(p)[0] == Split(q)[0]
    ensures Rebase(p, root) == Rebase(q, root) <==> p == q
    ensures Under(Rebase(p, root), Rebase(q, root)) <==> Under(p, q)
  {
    if root != "" {
      RebaseSegments(p, root);
      RebaseSegments(q, root);
      JoinSplit(p);
      JoinSplit(q);
      var ps, qs := Split(p), Split(q);
      assert ps == [ps[0]] + ps[1..] && qs == [qs[0]] + qs[1..];
      assert ([root] + ps[1..])[1..] == ps[1..] && ([root] + qs[1..])[1..] == qs[1..];
      UnderIsPrefix(p, q);
      UnderIsPrefix(Rebase(p, root), Rebase(q, root));
      PrefixHeads(ps, qs, root);
    }
  }

  lemma {:induction false} PrefixHeads(ps: seq<string>, qs: seq<string>, root: string)
    requires ps != [] && qs != [] && ps[0] == qs[0]
    ensures qs <= ps <==> [root] + qs[1..] <= [root] + ps[1..]
  {
    var a, b := [root] + ps[1..], [root] + qs[1..];
    if qs <= ps {
      assert b == a[..|b|];
    }
    if b <= a {
      assert forall i :: 1 <= i < |qs| ==> qs[i] == b[i] && b[i] == a[i] && a[i] == ps[i];
      assert qs == ps[..|qs|];
    }
  }

  // ----- names under which no path is accepted -----

  /** A rebased path has a drive letter exactly when the new root has. */
  lemma {:induction false} RebasedDriveLetter(p: string, root: string)
    requires root != "" && SlashFree(root)
    ensures HasDriveLetter(Rebase(p, root)) <==> HasDriveLetter(root)
  {
    var q := Rebase(p, root);
    if |root| == 1 && |q| >= 2 {
      assert q[1] == p[FirstSlash(p)];
    }
  }

  /** Under a root whose second byte is a colon the cleaner refuses every path. */
  lemma {:induction false} ColonRootRefused(p: string, root: string)
    requires HasDriveLetter(root)
    ensures Sanitize.Sanitize(Rebase(p, root)) == None
  {
    var q := Rebase(p, root);
    assert q[1] == ':' && Normalized(q)[1] == ':';
  }

  /** Under any other root it accepts every path of plain segments, and changes nothing. */
  lemma {:induction false} RebasedAccepted(p: string, root: string)
    requires p != "" && Plain(p) && GoodSegments(Split(p))
    requires SlashFree(root) && Plain(root) && !BadSegment(root)
    ensures Sanitize.Sanitize(Rebase(p, root)) == if HasDriveLetter(root) then None else Some(Rebase(p, root))
  {
    RebaseSegments(p, root);
    SplitPlain(p);
    var segs := [root] + Split(p)[1..];
    assert AllPlain(segs);
    SplitPlain(Rebase(p, root));
    RebasedDriveLetter(p, root);
    SanitizeGood(Rebase(p, root));
  }

  /** Such a name passes validation. */
  lemma {:induction false} ColonNameAccepted()
    ensures ValidateArchiveName("a:b") == Some("a:b") && RootDir("a:b") == "a:b" && HasDriveLetter("a:b")
  {
    var name := "a:b";
    assert Trim(name) == name;
    assert name[RuneWidth(name)..] == ":b" && ":b"[1..] == "b" && "b"[1..] == "";
    assert RuneCount("b") == 1 && RuneCount(":b") == 2 && RuneCount(name) == 3;
  }
}
