/** Slash-separated paths: splitting, joining, and byte order. */
module Paths {
  predicate SlashFree(s: string) {
    forall i :: 0 <= i < |s| ==> s[i] != '/'
  }

  /** `strings.Split(s, "/")`. */
  function Split(s: string): (segs: seq<string>)
    ensures segs != []
  {
    if s == "" then [""]
    else if s[0] == '/' then [""] + Split(s[1..])
    else
      var rest := Split(s[1..]);
      [[s[0]] + rest[0]] + rest[1..]
  }

  function Join(segs: seq<string>): string {
    if segs == [] then "" else if |segs| == 1 then segs[0] else segs[0] + "/" + Join(segs[1..])
  }

  predicate AllSlashFree(segs: seq<string>) {
    forall i :: 0 <= i < |segs| ==> SlashFree(segs[i])
  }

  lemma {:induction false} JoinSplit(s: string)
    ensures Join(Split(s)) == s && AllSlashFree(Split(s))
  {
    if s != "" {
      JoinSplit(s[1..]);
      var rest := Split(s[1..]);
      if s[0] == '/' {
        assert ([""] + rest)[1..] == rest;
        assert s == "/" + s[1..];
      } else {
        var segs := [[s[0]] + rest[0]] + rest[1..];
        assert segs[1..] == rest[1..];
        assert s == [s[0]] + s[1..];
      }
    }
  }

  lemma {:induction false} SplitPrefix(seg: string, tail: string)
    requires SlashFree(seg)
    ensures Split(seg + "/" + tail) == [seg] + Split(tail)
  {
    if seg == "" {
      assert (seg + "/" + tail)[1..] == tail;
    } else {
      assert (seg + "/" + tail)[1..] == seg[1..] + "/" + tail;
      SplitPrefix(seg[1..], tail);
      assert [seg[0]] + seg[1..] == seg;
      assert ([seg[1..]] + Split(tail))[1..] == Split(tail);
    }
  }

  lemma {:induction false} SplitSlashFree(seg: string)
    requires SlashFree(seg)
    ensures Split(seg) == [seg]
  {
    if seg != "" {
      SplitSlashFree(seg[1..]);
      assert [seg[0]] + seg[1..] == seg;
    }
  }

  lemma {:induction false} SplitJoin(segs: seq<string>)
    requires segs != [] && AllSlashFree(segs)
    ensures Split(Join(segs)) == segs
  {
    if |segs| == 1 {
      SplitSlashFree(segs[0]);
    } else {
      SplitJoin(segs[1..]);
      SplitPrefix(segs[0], Join(segs[1..]));
    }
  }

  lemma {:induction false} JoinAppend(segs: seq<string>, seg: string)
    requires segs != []
    ensures Join(segs + [seg]) == Join(segs) + "/" + seg
  {
    var all := segs + [seg];
    assert all[1..] == segs[1..] + [seg];
    if |segs| == 1 {
      assert all[1..] == [seg];
      assert Join([seg]) == seg;
      assert Join(all) == segs[0] + "/" + Join(all[1..]);
    } else {
      JoinAppend(segs[1..], seg);
      assert segs[0] + "/" + (Join(segs[1..]) + "/" + seg) == segs[0] + "/" + Join(segs[1..]) + "/" + seg;
    }
  }

  lemma {:induction false} JoinSplitsAt(a: seq<string>, b: seq<string>)
    requires a != [] && b != []
    ensures Join(a + b) == Join(a) + "/" + Join(b)
  {
    assert (a + b)[1..] == a[1..] + b;
    if |a| == 1 {
      assert a[1..] + b == b;
    } else {
      JoinSplitsAt(a[1..], b);
      assert a[0] + "/" + (Join(a[1..]) + "/" + Join(b)) == a[0] + "/" + Join(a[1..]) + "/" + Join(b);
    }
  }

  // ----- lying under a folder -----

  /** `p` lies strictly under folder `q`: `strings.HasPrefix(p, q + "/")`. */
  predicate Under(p: string, q: string) {
    q + "/" <= p
  }

  /** On paths, lying under a folder is extending its segments. */
  lemma {:induction false} UnderIsPrefix(p: string, q: string)
    ensures Under(p, q) <==> |Split(q)| < |Split(p)| && Split(q) <= Split(p)
  {
    JoinSplit(p);
    JoinSplit(q);
    var ps, qs := Split(p), Split(q);
    if Under(p, q) {
      var tail := p[|q| + 1..];
      assert p == q + "/" + tail;
      JoinSplit(tail);
      JoinSplitsAt(qs, Split(tail));
      SplitJoin(qs + Split(tail));
      assert ps == qs + Split(tail);
    }
    if |qs| < |ps| && qs <= ps {
      var tail := ps[|qs|..];
      assert ps == qs + tail;
      JoinSplitsAt(qs, tail);
      assert p == q + "/" + Join(tail);
    }
  }

  // ----- byte order -----

  /** Go's `<=` on strings. */
  predicate AtMost(a: string, b: string) {
    if a == "" then true
    else if b == "" then false
    else a[0] < b[0] || (a[0] == b[0] && AtMost(a[1..], b[1..]))
  }

  lemma {:induction false} AtMostReflexive(a: string)
    ensures AtMost(a, a)
  {
    if a != "" {
      AtMostReflexive(a[1..]);
    }
  }

  lemma {:induction false} AtMostTotal(a: string, b: string)
    ensures AtMost(a, b) || AtMost(b, a)
    ensures AtMost(a, b) && AtMost(b, a) ==> a == b
  {
    if a != "" && b != "" {
      AtMostTotal(a[1..], b[1..]);
      if AtMost(a, b) && AtMost(b, a) {
        assert a == [a[0]] + a[1..] && b == [b[0]] + b[1..];
      }
    }
  }

  lemma {:induction false} AtMostTransitive(a: string, b: string, c: string)
    requires AtMost(a, b) && AtMost(b, c)
    ensures AtMost(a, c)
  {
    if a != "" && b != "" && c != "" && a[0] == b[0] == c[0] {
      AtMostTransitive(a[1..], b[1..], c[1..]);
    }
  }

  /** A string is at most its extensions. */
  lemma {:induction false} PrefixAtMost(t: string, y: string)
    requires t <= y
    ensures AtMost(t, y)
  {
    if t != "" {
      PrefixAtMost(t[1..], y[1..]);
    }
  }

  /** Between a string and one of its extensions lie only extensions. */
  lemma {:induction false} PrefixBlock(t: string, x: string, y: string)
    requires AtMost(t, x) && AtMost(x, y) && t <= y
    ensures t <= x
  {
    if t != "" {
      assert t[0] == x[0] == y[0];
      PrefixBlock(t[1..], x[1..], y[1..]);
      assert t == [t[0]] + t[1..] && x == [x[0]] + x[1..];
    }
  }

  /** The order is that of the first difference, a prefix coming first. */
  lemma {:induction false} AtMostExactly(a: string, b: string)
    ensures AtMost(a, b) <==>
            || a <= b
            || exists i :: 0 <= i < |a| && i < |b| && a[..i] == b[..i] && a[i] < b[i]
  {
    if a != "" && b != "" {
      AtMostExactly(a[1..], b[1..]);
      assert a == [a[0]] + a[1..] && b == [b[0]] + b[1..];
      if a[0] < b[0] {
        assert a[..0] == b[..0];
      } else if a[0] == b[0] {
        SameHead(a, b);
      }
      if exists i :: 0 <= i < |a| && i < |b| && a[..i] == b[..i] && a[i] < b[i] {
        var i :| 0 <= i < |a| && i < |b| && a[..i] == b[..i] && a[i] < b[i];
        assert i > 0 ==> a[0] == a[..i][0] == b[..i][0] == b[0];
      }
    }
  }

  lemma {:induction false} SameHead(a: string, b: string)
    requires a != "" && b != "" && a[0] == b[0]
    ensures a <= b <==> a[1..] <= b[1..]
    ensures (exists i :: 0 <= i < |a| && i < |b| && a[..i] == b[..i] && a[i] < b[i]) <==>
            exists i :: 0 <= i < |a[1..]| && i < |b[1..]| && a[1..][..i] == b[1..][..i] && a[1..][i] < b[1..][i]
  {
    var c, d := a[1..], b[1..];
    assert a == [a[0]] + c && b == [b[0]] + d;
    if exists i :: 0 <= i < |a| && i < |b| && a[..i] == b[..i] && a[i] < b[i] {
      var i :| 0 <= i < |a| && i < |b| && a[..i] == b[..i] && a[i] < b[i];
      assert i > 0;
      assert c[..i - 1] == a[..i][1..] && d[..i - 1] == b[..i][1..];
      assert c[i - 1] < d[i - 1];
    }
    if exists i :: 0 <= i < |c| && i < |d| && c[..i] == d[..i] && c[i] < d[i] {
      var i :| 0 <= i < |c| && i < |d| && c[..i] == d[..i] && c[i] < d[i];
      assert a[..i + 1] == [a[0]] + c[..i] && b[..i + 1] == [b[0]] + d[..i];
      assert a[i + 1] < b[i + 1];
    }
  }
}
