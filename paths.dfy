/** The path translator (src/chezmerge/paths.py): chezmoi source paths to target
    paths and back, and the search for the local file behind a target path.

    A path is the sequence of its segments, as pathlib's `parts` gives it; a
    segment never contains the separator. Building a path from segments or
    parsing one drops the empty and `.` segments (`PathParts`), so two paths
    print equal exactly when their canonical segment sequences are equal. */
module Paths {
  import opened Optional

  /** chezmoi's attribute markers, in the order the stripping loop tries them. */
  const Prefixes: seq<string> :=
    ["private_", "executable_", "exact_", "symlink_", "modify_", "create_", "empty_", "readonly_"]

  /** The hidden-file marker, which stands for a leading `.`. */
  const DotMarker: string := "dot_"

  /** The template suffix. */
  const TmplSuffix: string := ".tmpl"

  predicate StartsWith(s: string, prefix: string)
  {
    |prefix| <= |s| && s[..|prefix|] == prefix
  }

  predicate EndsWith(s: string, suffix: string)
  {
    |suffix| <= |s| && s[|s| - |suffix|..] == suffix
  }

  // ---------------------------------------------------------------------------
  // Markers

  /** The first letters of the markers. */
  const MarkerInitials: set<char> := {'p', 'e', 's', 'm', 'c', 'r'}

  /** The markers never overlap: no two of them can both begin one segment,
      since their first three letters differ. */
  lemma MarkersDisjoint(s: string, i: nat, j: nat)
    requires i < |Prefixes| && j < |Prefixes|
    requires StartsWith(s, Prefixes[i]) && StartsWith(s, Prefixes[j])
    ensures i == j
  {
    var a, b := Prefixes[i], Prefixes[j];
    assert a[0] == s[0] == b[0] && a[1] == s[1] == b[1] && a[2] == s[2] == b[2];
  }

  /** A segment whose first letter begins no marker carries no marker; this
      covers every segment beginning with `.` or with the hidden-file marker. */
  lemma NoMarkerAfter(s: string)
    requires |s| > 0 && s[0] !in MarkerInitials
    ensures forall k :: 0 <= k < |Prefixes| ==> !StartsWith(s, Prefixes[k])
  {
    forall k | 0 <= k < |Prefixes| ensures !StartsWith(s, Prefixes[k]) {
      assert Prefixes[k][0] in MarkerInitials;
    }
  }

  /** A segment does not begin with a word whose first letter it lacks. */
  lemma FirstLetterDiffers(s: string, prefix: string)
    requires |s| > 0 && |prefix| > 0 && s[0] != prefix[0]
    ensures !StartsWith(s, prefix)
  {
    if |prefix| <= |s| {
      assert s[..|prefix|][0] != prefix[0];
    }
  }

  /** The index of the first marker, from `from` on, that begins `s`
      (`|Prefixes|` when none does). */
  function MarkerIndex(s: string, from: nat): (j: nat)
    requires from <= |Prefixes|
    ensures from <= j <= |Prefixes|
    ensures j < |Prefixes| ==> StartsWith(s, Prefixes[j])
    ensures forall k :: from <= k < j ==> !StartsWith(s, Prefixes[k])
    decreases |Prefixes| - from
  {
    if from == |Prefixes| then from
    else if StartsWith(s, Prefixes[from]) then from
    else MarkerIndex(s, from + 1)
  }

  /** Reference definition of the marker stripping of one segment: the hidden-file
      marker becomes `.` and ends the stripping; an attribute marker at the front
      is removed and stripping goes on with the rest. */
  function StripMarkers(s: string): (r: string)
    ensures |r| <= |s|
    decreases |s|
  {
    if StartsWith(s, DotMarker) then "." + s[|DotMarker|..]
    else
      var j := MarkerIndex(s, 0);
      if j < |Prefixes| then StripMarkers(s[|Prefixes[j]|..]) else s
  }

  /** A segment with no marker at its front: what the stripping loop leaves. */
  predicate Unmarked(s: string)
  {
    !StartsWith(s, DotMarker) && forall k :: 0 <= k < |Prefixes| ==> !StartsWith(s, Prefixes[k])
  }

  /** Replacing the hidden-file marker by `.` keeps the stripped form. */
  lemma DotStep(s: string)
    requires StartsWith(s, DotMarker)
    ensures StripMarkers("." + s[|DotMarker|..]) == StripMarkers(s)
  {
    var q := "." + s[|DotMarker|..];
    assert q[0] == '.';
    NoMarkerAfter(q);
  }

  /** Removing any attribute marker from the front keeps the stripped form. */
  lemma MarkerStep(s: string, i: nat)
    requires i < |Prefixes| && StartsWith(s, Prefixes[i])
    ensures StripMarkers(s[|Prefixes[i]|..]) == StripMarkers(s)
  {
    if StartsWith(s, DotMarker) {
      assert s[0] == 'd';
      NoMarkerAfter(s);
      assert false;
    }
    var j := MarkerIndex(s, 0);
    MarkersDisjoint(s, i, j);
  }

  /** Stripping leaves no marker at the front of the segment. */
  lemma {:induction false} StripMarkersUnmarked(s: string)
    ensures Unmarked(StripMarkers(s))
    decreases |s|
  {
    if StartsWith(s, DotMarker) {
      var r := "." + s[|DotMarker|..];
      assert r[0] == '.';
      NoMarkerAfter(r);
    } else {
      var j := MarkerIndex(s, 0);
      if j < |Prefixes| {
        StripMarkersUnmarked(s[|Prefixes[j]|..]);
      }
    }
  }

  /** The unmarked segments are exactly the ones stripping leaves alone. */
  lemma StripMarkersFixpoint(s: string)
    ensures StripMarkers(s) == s <==> Unmarked(s)
  {
    if StartsWith(s, DotMarker) {
      assert |StripMarkers(s)| < |s|;
    } else if MarkerIndex(s, 0) < |Prefixes| {
      assert |StripMarkers(s)| < |s|;
    }
  }

  // ---------------------------------------------------------------------------
  // normalize_path

  /** The template suffix, removed once. */
  function StripTmpl(s: string): (r: string)
    ensures EndsWith(s, TmplSuffix) ==> r + TmplSuffix == s
    ensures !EndsWith(s, TmplSuffix) ==> r == s
  {
    if EndsWith(s, TmplSuffix) then s[..|s| - |TmplSuffix|] else s
  }

  /** What `normalize_path` makes of one segment. */
  function NormalizedSegment(part: string): (r: string)
    ensures |r| <= |part|
    ensures Unmarked(r)
  {
    StripMarkersUnmarked(StripTmpl(part));
    StripMarkers(StripTmpl(part))
  }

  /** A sequence of segments as pathlib keeps it: no empty and no `.` segment. */
  predicate Canonical(segs: seq<string>)
  {
    forall k :: 0 <= k < |segs| ==> segs[k] != "" && segs[k] != "."
  }

  /** pathlib's parsing of segments: the empty and `.` segments are dropped and
      the rest keep their order. */
  function PathParts(segs: seq<string>): (r: seq<string>)
    ensures Canonical(r)
    ensures |r| <= |segs|
    ensures Canonical(segs) ==> r == segs
  {
    if segs == [] then []
    else if segs[0] == "" || segs[0] == "." then PathParts(segs[1..])
    else [segs[0]] + PathParts(segs[1..])
  }

  /** Every segment that pathlib keeps comes from the segments it was given. */
  lemma {:induction false} PathPartsFrom(segs: seq<string>, k: nat)
    requires k < |PathParts(segs)|
    ensures exists j :: 0 <= j < |segs| && PathParts(segs)[k] == segs[j]
  {
    if segs[0] == "" || segs[0] == "." {
      PathPartsFrom(segs[1..], k);
      var j :| 0 <= j < |segs[1..]| && PathParts(segs[1..])[k] == segs[1..][j];
      assert segs[1..][j] == segs[j + 1];
    } else if k > 0 {
      PathPartsFrom(segs[1..], k - 1);
      var j :| 0 <= j < |segs[1..]| && PathParts(segs[1..])[k - 1] == segs[1..][j];
      assert segs[1..][j] == segs[j + 1];
    } else {
      assert PathParts(segs)[0] == segs[0];
    }
  }

  /** Every segment normalized on its own, in order. */
  function NormalizeEach(parts: seq<string>): (r: seq<string>)
    ensures |r| == |parts|
  {
    if parts == [] then [] else [NormalizedSegment(parts[0])] + NormalizeEach(parts[1..])
  }

  /** The segment in place `k` of `NormalizeEach` is the normal form of the
      segment in place `k` of its argument. */
  lemma {:induction false} NormalizeEachAt(parts: seq<string>, k: nat)
    requires k < |parts|
    ensures NormalizeEach(parts)[k] == NormalizedSegment(parts[k])
  {
    if k > 0 {
      NormalizeEachAt(parts[1..], k - 1);
    }
  }

  /** The target path of a source path. */
  function Normalized(path: seq<string>): (r: seq<string>)
    ensures Canonical(r) && |r| <= |path|
  {
    PathParts(NormalizeEach(PathParts(path)))
  }

  /** One pass of the marker loop: the hidden-file marker becomes `.`, then
      every attribute marker is tried once, in order. A pass that changes
      nothing has met an unmarked segment; one that changes something has
      shortened it. Either way the final stripped form is kept. */
  method MarkerPass(s: string) returns (p: string, changed: bool)
    ensures StripMarkers(p) == StripMarkers(s)
    ensures changed ==> |p| < |s|
    ensures !changed ==> p == s && Unmarked(s)
  {
    p := s;
    changed := false;
    if StartsWith(p, DotMarker) {
      DotStep(p);
      p := "." + p[|DotMarker|..];
      changed := true;
    }
    var i := 0;
    while i < |Prefixes|
      invariant 0 <= i <= |Prefixes|
      invariant StripMarkers(p) == StripMarkers(s)
      invariant changed ==> |p| < |s|
      invariant !changed ==> p == s && !StartsWith(p, DotMarker)
      invariant !changed ==> forall k :: 0 <= k < i ==> !StartsWith(p, Prefixes[k])
    {
      if StartsWith(p, Prefixes[i]) {
        MarkerStep(p, i);
        p := p[|Prefixes[i]|..];
        changed := true;
      }
      i := i + 1;
    }
  }

  /** One segment: the template suffix, then the marker loop until a pass
      changes nothing. Each changing pass shortens the segment. */
  method NormalizeSegment(part: string) returns (p: string)
    ensures p == NormalizedSegment(part)
  {
    p := part;
    if EndsWith(p, TmplSuffix) {
      p := p[..|p| - |TmplSuffix|];
    }
    ghost var t := p;
    while true
      invariant StripMarkers(p) == StripMarkers(t)
      decreases |p|
    {
      var q, changed := MarkerPass(p);
      if !changed {
        StripMarkersFixpoint(p);
        break;
      }
      p := q;
    }
  }

  /** `normalize_path`: every segment normalized, in order, empty results dropped. */
  method NormalizePath(path: seq<string>) returns (r: seq<string>)
    ensures r == Normalized(path)
  {
    var parts := PathParts(path);
    var newParts: seq<string> := [];
    var i := 0;
    while i < |parts|
      invariant 0 <= i <= |parts|
      invariant |newParts| == i
      invariant forall k :: 0 <= k < i ==> newParts[k] == NormalizedSegment(parts[k])
    {
      var p := NormalizeSegment(parts[i]);
      newParts := newParts + [p];
      i := i + 1;
    }
    forall k | 0 <= k < |parts| ensures newParts[k] == NormalizeEach(parts)[k] {
      NormalizeEachAt(parts, k);
    }
    assert newParts == NormalizeEach(parts);
    r := PathParts(newParts);
  }

  /** Segments whose normal form is non-empty keep their number and order,
      each one normalized on its own. */
  lemma NormalizedSegmentwise(path: seq<string>)
    requires forall k :: 0 <= k < |PathParts(path)| ==> NormalizedSegment(PathParts(path)[k]) !in {"", "."}
    ensures |Normalized(path)| == |PathParts(path)|
    ensures forall k :: 0 <= k < |Normalized(path)| ==> Normalized(path)[k] == NormalizedSegment(PathParts(path)[k])
  {
    var parts := PathParts(path);
    forall k | 0 <= k < |parts| ensures NormalizeEach(parts)[k] == NormalizedSegment(parts[k]) {
      NormalizeEachAt(parts, k);
    }
    assert Canonical(NormalizeEach(parts));
  }

  /** A one-segment path normalizes to its segment's normal form, unless that
      form is dropped. */
  lemma SingleSegment(x: string)
    requires x !in {"", "."} && NormalizedSegment(x) !in {"", "."}
    ensures Normalized([x]) == [NormalizedSegment(x)]
  {
    assert Canonical([x]);
    assert NormalizeEach([x]) == [NormalizedSegment(x)] + NormalizeEach([]);
    assert Canonical([NormalizedSegment(x)]);
  }

  /** A segment with no marker, no hidden-file marker and no template suffix
      passes through unchanged. */
  lemma PlainSegmentUnchanged(s: string)
    requires Unmarked(s) && !EndsWith(s, TmplSuffix)
    ensures NormalizedSegment(s) == s
  {
    StripMarkersFixpoint(s);
  }

  /** A normalized path has no segment beginning with a marker. */
  lemma NormalizedUnmarked(path: seq<string>)
    ensures forall k :: 0 <= k < |Normalized(path)| ==> Unmarked(Normalized(path)[k])
  {
    var parts := PathParts(path);
    var each := NormalizeEach(parts);
    forall k | 0 <= k < |Normalized(path)| ensures Unmarked(Normalized(path)[k]) {
      PathPartsFrom(each, k);
      var j :| 0 <= j < |each| && Normalized(path)[k] == each[j];
      NormalizeEachAt(parts, j);
      StripMarkersUnmarked(StripTmpl(parts[j]));
    }
  }

  /** Normalizing twice changes nothing when no normalized segment still ends
      in the template suffix. */
  lemma NormalizedIdempotent(path: seq<string>)
    requires forall k :: 0 <= k < |Normalized(path)| ==> !EndsWith(Normalized(path)[k], TmplSuffix)
    ensures Normalized(Normalized(path)) == Normalized(path)
  {
    var n := Normalized(path);
    NormalizedUnmarked(path);
    assert PathParts(n) == n;
    forall k | 0 <= k < |n| ensures NormalizeEach(n)[k] == n[k] {
      NormalizeEachAt(n, k);
      PlainSegmentUnchanged(n[k]);
    }
    assert NormalizeEach(n) == n;
  }

  /** A segment whose first letter begins neither a marker nor the hidden-file
      marker is left alone by the stripping. */
  lemma PlainInitial(s: string)
    requires |s| > 0 && s[0] !in MarkerInitials && s[0] != 'd'
    ensures Unmarked(s) && StripMarkers(s) == s
  {
    NoMarkerAfter(s);
    FirstLetterDiffers(s, DotMarker);
    StripMarkersFixpoint(s);
  }

  /** A segment whose fifth letter from the end is not `.` has no template suffix. */
  lemma NoTmplSuffix(s: string)
    requires |s| >= 5 && s[|s| - 5] != '.'
    ensures !EndsWith(s, TmplSuffix)
  {
    assert s[|s| - 5..][0] != TmplSuffix[0];
  }

  /** The hidden-file marker becomes `.`, and nothing is stripped after it:
      `dot_config` becomes `.config`, `dot_private_x` becomes `.private_x`. */
  lemma DotExamples()
    ensures NormalizedSegment(DotMarker + "config") == ".config"
    ensures NormalizedSegment(DotMarker + Prefixes[0] + "x") == "." + Prefixes[0] + "x"
  {
    var a := DotMarker + "config";
    NoTmplSuffix(a);
    Concatenated(DotMarker, "config");
    var b := DotMarker + (Prefixes[0] + "x");
    assert DotMarker + Prefixes[0] + "x" == b;
    NoTmplSuffix(b);
    Concatenated(DotMarker, Prefixes[0] + "x");
  }

  /** A single marker is stripped: `private_foo` becomes `foo`. */
  lemma MarkerExample()
    ensures NormalizedSegment(Prefixes[0] + "foo") == "foo"
  {
    var s := Prefixes[0] + "foo";
    assert StripTmpl(s) == s by {
      NoTmplSuffix(s);
    }
    assert StripMarkers(s) == StripMarkers("foo") by {
      Concatenated(Prefixes[0], "foo");
      MarkerStep(s, 0);
    }
    PlainInitial("foo");
  }

  /** A word followed by a rest begins with the word and leaves the rest. */
  lemma Concatenated(m: string, rest: string)
    ensures StartsWith(m + rest, m) && (m + rest)[|m|..] == rest
  {
    assert (m + rest)[..|m|] == m;
  }

  /** The markers with the given indices, written one after another. */
  function Stack(ms: seq<nat>): (r: string)
    requires forall k :: 0 <= k < |ms| ==> ms[k] < |Prefixes|
  {
    if ms == [] then "" else Prefixes[ms[0]] + Stack(ms[1..])
  }

  /** Stacked markers, in any order and any number, are all stripped. */
  lemma {:induction false} StackedMarkersStripped(ms: seq<nat>, x: string)
    requires forall k :: 0 <= k < |ms| ==> ms[k] < |Prefixes|
    ensures StripMarkers(Stack(ms) + x) == StripMarkers(x)
  {
    if ms != [] {
      var m, rest := Prefixes[ms[0]], Stack(ms[1..]) + x;
      assert Stack(ms) == m + Stack(ms[1..]);
      assert Stack(ms) + x == m + rest;
      Concatenated(m, rest);
      MarkerStep(m + rest, ms[0]);
      assert StripMarkers(m + rest) == StripMarkers(rest);
      StackedMarkersStripped(ms[1..], x);
    } else {
      assert Stack(ms) + x == x;
    }
  }

  /** Stacked markers are all stripped: `private_executable_x` becomes `x`. */
  lemma StackedMarkersExample()
    ensures NormalizedSegment(Prefixes[0] + Prefixes[1] + "x") == "x"
  {
    var s := Prefixes[0] + Prefixes[1] + "x";
    assert StripTmpl(s) == s by {
      NoTmplSuffix(s);
    }
    assert StripMarkers(s) == StripMarkers("x") by {
      assert Stack([1]) == Prefixes[1] + Stack([]);
      assert Stack([0, 1]) + "x" == s;
      StackedMarkersStripped([0, 1], "x");
    }
    PlainInitial("x");
  }

  /** The documented example on a whole path: `dot_config/private_foo`
      becomes `.config/foo`. */
  lemma NormalizeExample()
    ensures Normalized([DotMarker + "config", Prefixes[0] + "foo"]) == [".config", "foo"]
  {
    var p := [DotMarker + "config", Prefixes[0] + "foo"];
    assert Canonical(p);
    DotExamples();
    MarkerExample();
    NormalizedSegmentwise(p);
  }

  /** The template suffix is stripped once, before the markers: whatever `x`
      is, `x.tmpl` normalizes to `x` with its markers stripped. */
  lemma TmplStrippedOnce(x: string)
    ensures NormalizedSegment(x + TmplSuffix) == StripMarkers(x)
  {
    var s := x + TmplSuffix;
    assert s[..|x|] == x && s[|x|..] == TmplSuffix;
  }

  /** So normalizing is not idempotent in general: `a.tmpl.tmpl` becomes
      `a.tmpl`, which becomes `a`. */
  lemma NormalizeNotIdempotent()
    ensures Normalized(["a" + TmplSuffix + TmplSuffix]) == ["a" + TmplSuffix]
    ensures Normalized(["a" + TmplSuffix]) == ["a"]
  {
    TmplTwiceSegment();
    TmplOnceSegment();
    SingleSegment("a" + TmplSuffix + TmplSuffix);
    SingleSegment("a" + TmplSuffix);
  }

  /** `a.tmpl.tmpl` loses one suffix. */
  lemma TmplTwiceSegment()
    ensures NormalizedSegment("a" + TmplSuffix + TmplSuffix) == "a" + TmplSuffix
  {
    TmplStrippedOnce("a" + TmplSuffix);
    PlainInitial("a" + TmplSuffix);
  }

  /** `a.tmpl` loses its suffix. */
  lemma TmplOnceSegment()
    ensures NormalizedSegment("a" + TmplSuffix) == "a"
  {
    TmplStrippedOnce("a");
    PlainInitial("a");
  }

  // ---------------------------------------------------------------------------
  // chezmoify_path

  /** What `chezmoify_path` makes of one segment. */
  function ChezmoifiedSegment(part: string): (r: string)
    ensures !StartsWith(r, ".")
    ensures StartsWith(part, ".") ==> |r| == |part| + 3 && r[..|DotMarker|] == DotMarker && r[|DotMarker|..] == part[1..]
    ensures !StartsWith(part, ".") ==> r == part
  {
    if StartsWith(part, ".") then
      var r := DotMarker + part[1..];
      assert r[0] == 'd';
      r
    else part
  }

  /** The source path of a target path, for the import. */
  function Chezmoified(path: seq<string>): (r: seq<string>)
    ensures Canonical(r) && |r| <= |path|
  {
    var parts := PathParts(path);
    PathParts(seq(|parts|, k requires 0 <= k < |parts| => ChezmoifiedSegment(parts[k])))
  }

  /** `chezmoify_path`: a leading `.` of every segment becomes the hidden-file marker. */
  method ChezmoifyPath(path: seq<string>) returns (r: seq<string>)
    ensures r == Chezmoified(path)
  {
    var parts := PathParts(path);
    var newParts: seq<string> := [];
    var i := 0;
    while i < |parts|
      invariant 0 <= i <= |parts|
      invariant |newParts| == i
      invariant forall k :: 0 <= k < i ==> newParts[k] == ChezmoifiedSegment(parts[k])
    {
      if StartsWith(parts[i], ".") {
        newParts := newParts + [DotMarker + parts[i][1..]];
      } else {
        newParts := newParts + [parts[i]];
      }
      i := i + 1;
    }
    assert newParts == seq(|parts|, k requires 0 <= k < |parts| => ChezmoifiedSegment(parts[k]));
    r := PathParts(newParts);
  }

  /** Every segment survives chezmoify, in order: `.r` becomes `dot_r`, every
      other segment is untouched, and no attribute marker appears or vanishes. */
  lemma ChezmoifiedSegmentwise(path: seq<string>)
    ensures |Chezmoified(path)| == |PathParts(path)|
    ensures forall k :: 0 <= k < |PathParts(path)| ==>
      var s, c := PathParts(path)[k], Chezmoified(path)[k];
      (StartsWith(s, ".") ==> c == DotMarker + s[1..]) &&
      (!StartsWith(s, ".") ==> c == s) &&
      (forall m :: 0 <= m < |Prefixes| ==> (StartsWith(c, Prefixes[m]) <==> StartsWith(s, Prefixes[m])))
  {
    var parts := PathParts(path);
    var mapped := seq(|parts|, k requires 0 <= k < |parts| => ChezmoifiedSegment(parts[k]));
    forall k | 0 <= k < |parts| ensures mapped[k] != "" && mapped[k] != "." {
      if StartsWith(parts[k], ".") {
        assert mapped[k][..4] == DotMarker;
      }
    }
    assert PathParts(mapped) == mapped;
    forall k | 0 <= k < |parts| && StartsWith(parts[k], ".")
      ensures forall m :: 0 <= m < |Prefixes| ==> !StartsWith(mapped[k], Prefixes[m]) && !StartsWith(parts[k], Prefixes[m])
    {
      assert mapped[k][0] == 'd';
      NoMarkerAfter(mapped[k]);
      assert parts[k][0] == '.';
      NoMarkerAfter(parts[k]);
    }
  }

  /** The hidden-file marker in front of a segment never creates a template suffix. */
  lemma DotMarkerNoTmpl(r: string)
    ensures EndsWith(DotMarker + r, TmplSuffix) ==> EndsWith("." + r, TmplSuffix)
  {
    var d := DotMarker + r;
    if |r| >= 5 {
      assert d[|d| - 5..] == r[|r| - 5..];
      assert ("." + r)[|r| + 1 - 5..] == r[|r| - 5..];
    } else if |d| >= 5 {
      assert d[|d| - 5..][4 - |r|] == d[3];
    }
  }

  /** On one segment, normalizing undoes chezmoify when the segment has no
      template suffix and, unless it is hidden, no marker. */
  lemma SegmentRoundTrip(s: string)
    requires s != "" && !EndsWith(s, TmplSuffix)
    requires !StartsWith(s, ".") ==> Unmarked(s)
    ensures NormalizedSegment(ChezmoifiedSegment(s)) == s
  {
    if StartsWith(s, ".") {
      var r := s[1..];
      assert s == "." + r;
      var d := DotMarker + r;
      assert ChezmoifiedSegment(s) == d;
      DotMarkerNoTmpl(r);
      assert StripTmpl(d) == d;
      Concatenated(DotMarker, r);
      DotStep(d);
      assert s[0] == '.';
      NoMarkerAfter(s);
      FirstLetterDiffers(s, DotMarker);
      StripMarkersFixpoint(s);
    } else {
      PlainSegmentUnchanged(s);
    }
  }

  /** Normalizing undoes chezmoify on paths whose segments carry no template
      suffix and whose non-hidden segments carry no marker. */
  lemma NormalizeChezmoifyRoundTrip(path: seq<string>)
    requires Canonical(path)
    requires forall k :: 0 <= k < |path| ==> !EndsWith(path[k], TmplSuffix)
    requires forall k :: 0 <= k < |path| && !StartsWith(path[k], ".") ==> Unmarked(path[k])
    ensures Normalized(Chezmoified(path)) == path
  {
    var c := Chezmoified(path);
    ChezmoifiedSegmentwise(path);
    assert PathParts(path) == path;
    assert PathParts(c) == c;
    forall k | 0 <= k < |c| ensures NormalizeEach(c)[k] == path[k] {
      NormalizeEachAt(c, k);
      assert c[k] == ChezmoifiedSegment(path[k]);
      SegmentRoundTrip(path[k]);
    }
    assert NormalizeEach(c) == path;
  }

  /** The reverse round trip does not hold: chezmoify restores no attribute marker. */
  lemma ChezmoifyNormalizeNotInverse()
    ensures Normalized([Prefixes[0] + "foo"]) == ["foo"]
    ensures Chezmoified(["foo"]) == ["foo"]
  {
    MarkerExample();
    assert PathParts([Prefixes[0] + "foo"]) == [Prefixes[0] + "foo"];
    NormalizedSegmentwise([Prefixes[0] + "foo"]);
    FirstLetterDiffers("foo", ".");
    ChezmoifiedSegmentwise(["foo"]);
  }

  // ---------------------------------------------------------------------------
  // find_local_match

  /** One entry of the walk of the local repository: its path relative to the
      repository root and whether it is a regular file. */
  datatype Candidate = Candidate(rel: seq<string>, isFile: bool)

  /** The walk skips non-files and everything under a version-control or
      workspace directory; the test is on the full path, root included. */
  predicate Skipped(root: seq<string>, c: Candidate)
    ensures !c.isFile ==> Skipped(root, c)
    ensures ".git" in root || ".merge_workspace" in root ==> Skipped(root, c)
  {
    !c.isFile || ".git" in root + c.rel || ".merge_workspace" in root + c.rel
  }

  /** A candidate that the walk keeps and whose normalized path is the target. */
  predicate Matches(root: seq<string>, c: Candidate, target: seq<string>)
    ensures Matches(root, c, target) ==>
      c.isFile && ".git" !in c.rel && ".merge_workspace" !in c.rel
      && Normalized(c.rel) == PathParts(target)
  {
    !Skipped(root, c) && Normalized(c.rel) == PathParts(target)
  }

  /** `find_local_match` over the walk given in traversal order: the first
      candidate that matches, or nothing when none does. */
  method FindLocalMatch(root: seq<string>, candidates: seq<Candidate>, target: seq<string>)
    returns (r: Option<seq<string>>)
    ensures r.None? <==> forall k :: 0 <= k < |candidates| ==> !Matches(root, candidates[k], target)
    ensures r.Some? ==>
      exists k :: 0 <= k < |candidates| && r.value == candidates[k].rel &&
        Matches(root, candidates[k], target) &&
        forall j :: 0 <= j < k ==> !Matches(root, candidates[j], target)
    ensures r.Some? ==> Normalized(r.value) == PathParts(target)
    ensures ".git" in root ==> r.None?
  {
    var targetPath := PathParts(target);
    var i := 0;
    while i < |candidates|
      invariant 0 <= i <= |candidates|
      invariant forall j :: 0 <= j < i ==> !Matches(root, candidates[j], target)
    {
      var candidate := candidates[i];
      if !candidate.isFile {
        i := i + 1;
        continue;
      }
      var full := root + candidate.rel;
      if ".git" in full || ".merge_workspace" in full {
        i := i + 1;
        continue;
      }
      var normalized := NormalizePath(candidate.rel);
      if normalized == targetPath {
        return Some(candidate.rel);
      }
      i := i + 1;
    }
    return None;
  }
}
