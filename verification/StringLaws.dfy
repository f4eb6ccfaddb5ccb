/** Laws that link TokeniseString, Replace and Erase. */
module StringLaws {
  import opened WStrings
  import opened StringAlgorithms

  // ---- Occurrences in concatenations ----

  lemma OccursInPrefix(u: WString, v: WString, d: WString, j: nat)
    requires j + |d| <= |u|
    ensures OccursAt(u + v, d, j) <==> OccursAt(u, d, j)
  {
    assert (u + v)[j..j + |d|] == u[j..j + |d|];
  }

  /** Whether the first occurrence ends at the end of u does not depend on what follows u. */
  lemma FirstInPrefix(u: WString, v: WString, d: WString, i: nat)
    requires i + |d| == |u|
    ensures Find(u + v, d, 0) == At(i) <==> Find(u, d, 0) == At(i)
  {
    forall j: nat | j <= i
      ensures OccursAt(u + v, d, j) <==> OccursAt(u, d, j)
    {
      OccursInPrefix(u, v, d, j);
    }
    FindLeast(u + v, d, 0);
    FindLeast(u, d, 0);
    if Find(u, d, 0) == At(i) {
      FindIs(u + v, d, 0, i);
    }
    if Find(u + v, d, 0) == At(i) {
      FindIs(u, d, 0, i);
    }
  }

  lemma OccursLetter(s: WString, d: WString, j: nat, i: nat)
    requires OccursAt(s, d, j) && i < |d|
    ensures s[j + i] == d[i]
  {
    assert s[j..j + |d|][i] == s[j + i];
  }

  lemma JoinTwo(x: WString, y: WString, d: WString)
    ensures Join([x, y], d) == x + d + y
  {
    var ts := [x, y];
    assert ts[1..] == [y];
  }

  lemma NotContained(s: WString, d: WString)
    ensures Contains(s, d) <==> Find(s, d, 0).At?
  {
    FindLeast(s, d, 0);
  }

  // ---- Tokens characterised ----

  /** The first d in t followed by d is the one that follows it. */
  predicate EndsAtFirst(t: WString, d: WString) {
    Find(t + d, d, 0) == At(|t|)
  }

  predicate GreedyCut(ts: seq<WString>, d: WString) {
    && ts != []
    && (forall k :: 0 <= k < |ts| - 1 ==> EndsAtFirst(ts[k], d))
    && !Contains(ts[|ts| - 1], d)
  }

  lemma {:induction false} JoinTokens(s: WString, d: WString)
    requires d != []
    ensures Join(Tokens(s, d), d) == s
    decreases |s|
  {
    FindLeast(s, d, 0);
    match Find(s, d, 0) {
      case NotFound =>
      case At(i) =>
        JoinTokens(s[i + |d|..], d);
        JoinTokensHead(s, d, d);
        assert s == s[..i] + s[i..i + |d|] + s[i + |d|..];
    }
  }

  lemma JoinTokensHead(s: WString, d: WString, t: WString)
    requires d != [] && Find(s, d, 0).At?
    ensures var i := Find(s, d, 0).index;
            Join(Tokens(s, d), t) == s[..i] + t + Join(Tokens(s[i + |d|..], d), t)
  {
    var i := Find(s, d, 0).index;
    assert Tokens(s, d)[1..] == Tokens(s[i + |d|..], d);
  }

  lemma {:induction false} TokensAreGreedy(s: WString, d: WString)
    requires d != []
    ensures GreedyCut(Tokens(s, d), d)
    decreases |s|
  {
    FindLeast(s, d, 0);
    match Find(s, d, 0) {
      case NotFound => NotContained(s, d);
      case At(i) =>
        var rest := s[i + |d|..];
        TokensAreGreedy(rest, d);
        FirstInPrefix(s[..i + |d|], rest, d, i);
        assert s[..i + |d|] + rest == s && s[..i] + d == s[..i + |d|];
        GreedyCons(s[..i], Tokens(rest, d), d);
    }
  }

  lemma GreedyCons(t: WString, ts: seq<WString>, d: WString)
    requires EndsAtFirst(t, d) && GreedyCut(ts, d)
    ensures GreedyCut([t] + ts, d)
  {
    hide EndsAtFirst, Contains;
  }

  lemma TokensCons(t: WString, rest: WString, d: WString)
    requires d != [] && EndsAtFirst(t, d)
    ensures Tokens(t + d + rest, d) == [t] + Tokens(rest, d)
  {
    FirstInPrefix(t + d, rest, d, |t|);
    var s := t + d + rest;
    assert s[..|t|] == t && s[|t| + |d|..] == rest;
    hide Find;
  }

  lemma {:induction false} GreedyIsTokens(ts: seq<WString>, d: WString)
    requires d != [] && GreedyCut(ts, d)
    ensures Tokens(Join(ts, d), d) == ts
    decreases |ts|
  {
    if |ts| == 1 {
      NotContained(ts[0], d);
    } else {
      GreedyIsTokens(ts[1..], d);
      TokensCons(ts[0], Join(ts[1..], d), d);
      hide Find, Tokens, EndsAtFirst;
    }
  }

  /** The tokens of s are the one way of writing s as pieces joined by d that cuts at each first d. */
  lemma TokensIff(ts: seq<WString>, s: WString, d: WString)
    requires d != []
    ensures ts == Tokens(s, d) <==> ts != [] && Join(ts, d) == s && GreedyCut(ts, d)
  {
    JoinTokens(s, d);
    TokensAreGreedy(s, d);
    if ts != [] && Join(ts, d) == s && GreedyCut(ts, d) {
      GreedyIsTokens(ts, d);
    }
  }

  // ---- Borders, and when joining and cutting are inverse ----

  /** No proper non-empty prefix of d is also its suffix. */
  predicate BorderFree(d: WString) {
    forall k :: 0 < k < |d| ==> d[..k] != d[|d| - k..]
  }

  predicate AllFree(ts: seq<WString>, d: WString) {
    forall k :: 0 <= k < |ts| ==> !Contains(ts[k], d)
  }

  /** An occurrence that straddles the end of t overlaps the d behind it in a border of d. */
  lemma Straddle(t: WString, d: WString, j: nat)
    requires OccursAt(t + d, d, j) && j < |t| < j + |d|
    ensures !BorderFree(d)
  {
    var k := j + |d| - |t|;
    assert d[|d| - k..] == (t + d)[j..j + |d|][|d| - k..] == (t + d)[|t|..|t| + k] == d[..k];
  }

  lemma FreeEndsAtFirst(t: WString, d: WString)
    requires d != [] && BorderFree(d) && !Contains(t, d)
    ensures EndsAtFirst(t, d)
  {
    forall j: nat | j < |t|
      ensures !OccursAt(t + d, d, j)
    {
      if OccursAt(t + d, d, j) {
        if j + |d| <= |t| {
          OccursInPrefix(t, d, d, j);
        } else {
          Straddle(t, d, j);
        }
      }
    }
    assert (t + d)[|t|..|t| + |d|] == d;
    FindIs(t + d, d, 0, |t|);
  }

  lemma FreeIsGreedy(ts: seq<WString>, d: WString)
    requires ts != [] && d != [] && BorderFree(d) && AllFree(ts, d)
    ensures GreedyCut(ts, d)
  {
    forall k | 0 <= k < |ts| - 1
      ensures EndsAtFirst(ts[k], d)
    {
      FreeEndsAtFirst(ts[k], d);
    }
  }

  /** Cutting undoes joining of these pieces. */
  predicate JoinRoundTrips(ts: seq<WString>, d: WString)
    requires d != []
  {
    ts != [] ==> Tokens(Join(ts, d), d) == ts
  }

  function Overlap(d: WString, k: nat): seq<WString>
    requires 0 < k < |d|
  {
    [d[..|d| - k], []]
  }

  lemma ShorterIsFree(t: WString, d: WString)
    requires |t| < |d|
    ensures !Contains(t, d)
  {
  }

  lemma OverlapText(d: WString, k: nat)
    requires 0 < k < |d| && d[..k] == d[|d| - k..]
    ensures d[..|d| - k] + d == d + d[k..]
  {
    var w := d[..|d| - k];
    assert d == w + d[..k] && d == d[..k] + d[k..];
    assert w + d == w + (d[..k] + d[k..]) == (w + d[..k]) + d[k..];
  }

  /** With a border, joining [w, ""] where w is d without the border gives d at the very start. */
  lemma OverlapBreaks(d: WString, k: nat)
    requires 0 < k < |d| && d[..k] == d[|d| - k..]
    ensures AllFree(Overlap(d, k), d) && !JoinRoundTrips(Overlap(d, k), d)
  {
    var ts := Overlap(d, k);
    ShorterIsFree(ts[0], d);
    ShorterIsFree(ts[1], d);
    OverlapText(d, k);
    JoinTwo(ts[0], [], d);
    var s := Join(ts, d);
    assert s == ts[0] + d;
    assert s[0..|d|] == d;
    FindIs(s, d, 0, 0);
    assert Tokens(s, d)[0] == [];
  }

  /** Cutting undoes joining of every list of pieces without d, exactly when d has no border. */
  lemma JoinRoundTripsIff(d: WString)
    requires d != []
    ensures (forall ts :: AllFree(ts, d) ==> JoinRoundTrips(ts, d)) <==> BorderFree(d)
  {
    if BorderFree(d) {
      forall ts | AllFree(ts, d)
        ensures JoinRoundTrips(ts, d)
      {
        if ts != [] {
          FreeIsGreedy(ts, d);
          GreedyIsTokens(ts, d);
        }
      }
    } else {
      var k :| 0 < k < |d| && d[..k] == d[|d| - k..];
      OverlapBreaks(d, k);
    }
  }

  /** In particular, no token contains the delimiter; and free input pieces stay free of anything else. */
  lemma {:induction false} TokensOfFree(s: WString, a: WString, b: WString)
    requires a != [] && !Contains(s, b)
    ensures AllFree(Tokens(s, a), b)
    decreases |s|
  {
    match Find(s, a, 0) {
      case NotFound =>
      case At(i) =>
        var rest := s[i + |a|..];
        forall j: nat
          ensures !OccursAt(s[..i], b, j) && !OccursAt(rest, b, j)
        {
          if j + |b| <= i {
            assert s[..i] + s[i..] == s;
            OccursInPrefix(s[..i], s[i..], b, j);
          }
          OccursInSuffix(s, b, i + |a|, j);
        }
        TokensOfFree(rest, a, b);
    }
  }

  /** Nothing occurs in what lies before its first occurrence. */
  lemma BeforeFirst(s: WString, d: WString, i: nat)
    requires i <= |s| && forall j: nat :: j < i ==> !OccursAt(s, d, j)
    requires d != []
    ensures !Contains(s[..i], d)
  {
    forall j: nat
      ensures !OccursAt(s[..i], d, j)
    {
      if j + |d| <= i {
        assert s[..i] + s[i..] == s;
        OccursInPrefix(s[..i], s[i..], d, j);
      }
    }
  }

  lemma {:induction false} TokensAreFree(s: WString, d: WString)
    requires d != []
    ensures AllFree(Tokens(s, d), d)
    decreases |s|
  {
    FindLeast(s, d, 0);
    match Find(s, d, 0) {
      case NotFound => NotContained(s, d);
      case At(i) =>
        TokensAreFree(s[i + |d|..], d);
        BeforeFirst(s, d, i);
        TokensStep(s, d);
        hide Find, Tokens, Contains, OccursAt;
    }
  }

  // ---- Replacing back ----

  predicate Undoes(s: WString, a: WString, b: WString)
    requires a != [] && b != []
  {
    Join(Tokens(Join(Tokens(s, a), b), b), a) == s
  }

  /** Replacing a by b and back gives back a text without b, when b has no border. */
  lemma ReplaceUndo(s: WString, a: WString, b: WString)
    requires a != [] && b != [] && !Contains(s, b) && BorderFree(b)
    ensures Undoes(s, a, b)
  {
    TokensOfFree(s, a, b);
    FreeIsGreedy(Tokens(s, a), b);
    GreedyIsTokens(Tokens(s, a), b);
    JoinTokens(s, a);
  }

  function Run(e: WChar, n: nat): WString {
    seq(n, _ => e)
  }

  /** A letter different from two given ones. */
  function Other(x: WChar, y: WChar): (e: WChar)
    ensures e != x && e != y
  {
    if x != 0 && y != 0 then 0 else if x != 1 && y != 1 then 1 else 2
  }

  /**
   * For b with border b[..k], w the part before it: the text w followed by a run a of some letter
   * that neither w nor b ends with, the run being longer than w.
   */
  function Spoiler(b: WString, k: nat): (WString, WString)
    requires 0 < k < |b|
  {
    var w := b[..|b| - k];
    var a := Run(Other(w[|w| - 1], b[|b| - 1]), |w| + 1);
    (w + a, a)
  }

  lemma SpoilerFree(b: WString, k: nat)
    requires 0 < k < |b|
    ensures !Contains(Spoiler(b, k).0, b)
  {
    var (s, a) := Spoiler(b, k);
    var w := b[..|b| - k];
    forall j: nat
      ensures !OccursAt(s, b, j)
    {
      if OccursAt(s, b, j) {
        OccursLetter(s, b, j, |b| - 1);
      }
    }
  }

  /** The run is found exactly behind w. */
  lemma SpoilerTokens(b: WString, k: nat)
    requires 0 < k < |b|
    ensures var (s, a) := Spoiler(b, k); Tokens(s, a) == [b[..|b| - k], []]
  {
    var (s, a) := Spoiler(b, k);
    var w := b[..|b| - k];
    forall j: nat | j < |w|
      ensures !OccursAt(s, a, j)
    {
      if OccursAt(s, a, j) {
        OccursLetter(s, a, j, |w| - 1 - j);
      }
    }
    assert s[|w|..|w| + |a|] == a;
    FindIs(s, a, 0, |w|);
    assert s[..|w|] == w && s[|w| + |a|..] == [];
  }

  lemma OverlapTokens(b: WString, k: nat)
    requires 0 < k < |b|
    ensures Tokens(b + b[k..], b) == [[], b[k..]]
  {
    var r := b + b[k..];
    assert r[0..|b|] == b && r[|b|..] == b[k..] && r[..0] == [];
    FindIs(r, b, 0, 0);
    ShorterIsFree(b[k..], b);
    NotContained(b[k..], b);
    hide Find, Contains, OccursAt;
  }

  /** There and back, the run has changed places with w. */
  lemma SpoilerBack(b: WString, k: nat)
    requires 0 < k < |b| && b[..k] == b[|b| - k..]
    ensures var (s, a) := Spoiler(b, k);
            a != [] && Join(Tokens(Join(Tokens(s, a), b), b), a) == [] + a + b[k..]
  {
    var (s, a) := Spoiler(b, k);
    var w := b[..|b| - k];
    assert a != [];
    hide *;
    SpoilerTokens(b, k);
    JoinTwo(w, [], b);
    OverlapText(b, k);
    assert w + b + [] == b + b[k..];
    OverlapTokens(b, k);
    JoinTwo([], b[k..], a);
  }

  lemma SpoilerDiffers(b: WString, k: nat)
    requires 0 < k < |b|
    ensures var (s, a) := Spoiler(b, k); [] + a + b[k..] != s
  {
    var (s, a) := Spoiler(b, k);
    var last := |b| - k - 1;
    assert ([] + a + b[k..])[last] == a[last] != b[last] == s[last];
  }

  lemma SpoilerSpoils(b: WString, k: nat)
    requires 0 < k < |b| && b[..k] == b[|b| - k..]
    ensures var (s, a) := Spoiler(b, k); a != [] && !Undoes(s, a, b)
  {
    SpoilerBack(b, k);
    SpoilerDiffers(b, k);
    hide Spoiler, Tokens, Join;
  }

  /** Replacing b's way back works for every a and every text without b, exactly when b has no border. */
  lemma ReplaceUndoIff(b: WString)
    requires b != []
    ensures (forall s, a :: a != [] && !Contains(s, b) ==> Undoes(s, a, b)) <==> BorderFree(b)
  {
    if BorderFree(b) {
      forall s, a | a != [] && !Contains(s, b)
        ensures Undoes(s, a, b)
      {
        ReplaceUndo(s, a, b);
      }
    } else {
      var k :| 0 < k < |b| && b[..k] == b[|b| - k..];
      var (s, a) := Spoiler(b, k);
      SpoilerFree(b, k);
      SpoilerSpoils(b, k);
    }
  }

  // ---- Optimality and length ----

  /** Pairwise non-overlapping occurrences, from left to right. */
  predicate Packing(ps: seq<nat>, s: WString, d: WString) {
    && (forall i :: 0 <= i < |ps| ==> OccursAt(s, d, ps[i]))
    && (forall i, j :: 0 <= i < j < |ps| ==> ps[i] + |d| <= ps[j])
  }

  predicate AllFrom(ps: seq<nat>, offset: nat) {
    forall i :: 0 <= i < |ps| ==> offset <= ps[i]
  }

  function Shifted(ps: seq<nat>, offset: nat): seq<nat>
    requires AllFrom(ps, offset)
  {
    seq(|ps|, i requires 0 <= i < |ps| => ps[i] - offset)
  }

  lemma ShiftedPacking(ps: seq<nat>, s: WString, d: WString, offset: nat)
    requires offset <= |s| && Packing(ps, s, d) && AllFrom(ps, offset)
    ensures Packing(Shifted(ps, offset), s[offset..], d)
  {
    forall i | 0 <= i < |ps|
      ensures OccursAt(s[offset..], d, Shifted(ps, offset)[i])
    {
      OccursInSuffix(s, d, offset, ps[i] - offset);
    }
  }

  lemma FirstPlaced(ps: seq<nat>, s: WString, d: WString)
    requires ps != [] && Packing(ps, s, d)
    ensures Find(s, d, 0).At? && Find(s, d, 0).index <= ps[0]
  {
    FindLeast(s, d, 0);
    assert OccursAt(s, d, ps[0]);
    hide Find, OccursAt;
  }

  lemma PackingTail(ps: seq<nat>, s: WString, d: WString)
    requires ps != [] && Packing(ps, s, d)
    ensures Packing(ps[1..], s, d) && AllFrom(ps[1..], ps[0] + |d|)
  {
    hide OccursAt;
  }

  lemma AllFromLower(ps: seq<nat>, high: nat, low: nat)
    requires AllFrom(ps, high) && low <= high
    ensures AllFrom(ps, low)
  {
  }

  /** Whatever the first placed occurrence is, the others lie behind the first cut. */
  lemma AfterFirstCut(ps: seq<nat>, s: WString, d: WString)
    requires d != [] && ps != [] && Packing(ps, s, d)
    ensures Find(s, d, 0).At?
    ensures var end := Find(s, d, 0).index + |d|;
            && end <= |s| && AllFrom(ps[1..], end)
            && Packing(Shifted(ps[1..], end), s[end..], d)
  {
    hide *;
    FirstPlaced(ps, s, d);
    PackingTail(ps, s, d);
    var end := Find(s, d, 0).index + |d|;
    AllFromLower(ps[1..], ps[0] + |d|, end);
    ShiftedPacking(ps[1..], s, d, end);
  }

  /** No way of placing non-overlapping occurrences beats the cuts of the tokeniser. */
  lemma {:induction false} GreedyIsOptimal(ps: seq<nat>, s: WString, d: WString)
    requires d != [] && Packing(ps, s, d)
    ensures |ps| <= |Tokens(s, d)| - 1
    decreases |s|
  {
    if ps != [] {
      AfterFirstCut(ps, s, d);
      var end := Find(s, d, 0).index + |d|;
      GreedyIsOptimal(Shifted(ps[1..], end), s[end..], d);
      TokensStep(s, d);
      hide Find, Tokens, Packing, AllFrom, Shifted;
    }
  }

  /** Where the tokeniser cuts. */
  function Cuts(s: WString, d: WString): seq<nat>
    requires d != []
    decreases |s|
  {
    match Find(s, d, 0)
    case NotFound => []
    case At(i) => [i] + Moved(Cuts(s[i + |d|..], d), i + |d|)
  }

  function Moved(ps: seq<nat>, offset: nat): seq<nat> {
    seq(|ps|, i requires 0 <= i < |ps| => ps[i] + offset)
  }

  lemma {:induction false} CutsArePacking(s: WString, d: WString)
    requires d != []
    ensures Packing(Cuts(s, d), s, d) && |Cuts(s, d)| == |Tokens(s, d)| - 1
    decreases |s|
  {
    FindLeast(s, d, 0);
    match Find(s, d, 0) {
      case NotFound =>
      case At(i) =>
        var rest := s[i + |d|..];
        TokensStep(s, d);
        CutsStep(s, d);
        MovedSize(Cuts(rest, d), i + |d|);
        hide *;
        CutsArePacking(rest, d);
        MovedPacking(Cuts(rest, d), s, d, i);
    }
  }

  lemma CutsStep(s: WString, d: WString)
    requires d != [] && Find(s, d, 0).At?
    ensures var i := Find(s, d, 0).index;
            Cuts(s, d) == [i] + Moved(Cuts(s[i + |d|..], d), i + |d|)
  {
  }

  lemma MovedSize(ps: seq<nat>, offset: nat)
    ensures |Moved(ps, offset)| == |ps|
  {
  }

  lemma MovedPacking(ps: seq<nat>, s: WString, d: WString, i: nat)
    requires OccursAt(s, d, i) && Packing(ps, s[i + |d|..], d)
    ensures Packing([i] + Moved(ps, i + |d|), s, d)
  {
    var qs := [i] + Moved(ps, i + |d|);
    forall k | 0 <= k < |qs|
      ensures OccursAt(s, d, qs[k])
    {
      if k > 0 {
        OccursInSuffix(s, d, i + |d|, ps[k - 1]);
      }
    }
    hide OccursAt;
  }

  lemma {:induction false} JoinLength(ts: seq<WString>, d: WString, t: WString)
    requires ts != []
    ensures |Join(ts, t)| - |Join(ts, d)| == (|ts| - 1) * (|t| - |d|)
  {
    if |ts| > 1 {
      JoinLength(ts[1..], d, t);
      assert (|ts| - 1) * (|t| - |d|) == (|ts| - 2) * (|t| - |d|) + (|t| - |d|);
    }
  }

  lemma LengthByCuts(s: WString, f: WString, t: WString)
    requires f != []
    ensures |Join(Tokens(s, f), t)| == |s| + |Cuts(s, f)| * (|t| - |f|)
  {
    hide *;
    CutsArePacking(s, f);
    JoinTokens(s, f);
    JoinLength(Tokens(s, f), f, t);
  }

  /** The length of a replacement, for the largest possible number n of non-overlapping occurrences. */
  lemma ReplaceLength(s: WString, f: WString, t: WString)
    requires f != []
    ensures exists ps :: && Packing(ps, s, f)
                         && (forall qs :: Packing(qs, s, f) ==> |qs| <= |ps|)
                         && |Join(Tokens(s, f), t)| == |s| + |ps| * (|t| - |f|)
  {
    hide *;
    CutsArePacking(s, f);
    forall qs | Packing(qs, s, f)
      ensures |qs| <= |Cuts(s, f)|
    {
      GreedyIsOptimal(qs, s, f);
    }
    LengthByCuts(s, f, t);
  }

  // ---- Erase ----

  lemma {:induction false} KeepConcat(a: WString, b: WString, what: WChar)
    ensures Keep(a + b, what) == Keep(a, what) + Keep(b, what)
  {
    if a == [] {
      assert a + b == b;
    } else {
      assert (a + b)[1..] == a[1..] + b;
      KeepConcat(a[1..], b, what);
    }
  }

  lemma {:induction false} KeepAll(s: WString, what: WChar)
    requires forall i :: 0 <= i < |s| ==> s[i] != what
    ensures Keep(s, what) == s
  {
    if s != [] {
      KeepAll(s[1..], what);
    }
  }

  lemma OccursOne(s: WString, what: WChar, i: nat)
    ensures OccursAt(s, [what], i) <==> i < |s| && s[i] == what
  {
    if i < |s| {
      assert s[i..i + 1] == [s[i]];
    }
  }

  /** Erasing a character is replacing it by nothing, that is, concatenating the tokens it delimits. */
  lemma {:induction false} EraseIsReplace(s: WString, what: WChar)
    ensures Keep(s, what) == Join(Tokens(s, [what]), [])
    decreases |s|
  {
    FindLeast(s, [what], 0);
    forall i: nat
      ensures OccursAt(s, [what], i) <==> i < |s| && s[i] == what
    {
      OccursOne(s, what, i);
    }
    match Find(s, [what], 0) {
      case NotFound =>
        KeepAll(s, what);
      case At(i) =>
        KeepFirst(s, what, i);
        JoinTokensHead(s, [what], []);
        hide *;
        EraseIsReplace(s[i + 1..], what);
    }
  }

  lemma KeepFirst(s: WString, what: WChar, i: nat)
    requires i < |s| && s[i] == what && forall j :: 0 <= j < i ==> s[j] != what
    ensures Keep(s, what) == s[..i] + [] + Keep(s[i + 1..], what)
  {
    KeepAll(s[..i], what);
    assert s[i..][1..] == s[i + 1..];
    KeepConcat(s[..i], s[i..], what);
    assert s == s[..i] + s[i..];
  }

  /** What is kept is what differs, in number and in content. */
  lemma {:induction false} KeepCounts(s: WString, what: WChar, c: WChar)
    ensures multiset(Keep(s, what))[c] == if c == what then 0 else multiset(s)[c]
  {
    if s != [] {
      assert s == [s[0]] + s[1..];
      KeepCounts(s[1..], what, c);
    }
  }

  // ---- Why the delimiter must not be empty ----

  /** The next search position lies ahead exactly when the string searched for is not empty. */
  lemma AdvancesIff(s: WString, d: WString, from: nat)
    requires from <= |s| && (d == [] || Find(s, d, from).At?)
    ensures Find(s, d, from).At?
    ensures Find(s, d, from).index + |d| > from <==> d != []
  {
    if d == [] {
      assert s[from..from + 0] == [];
    }
  }
}
