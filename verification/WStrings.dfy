/** UTF-16 strings, searching them, cutting them at a delimiter and joining the pieces. */
module WStrings {

  newtype WChar = c: int | 0 <= c < 0x1_0000

  type WString = seq<WChar>

  datatype Found = NotFound | At(index: nat)

  predicate OccursAt(s: WString, d: WString, i: nat) {
    i + |d| <= |s| && s[i..i + |d|] == d
  }

  predicate Contains(s: WString, d: WString) {
    exists i: nat :: i <= |s| && OccursAt(s, d, i)
  }

  /** std::wstring::find. */
  function Find(s: WString, d: WString, from: nat): (r: Found)
    ensures r.At? ==> from <= r.index && r.index + |d| <= |s|
    decreases |s| - from
  {
    if from + |d| > |s| then NotFound
    else if OccursAt(s, d, from) then At(from)
    else Find(s, d, from + 1)
  }

  /** It finds the least occurrence at or after `from`, if there is one. */
  lemma {:induction false} FindLeast(s: WString, d: WString, from: nat)
    ensures match Find(s, d, from)
            case At(i) => OccursAt(s, d, i) && forall j: nat :: from <= j < i ==> !OccursAt(s, d, j)
            case NotFound => forall j: nat :: from <= j ==> !OccursAt(s, d, j)
    decreases |s| - from
  {
    if from + |d| <= |s| && !OccursAt(s, d, from) {
      FindLeast(s, d, from + 1);
    }
  }

  lemma FindIs(s: WString, d: WString, from: nat, i: nat)
    requires from <= i && OccursAt(s, d, i)
    requires forall j: nat :: from <= j < i ==> !OccursAt(s, d, j)
    ensures Find(s, d, from) == At(i)
  {
    FindLeast(s, d, from);
    hide Find, OccursAt;
  }

  lemma FindNothing(s: WString, d: WString, from: nat)
    requires forall j: nat :: from <= j ==> !OccursAt(s, d, j)
    ensures Find(s, d, from) == NotFound
  {
    FindLeast(s, d, from);
    hide Find, OccursAt;
  }

  lemma OccursInSuffix(s: WString, d: WString, from: nat, i: nat)
    requires from <= |s|
    ensures OccursAt(s[from..], d, i) <==> OccursAt(s, d, from + i)
  {
    if from + i + |d| <= |s| {
      assert s[from..][i..i + |d|] == s[from + i..from + i + |d|];
    }
  }

  /** Searching from an index finds what searching the suffix finds. */
  lemma FindInSuffix(s: WString, d: WString, from: nat)
    requires from <= |s|
    ensures Find(s, d, from) ==
            match Find(s[from..], d, 0)
            case NotFound => NotFound
            case At(i) => At(from + i)
  {
    FindLeast(s[from..], d, 0);
    hide Find;
    match Find(s[from..], d, 0) {
      case NotFound =>
        forall j: nat | from <= j
          ensures !OccursAt(s, d, j)
        {
          OccursInSuffix(s, d, from, j - from);
        }
        FindNothing(s, d, from);
      case At(i) =>
        forall j: nat | from <= j < from + i
          ensures !OccursAt(s, d, j)
        {
          OccursInSuffix(s, d, from, j - from);
        }
        OccursInSuffix(s, d, from, i);
        FindIs(s, d, from, from + i);
    }
  }

  /** The pieces of s between the occurrences of d found from left to right. */
  function Tokens(s: WString, d: WString): (ts: seq<WString>)
    requires d != []
    ensures ts != []
    decreases |s|
  {
    match Find(s, d, 0)
    case NotFound => [s]
    case At(i) => [s[..i]] + Tokens(s[i + |d|..], d)
  }

  function Join(ts: seq<WString>, d: WString): WString
    requires ts != []
  {
    if |ts| == 1 then ts[0] else ts[0] + d + Join(ts[1..], d)
  }
}
