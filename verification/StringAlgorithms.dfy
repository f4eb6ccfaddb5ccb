/** TokeniseString, Replace and Erase, each proved to compute a function of its inputs. */
module StringAlgorithms {
  import opened WStrings

  /** A delimiter that is empty would be found at once and never advanced past. */
  method TokeniseString(stringToTokenise: WString, delimiter: WString) returns (results: seq<WString>)
    requires delimiter != []
    ensures results == Tokens(stringToTokenise, delimiter)
  {
    hide Find, Tokens;
    TokensEnd(stringToTokenise, delimiter);
    results := [];
    var intermediate := stringToTokenise;
    if Find(stringToTokenise, delimiter, 0) == NotFound {
      results := results + [stringToTokenise];
    } else {
      var found := Find(intermediate, delimiter, 0);
      while found != NotFound
        invariant found == Find(intermediate, delimiter, 0)
        invariant found.At? ==> results + Tokens(intermediate, delimiter) == Tokens(stringToTokenise, delimiter)
        invariant found.NotFound? ==> results == Tokens(stringToTokenise, delimiter)
        decreases |intermediate|
      {
        TokensStep(intermediate, delimiter);
        ghost var before := results;
        var split := intermediate[..found.index];
        results := results + [split];
        intermediate := intermediate[found.index + |delimiter|..];
        assert before + ([split] + Tokens(intermediate, delimiter)) == results + Tokens(intermediate, delimiter);
        TokensEnd(intermediate, delimiter);
        if Find(intermediate, delimiter, 0) == NotFound {
          results := results + [intermediate];
        }
        found := Find(intermediate, delimiter, 0);
      }
    }
  }

  lemma TokensStep(s: WString, d: WString)
    requires d != [] && Find(s, d, 0).At?
    ensures var i := Find(s, d, 0).index;
            Tokens(s, d) == [s[..i]] + Tokens(s[i + |d|..], d)
  {
  }

  lemma TokensEnd(s: WString, d: WString)
    requires d != []
    ensures Find(s, d, 0).NotFound? ==> Tokens(s, d) == [s]
  {
  }

  method Replace(source: WString, from: WString, to: WString) returns (newString: WString)
    requires from != []
    ensures newString == Join(Tokens(source, from), to)
  {
    hide Find, Tokens, Join;
    newString := [];
    var lastPos := 0;
    var findPos := Find(source, from, lastPos);
    ghost var all := Join(Tokens(source, from), to);
    ghost var rest := all;  // what the remaining rounds will append
    assert source[0..] == source;
    while findPos != NotFound
      invariant lastPos <= |source| && findPos == Find(source, from, lastPos)
      invariant rest == Join(Tokens(source[lastPos..], from), to)
      invariant newString + rest == all
      decreases |source| - lastPos
    {
      ReplaceStep(source, from, to, lastPos);
      rest := Join(Tokens(source[findPos.index + |from|..], from), to);
      Regroup(newString, source[lastPos..findPos.index], to, rest);
      newString := newString + source[lastPos..findPos.index];
      newString := newString + to;
      lastPos := findPos.index + |from|;
      findPos := Find(source, from, lastPos);
    }
    ReplaceEnd(source, from, to, lastPos);
    newString := newString + source[lastPos..];
  }

  lemma Regroup(a: WString, b: WString, c: WString, d: WString)
    ensures a + (b + c + d) == a + b + c + d
  {
  }

  lemma ReplaceEnd(s: WString, d: WString, t: WString, from: nat)
    requires d != [] && from <= |s| && Find(s, d, from).NotFound?
    ensures Join(Tokens(s[from..], d), t) == s[from..]
  {
    FindInSuffix(s, d, from);
    TokensEnd(s[from..], d);
  }

  /** One round of the loop: from the last position to the next, and on. */
  lemma ReplaceStep(s: WString, d: WString, t: WString, from: nat)
    requires d != [] && from <= |s| && Find(s, d, from).At?
    ensures var i := Find(s, d, from).index;
            && from <= i && i + |d| <= |s|
            && Join(Tokens(s[from..], d), t) == s[from..i] + t + Join(Tokens(s[i + |d|..], d), t)
  {
    FindInSuffix(s, d, from);
    var i := Find(s, d, from).index;
    TokensStep(s[from..], d);
    assert s[from..][..i - from] == s[from..i];
    assert s[from..][i - from + |d|..] == s[i + |d|..];
    assert Tokens(s[from..], d)[1..] == Tokens(s[i + |d|..], d);
  }

  // ---- Erase ----

  function Keep(s: WString, what: WChar): WString {
    if s == [] then [] else (if s[0] == what then [] else [s[0]]) + Keep(s[1..], what)
  }

  lemma {:induction false} KeepAppend(s: WString, c: WChar, what: WChar)
    ensures Keep(s + [c], what) == Keep(s, what) + if c == what then [] else [c]
  {
    if s == [] {
    } else {
      assert (s + [c])[1..] == s[1..] + [c];
      KeepAppend(s[1..], c, what);
    }
  }

  /** std::remove: compacts the kept elements towards the front; returns their number. */
  method Compact(a: array<WChar>, what: WChar) returns (kept: nat)
    modifies a
    ensures kept <= a.Length && a[..kept] == Keep(old(a[..]), what)
  {
    kept := 0;
    var read := 0;
    while read < a.Length
      invariant kept <= read <= a.Length
      invariant a[..kept] == Keep(old(a[..])[..read], what)
      invariant a[read..] == old(a[..])[read..]
    {
      assert old(a[..])[..read + 1] == old(a[..])[..read] + [a[read]] by {
        assert a[read] == a[read..][0];
      }
      KeepAppend(old(a[..])[..read], a[read], what);
      ghost var tail := a[read + 1..];
      assert tail == a[read..][1..];
      if a[read] != what {
        a[kept] := a[read];
        kept := kept + 1;
      }
      read := read + 1;
      assert a[read..] == tail;
    }
    assert old(a[..])[..read] == old(a[..]);
  }

  method Erase(source: WString, what: WChar) returns (result: WString)
    ensures result == Keep(source, what)
  {
    var a := new WChar[|source|](i requires 0 <= i < |source| => source[i]);
    assert a[..] == source;
    var kept := Compact(a, what);
    result := a[..kept];
  }
}
