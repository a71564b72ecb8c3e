/** The string operations the pages and the request guards rely on:
    JavaScript's white space (`\s`, `trim`), `toLowerCase`, `includes`,
    `split` on one character and `join`. */
module Text {

  /** The characters JavaScript's `\s` matches and `String.prototype.trim`
      removes: the ECMAScript WhiteSpace and LineTerminator characters. */
  predicate IsSpace(c: char) {
    || c == ' ' || c == '\t' || c == '\n' || c == '\r'
    || c == '\U{0B}' || c == '\U{0C}' || c == '\U{A0}' || c == '\U{FEFF}'
    || c == '\U{1680}' || ('\U{2000}' <= c <= '\U{200A}')
    || c == '\U{2028}' || c == '\U{2029}' || c == '\U{202F}'
    || c == '\U{205F}' || c == '\U{3000}'
  }

  predicate AllSpace(s: string) {
    forall i :: 0 <= i < |s| ==> IsSpace(s[i])
  }

  /** How many white-space characters `s` starts with. */
  function LeadingBlanks(s: string): (k: nat)
    ensures k <= |s|
    ensures forall i :: 0 <= i < k ==> IsSpace(s[i])
    ensures k == |s| || !IsSpace(s[k])
  {
    if s != [] && IsSpace(s[0]) then
      var k := LeadingBlanks(s[1..]);
      assert forall i :: 1 <= i < k + 1 ==> s[i] == s[1..][i - 1];
      1 + k
    else 0
  }

  /** Where the trailing white space of `s` begins. */
  function ContentEnd(s: string): (k: nat)
    ensures k <= |s|
    ensures forall i :: k <= i < |s| ==> IsSpace(s[i])
    ensures k == 0 || !IsSpace(s[k - 1])
  {
    if s != [] && IsSpace(s[|s| - 1]) then
      var k := ContentEnd(s[..|s| - 1]);
      assert forall i :: k <= i < |s| - 1 ==> s[i] == s[..|s| - 1][i];
      k
    else |s|
  }

  /** `s.trim()`: what is left once the white space at both ends is cut
      off. */
  function Trim(s: string): string {
    var t := s[LeadingBlanks(s)..];
    t[..ContentEnd(t)]
  }

  /** Trimming leaves no white space at either end. */
  lemma TrimEnds(s: string)
    ensures var r := Trim(s);
      r == [] || (!IsSpace(r[0]) && !IsSpace(r[|r| - 1]))
  {
    var t := s[LeadingBlanks(s)..];
    var r := t[..ContentEnd(t)];
    if r != [] {
      assert r[0] == t[0];
      assert r[|r| - 1] == t[|r| - 1];
    }
  }

  /** A trimmed string is the part of `s` left after cutting white space
      off both ends: it starts after the leading blanks, and everything
      after it is white space. */
  lemma TrimShape(s: string)
    ensures var r := Trim(s);
      var k := LeadingBlanks(s);
      && k + |r| <= |s|
      && (forall i :: 0 <= i < |r| ==> r[i] == s[k + i])
      && (forall i :: 0 <= i < k ==> IsSpace(s[i]))
      && (forall i :: k + |r| <= i < |s| ==> IsSpace(s[i]))
  {
    var k := LeadingBlanks(s);
    var t := s[k..];
    var b := ContentEnd(t);
    var r := t[..b];
    forall i | 0 <= i < |r|
      ensures r[i] == s[k + i]
    {
      assert r[i] == t[i];
    }
    forall i | k + b <= i < |s|
      ensures IsSpace(s[i])
    {
      assert s[i] == t[i - k];
    }
  }

  /** Only a string made of white space trims to the empty string. */
  lemma TrimEmptyIff(s: string)
    ensures Trim(s) == [] <==> AllSpace(s)
  {
    var k := LeadingBlanks(s);
    var t := s[k..];
    if Trim(s) == [] {
      assert ContentEnd(t) == 0;
    }
  }

  /** Neither starting nor ending with white space. */
  predicate Trimmed(t: string) {
    t == [] || (!IsSpace(t[0]) && !IsSpace(t[|t| - 1]))
  }

  /** The trimmed strings are exactly those trimming leaves alone. */
  lemma TrimmedIff(t: string)
    ensures Trimmed(t) <==> Trim(t) == t
    ensures Trimmed(Trim(t))
  {
    TrimEnds(t);
    if Trimmed(t) {
      assert LeadingBlanks(t) == 0;
      assert t[0..] == t;
      assert ContentEnd(t) == |t|;
    }
  }

  /** A string already trimmed is left alone, so trimming twice is trimming once. */
  lemma TrimIdempotent(s: string)
    ensures Trim(Trim(s)) == Trim(s)
  {
    TrimmedIff(s);
    TrimmedIff(Trim(s));
  }

  /** Trimming never brings in a character the string did not have. */
  lemma TrimKeepsOut(s: string, c: char)
    requires c !in s
    ensures c !in Trim(s)
  {
    var k := LeadingBlanks(s);
    var t := s[k..];
    var r := t[..ContentEnd(t)];
    forall i | 0 <= i < |r|
      ensures r[i] != c
    {
      assert r[i] == s[k + i];
    }
  }

  /** One more leading blank changes nothing once trimmed. */
  lemma TrimLeadingBlank(s: string)
    ensures Trim(" " + s) == Trim(s)
  {
    var b := " " + s;
    assert b[1..] == s;
    assert LeadingBlanks(b) == 1 + LeadingBlanks(s);
    assert b[LeadingBlanks(b)..] == s[LeadingBlanks(s)..];
  }

  /** `toLowerCase` on one character; only the ASCII letters are folded. */
  function LowerChar(c: char): char {
    if 'A' <= c <= 'Z' then (c as int + 32) as char else c
  }

  function ToLower(s: string): (r: string)
    ensures |r| == |s|
    ensures forall i :: 0 <= i < |s| ==> r[i] == LowerChar(s[i])
  {
    seq(|s|, i requires 0 <= i < |s| => LowerChar(s[i]))
  }

  /** `s.startsWith(t)` */
  predicate StartsWith(s: string, t: string) {
    |t| <= |s| && s[..|t|] == t
  }

  /** `s.includes(t)`, searched from the left one position at a time. */
  predicate Contains(s: string, t: string)
    decreases |s|
  {
    StartsWith(s, t) || (s != [] && Contains(s[1..], t))
  }

  /** `t` occurs in `s` starting at position `i`. */
  predicate OccursAt(s: string, t: string, i: int) {
    0 <= i && i + |t| <= |s| && s[i..i + |t|] == t
  }

  /** `includes` finds `t` exactly when `t` occurs at some position of `s`. */
  lemma {:induction false} ContainsIff(s: string, t: string)
    ensures Contains(s, t) <==> exists i :: OccursAt(s, t, i)
    decreases |s|
  {
    if StartsWith(s, t) {
      assert OccursAt(s, t, 0);
    } else if s != [] {
      ContainsIff(s[1..], t);
      if Contains(s[1..], t) {
        var i :| OccursAt(s[1..], t, i);
        assert s[i + 1..i + 1 + |t|] == s[1..][i..i + |t|];
        assert OccursAt(s, t, i + 1);
      }
      if i :| OccursAt(s, t, i) {
        assert i != 0;
        assert s[1..][i - 1..i - 1 + |t|] == s[i..i + |t|];
        assert OccursAt(s[1..], t, i - 1);
      }
    }
  }

  /** The empty query is found in every string. */
  lemma ContainsEmpty(s: string)
    ensures Contains(s, "")
  {
  }

  /** `a.toLowerCase().includes(q.toLowerCase())`: the case-insensitive
      substring test every search box uses. */
  predicate ContainsIgnoreCase(s: string, q: string) {
    Contains(ToLower(s), ToLower(q))
  }

  /** `s.split(sep)` for a one-character separator: the pieces between the
      separators, so the empty string gives one empty piece. */
  function Split(s: string, sep: char): (r: seq<string>)
    ensures |r| >= 1
    ensures forall i :: 0 <= i < |r| ==> sep !in r[i]
    decreases |s|
  {
    if s == [] then [""]
    else if s[0] == sep then [""] + Split(s[1..], sep)
    else
      var rest := Split(s[1..], sep);
      [[s[0]] + rest[0]] + rest[1..]
  }

  /** `parts.join(sep)` */
  function Join(parts: seq<string>, sep: string): string {
    if parts == [] then ""
    else if |parts| == 1 then parts[0]
    else parts[0] + sep + Join(parts[1..], sep)
  }

  /** A prefix of the first piece comes out in front of the join. */
  lemma JoinFirstPrefix(p: string, a: string, rest: seq<string>, sep: string)
    ensures Join([p + a] + rest, sep) == p + Join([a] + rest, sep)
  {
    if rest != [] {
      assert ([p + a] + rest)[1..] == rest;
      assert ([a] + rest)[1..] == rest;
    }
  }

  /** Joining the pieces of a split with the same separator gives the
      string back. */
  lemma {:induction false} JoinSplit(s: string, sep: char)
    ensures Join(Split(s, sep), [sep]) == s
    decreases |s|
  {
    if s != [] {
      JoinSplit(s[1..], sep);
      var rest := Split(s[1..], sep);
      if s[0] == sep {
        assert s == [sep] + s[1..];
      } else if |rest| == 1 {
        assert s == [s[0]] + s[1..];
      } else {
        assert Join(rest, [sep]) == rest[0] + [sep] + Join(rest[1..], [sep]);
        assert s == [s[0]] + s[1..];
      }
    }
  }

  /** Splitting a join of separator-free pieces gives the pieces back. */
  lemma {:induction false} SplitJoin(parts: seq<string>, sep: char)
    requires |parts| >= 1
    requires forall i :: 0 <= i < |parts| ==> sep !in parts[i]
    ensures Split(Join(parts, [sep]), sep) == parts
    decreases |parts|, |parts[0]|
  {
    var p := parts[0];
    if p == [] {
      if |parts| > 1 {
        SplitJoin(parts[1..], sep);
        assert Join(parts, [sep]) == [sep] + Join(parts[1..], [sep]);
      }
    } else {
      var parts' := [p[1..]] + parts[1..];
      SplitJoin(parts', sep);
      if |parts| == 1 {
        assert Join(parts, [sep]) == [p[0]] + Join(parts', [sep]);
      } else {
        assert Join(parts', [sep]) == p[1..] + [sep] + Join(parts[1..], [sep]);
        assert Join(parts, [sep]) == [p[0]] + Join(parts', [sep]);
      }
      assert [p[0]] + p[1..] == p;
      assert parts'[1..] == parts[1..];
      assert [[p[0]] + p[1..]] + parts'[1..] == parts;
    }
  }

  /** A text without the separator is a single piece. */
  lemma {:induction false} SplitWithoutSeparator(s: string, sep: char)
    requires sep !in s
    ensures Split(s, sep) == [s]
    decreases |s|
  {
    if s != [] {
      SplitWithoutSeparator(s[1..], sep);
      assert [s[0]] + s[1..] == s;
      assert [s[1..]][1..] == [];
    }
  }

  /** A separator-free first field splits off as the first piece. */
  lemma {:induction false} SplitAfterField(a: string, sep: char, b: string)
    requires sep !in a
    ensures Split(a + [sep] + b, sep) == [a] + Split(b, sep)
    decreases |a|
  {
    if a == [] {
      assert a + [sep] + b == [sep] + b;
    } else {
      SplitAfterField(a[1..], sep, b);
      assert (a + [sep] + b)[1..] == a[1..] + [sep] + b;
      assert [a[0]] + a[1..] == a;
    }
  }
}
