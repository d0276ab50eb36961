/** The JavaScript string operations the profile editor relies on:
    `String.prototype.trim`, `String.prototype.split` with a one-character
    separator, and the skills pipeline built from them. */
module JsStrings {

  /** `n` lies in one of the inclusive code point ranges. */
  predicate InRanges(n: int, ranges: seq<(int, int)>) {
    |ranges| > 0 && (ranges[0].0 <= n <= ranges[0].1 || InRanges(n, ranges[1..]))
  }

  /** The code points of ECMAScript's WhiteSpace and LineTerminator
      productions (TAB, LF, VT, FF, CR, the Unicode space separators,
      LS, PS and ZWNBSP): exactly what `trim` removes from both ends. */
  const WhiteSpaceRanges: seq<(int, int)> :=
    [(0x09, 0x0D), (0x20, 0x20), (0xA0, 0xA0), (0x1680, 0x1680), (0x2000, 0x200A),
     (0x2028, 0x2029), (0x202F, 0x202F), (0x205F, 0x205F), (0x3000, 0x3000), (0xFEFF, 0xFEFF)]

  predicate IsWhiteSpace(c: char) {
    InRanges(c as int, WhiteSpaceRanges)
  }

  lemma {:induction false} NotInRanges(n: int, ranges: seq<(int, int)>)
    requires forall k | 0 <= k < |ranges| :: !(ranges[k].0 <= n <= ranges[k].1)
    ensures !InRanges(n, ranges)
  {
    if |ranges| > 0 {
      assert forall k | 0 <= k < |ranges[1..]| :: ranges[1..][k] == ranges[k + 1];
      NotInRanges(n, ranges[1..]);
    }
  }

  /** No visible ASCII character is white space. */
  lemma VisibleAsciiIsNotWhiteSpace(c: char)
    requires '!' <= c <= '~'
    ensures !IsWhiteSpace(c)
  {
    NotInRanges(c as int, WhiteSpaceRanges);
  }

  /** The two characters the examples below depend on. */
  lemma SpaceAndComma()
    ensures IsWhiteSpace(' ') && !IsWhiteSpace(',')
  {
    assert WhiteSpaceRanges[1..][0] == (0x20, 0x20);
    VisibleAsciiIsNotWhiteSpace(',');
  }

  predicate AllWhiteSpace(s: string) {
    forall i | 0 <= i < |s| :: IsWhiteSpace(s[i])
  }

  /** Neither end of `s` is white space (vacuous for the empty string). */
  predicate TrimmedEnds(s: string) {
    s != [] ==> !IsWhiteSpace(s[0]) && !IsWhiteSpace(s[|s| - 1])
  }

  /** Drops the longest all-white-space prefix. */
  function TrimStart(s: string): (r: string)
    ensures |r| <= |s|
  {
    if |s| > 0 && IsWhiteSpace(s[0]) then TrimStart(s[1..]) else s
  }

  /** Drops the longest all-white-space suffix. */
  function TrimEnd(s: string): (r: string)
    ensures |r| <= |s|
  {
    if |s| > 0 && IsWhiteSpace(s[|s| - 1]) then TrimEnd(s[..|s| - 1]) else s
  }

  /** `s.trim()`. What it computes is stated by TrimSpec and TrimParts. */
  function Trim(s: string): (r: string)
    ensures |r| <= |s|
  {
    TrimEnd(TrimStart(s))
  }

  /** TrimStart keeps a suffix that does not start with white space and
      removes only white space. */
  lemma {:induction false} TrimStartSpec(s: string)
    ensures TrimStart(s) == s[|s| - |TrimStart(s)|..]
    ensures AllWhiteSpace(s[..|s| - |TrimStart(s)|])
    ensures TrimStart(s) != [] ==> !IsWhiteSpace(TrimStart(s)[0])
    decreases |s|
  {
    if |s| > 0 && IsWhiteSpace(s[0]) {
      var t := s[1..];
      TrimStartSpec(t);
      var n := |TrimStart(t)|;
      assert t[|t| - n..] == s[|s| - n..];
      var cut := s[..|s| - n];
      forall i | 0 <= i < |cut| ensures IsWhiteSpace(cut[i]) {
        if i > 0 {
          assert cut[i] == t[..|t| - n][i - 1];
        }
      }
    } else {
      assert s[..0] == [];
    }
  }

  /** TrimEnd keeps a prefix that does not end with white space and
      removes only white space. */
  lemma {:induction false} TrimEndSpec(s: string)
    ensures TrimEnd(s) == s[..|TrimEnd(s)|]
    ensures AllWhiteSpace(s[|TrimEnd(s)|..])
    ensures TrimEnd(s) != [] ==> !IsWhiteSpace(TrimEnd(s)[|TrimEnd(s)| - 1])
    decreases |s|
  {
    if |s| > 0 && IsWhiteSpace(s[|s| - 1]) {
      var t := s[..|s| - 1];
      TrimEndSpec(t);
      var n := |TrimEnd(t)|;
      assert t[..n] == s[..n];
      var cut := s[n..];
      forall i | 0 <= i < |cut| ensures IsWhiteSpace(cut[i]) {
        if i < |cut| - 1 {
          assert cut[i] == t[n..][i];
        }
      }
    } else {
      assert s[|s|..] == [];
    }
  }

  /** Neither end of the trimmed string is white space, and it is empty
      exactly when `s` is all white space. */
  lemma TrimSpec(s: string)
    ensures TrimmedEnds(Trim(s))
    ensures Trim(s) == [] <==> AllWhiteSpace(s)
  {
    var t := TrimStart(s);
    var r := TrimEnd(t);
    TrimStartSpec(s);
    TrimEndSpec(t);
    if r != [] {
      assert r[0] == t[0];
    }
    if r == [] {
      var cut := s[..|s| - |t|];
      forall i | 0 <= i < |s| ensures IsWhiteSpace(s[i]) {
        assert s[i] == cut[i];
      }
    }
  }

  /** What Trim removes is white space: `s` is the trimmed string with
      white space on either side. */
  lemma TrimParts(s: string) returns (a: string, b: string)
    ensures AllWhiteSpace(a) && AllWhiteSpace(b)
    ensures s == a + Trim(s) + b
  {
    var t := TrimStart(s);
    var r := TrimEnd(t);
    TrimStartSpec(s);
    TrimEndSpec(t);
    a := s[..|s| - |t|];
    b := t[|r|..];
    assert s == a + t;
    assert t == r + b;
    assert a + t == a + r + b;
  }

  lemma {:induction false} TrimStartSkipsWhiteSpace(w: string, t: string)
    requires AllWhiteSpace(w)
    ensures TrimStart(w + t) == TrimStart(t)
    decreases |w|
  {
    if w != [] {
      assert (w + t)[1..] == w[1..] + t;
      TrimStartSkipsWhiteSpace(w[1..], t);
    } else {
      assert w + t == t;
    }
  }

  lemma {:induction false} TrimEndSkipsWhiteSpace(t: string, w: string)
    requires AllWhiteSpace(w)
    ensures TrimEnd(t + w) == TrimEnd(t)
    decreases |w|
  {
    if w != [] {
      assert (t + w)[..|t + w| - 1] == t + w[..|w| - 1];
      TrimEndSkipsWhiteSpace(t, w[..|w| - 1]);
    } else {
      assert t + w == t;
    }
  }

  /** Trim is determined by its characterisation: whatever white space
      surrounds a string with trimmed ends, trimming gives that string back. */
  lemma {:induction false} TrimUnique(a: string, r: string, b: string)
    requires AllWhiteSpace(a) && AllWhiteSpace(b) && TrimmedEnds(r)
    ensures Trim(a + r + b) == r
  {
    assert a + r + b == a + (r + b);
    TrimStartSkipsWhiteSpace(a, r + b);
    if r == [] {
      assert r + b == b;
      TrimStartSpec(b);
    } else {
      assert TrimStart(r + b) == r + b;
      TrimEndSkipsWhiteSpace(r, b);
      assert TrimEnd(r) == r;
    }
  }

  /** Trimming twice is trimming once. */
  lemma TrimIdempotent(s: string)
    ensures Trim(Trim(s)) == Trim(s)
  {
    var r := Trim(s);
    TrimSpec(s);
    assert [] + r + [] == r;
    TrimUnique([], r, []);
  }

  lemma AllWhiteSpaceConcat(a: string, b: string)
    requires AllWhiteSpace(a) && AllWhiteSpace(b)
    ensures AllWhiteSpace(a + b)
  {
    forall i | 0 <= i < |a + b| ensures IsWhiteSpace((a + b)[i]) {
      if i < |a| { assert (a + b)[i] == a[i]; } else { assert (a + b)[i] == b[i - |a|]; }
    }
  }

  lemma Regroup(w1: string, a: string, r: string, b: string, w2: string)
    ensures w1 + (a + r + b) + w2 == (w1 + a) + r + (b + w2)
  {
  }

  /** White space added around a string does not change its trim. */
  lemma TrimIgnoresPadding(w1: string, s: string, w2: string)
    requires AllWhiteSpace(w1) && AllWhiteSpace(w2)
    ensures Trim(w1 + s + w2) == Trim(s)
  {
    var r := Trim(s);
    TrimSpec(s);
    var a, b := TrimParts(s);
    Regroup(w1, a, r, b, w2);
    AllWhiteSpaceConcat(w1, a);
    AllWhiteSpaceConcat(b, w2);
    TrimUnique(w1 + a, r, b + w2);
  }

  /** `parts.join(sep)`: the inverse of Split. */
  function Join(parts: seq<string>, sep: char): string {
    if |parts| == 0 then ""
    else if |parts| == 1 then parts[0]
    else parts[0] + [sep] + Join(parts[1..], sep)
  }

  /** `s.split(sep)` for a one-character separator: the pieces between
      separators, in order, including empty ones; never an empty list. */
  function Split(s: string, sep: char): (parts: seq<string>)
    ensures |parts| >= 1
    ensures forall k | 0 <= k < |parts| :: sep !in parts[k]
    ensures Join(parts, sep) == s
  {
    if |s| == 0 then [""]
    else
      var rest := Split(s[1..], sep);
      if s[0] == sep then
        assert Join([""] + rest, sep) == "" + [sep] + Join(rest, sep) by {
          assert ([""] + rest)[1..] == rest;
        }
        assert s == "" + [sep] + s[1..];
        [""] + rest
      else
        var parts := [[s[0]] + rest[0]] + rest[1..];
        assert parts[1..] == rest[1..];
        assert Join(parts, sep) == [s[0]] + Join(rest, sep) by {
          if |rest| > 1 {
            assert Join(rest, sep) == rest[0] + [sep] + Join(rest[1..], sep);
          }
        }
        assert s == [s[0]] + s[1..];
        parts
  }

  lemma {:induction false} SplitNoSeparator(p: string, sep: char)
    requires sep !in p
    ensures Split(p, sep) == [p]
  {
    if p != [] {
      assert sep !in p[1..];
      SplitNoSeparator(p[1..], sep);
      assert [p[0]] + p[1..] == p;
    }
  }

  lemma {:induction false} SplitAfterPiece(p: string, sep: char, t: string)
    requires sep !in p
    ensures Split(p + [sep] + t, sep) == [p] + Split(t, sep)
    decreases |p|
  {
    var s := p + [sep] + t;
    if p == [] {
      assert s[0] == sep && s[1..] == t;
    } else {
      assert s[0] == p[0] && s[0] != sep;
      assert s[1..] == p[1..] + [sep] + t;
      assert sep !in p[1..];
      SplitAfterPiece(p[1..], sep, t);
      assert [p[0]] + p[1..] == p;
    }
  }

  /** Splitting a join of separator-free pieces gives the pieces back. */
  lemma {:induction false} SplitJoin(parts: seq<string>, sep: char)
    requires |parts| >= 1
    requires forall k | 0 <= k < |parts| :: sep !in parts[k]
    ensures Split(Join(parts, sep), sep) == parts
  {
    if |parts| == 1 {
      SplitNoSeparator(parts[0], sep);
    } else {
      SplitJoin(parts[1..], sep);
      SplitAfterPiece(parts[0], sep, Join(parts[1..], sep));
      assert [parts[0]] + parts[1..] == parts;
    }
  }

  /** A character that contributes nothing to a skills list. */
  predicate IsBlankSkillChar(c: char) {
    c == ',' || IsWhiteSpace(c)
  }

  predicate OnlyCommasAndWhiteSpace(s: string) {
    forall i | 0 <= i < |s| :: IsBlankSkillChar(s[i])
  }

  /** Every comma-separated piece is blank exactly when the whole input is
      commas and white space. */
  lemma {:induction false} SplitPiecesBlank(s: string)
    ensures (forall k | 0 <= k < |Split(s, ',')| :: AllWhiteSpace(Split(s, ',')[k]))
            <==> OnlyCommasAndWhiteSpace(s)
    decreases |s|
  {
    if s != [] {
      SplitPiecesBlank(s[1..]);
      var rest := Split(s[1..], ',');
      var parts := Split(s, ',');
      assert OnlyCommasAndWhiteSpace(s) <==> IsBlankSkillChar(s[0]) && OnlyCommasAndWhiteSpace(s[1..]) by {
        if IsBlankSkillChar(s[0]) && OnlyCommasAndWhiteSpace(s[1..]) {
          forall i | 0 <= i < |s| ensures IsBlankSkillChar(s[i]) {
            if i > 0 { assert s[i] == s[1..][i - 1]; }
          }
        }
      }
      if s[0] == ',' {
        assert parts == [""] + rest;
        assert forall k | 1 <= k < |parts| :: parts[k] == rest[k - 1];
      } else {
        var head := [s[0]] + rest[0];
        assert parts == [head] + rest[1..];
        assert AllWhiteSpace(head) <==> IsWhiteSpace(s[0]) && AllWhiteSpace(rest[0]) by {
          if AllWhiteSpace(head) {
            assert head[0] == s[0];
            forall i | 0 <= i < |rest[0]| ensures IsWhiteSpace(rest[0][i]) {
              assert rest[0][i] == head[i + 1];
            }
          }
          if IsWhiteSpace(s[0]) && AllWhiteSpace(rest[0]) {
            forall i | 0 <= i < |head| ensures IsWhiteSpace(head[i]) {
              if i > 0 { assert head[i] == rest[0][i - 1]; }
            }
          }
        }
        assert forall k | 1 <= k < |parts| :: parts[k] == rest[k];
      }
    }
  }

  /** `.filter(s => s.length > 0)`: keeps the non-empty strings, in order. */
  function DropEmpty(xs: seq<string>): (r: seq<string>)
    ensures |r| <= |xs|
    ensures forall k | 0 <= k < |r| :: r[k] != "" && r[k] in xs
    ensures forall k | 0 <= k < |xs| :: xs[k] != "" ==> xs[k] in r
    ensures r == [] <==> forall k | 0 <= k < |xs| :: xs[k] == ""
  {
    if xs == [] then []
    else
      var rest := DropEmpty(xs[1..]);
      assert forall k | 1 <= k < |xs| :: xs[k] == xs[1..][k - 1];
      if xs[0] == "" then rest else [xs[0]] + rest
  }

  /** `filter` works element by element: filtering a concatenation is
      concatenating the filtered parts. With DropEmptyOne this determines
      the result, order and repetitions included. */
  lemma {:induction false} DropEmptyAppend(a: seq<string>, b: seq<string>)
    ensures DropEmpty(a + b) == DropEmpty(a) + DropEmpty(b)
    decreases |a|
  {
    if a == [] {
      assert a + b == b;
    } else {
      assert (a + b)[0] == a[0] && (a + b)[1..] == a[1..] + b;
      DropEmptyAppend(a[1..], b);
    }
  }

  /** A single element is kept exactly when it is non-empty. */
  lemma DropEmptyOne(x: string)
    ensures DropEmpty([x]) == if x == "" then [] else [x]
  {
  }

  /** `.map(s => s.trim())`. */
  function TrimEach(xs: seq<string>): (r: seq<string>)
    ensures |r| == |xs|
    ensures forall k | 0 <= k < |xs| :: r[k] == Trim(xs[k])
  {
    seq(|xs|, k requires 0 <= k < |xs| => Trim(xs[k]))
  }

  /** `input.split(',').map(s => s.trim()).filter(s => s.length > 0)`:
      every skill is non-empty, already trimmed and comma-free, and is the
      trimmed text of some piece of the input; every non-blank piece appears
      trimmed; and the list is empty exactly when the input is nothing but
      commas and white space. The order is stated by ParseSkillsAfterPiece. */
  function ParseSkills(input: string): (skills: seq<string>)
    ensures forall k | 0 <= k < |skills| ::
      skills[k] != "" && Trim(skills[k]) == skills[k] && ',' !in skills[k]
    ensures forall k | 0 <= k < |Split(input, ',')| ::
      Trim(Split(input, ',')[k]) != "" ==> Trim(Split(input, ',')[k]) in skills
    ensures skills == [] <==> OnlyCommasAndWhiteSpace(input)
    ensures forall k | 0 <= k < |skills| ::
      exists j | 0 <= j < |Split(input, ',')| :: skills[k] == Trim(Split(input, ',')[j])
  {
    var parts := Split(input, ',');
    var trimmed := TrimEach(parts);
    var skills := DropEmpty(trimmed);
    CleanedPiecesAreTrimmed(parts);
    NoSkillsIffBlankInput(input);
    skills
  }

  /** A comma-free input is one skill, its trimmed text, unless that is
      empty. */
  lemma ParseSkillsOnePiece(p: string)
    requires ',' !in p
    ensures ParseSkills(p) == if Trim(p) == "" then [] else [Trim(p)]
  {
    SplitNoSeparator(p, ',');
    assert TrimEach([p]) == [Trim(p)];
  }

  /** The skills of `p,t` are those of the piece `p` followed by those of
      `t`: skills keep the order of the input and every repetition. */
  lemma ParseSkillsAfterPiece(p: string, t: string)
    requires ',' !in p
    ensures ParseSkills(p + [','] + t) == (if Trim(p) == "" then [] else [Trim(p)]) + ParseSkills(t)
  {
    SplitAfterPiece(p, ',', t);
    var rest := Split(t, ',');
    assert TrimEach([p] + rest) == [Trim(p)] + TrimEach(rest);
    DropEmptyAppend([Trim(p)], TrimEach(rest));
  }

  /** The skills of a comma-joined list of comma-free pieces are those
      pieces, trimmed, with the blank ones dropped. */
  lemma ParseSkillsOfJoin(parts: seq<string>)
    requires |parts| >= 1
    requires forall k | 0 <= k < |parts| :: ',' !in parts[k]
    ensures ParseSkills(Join(parts, ',')) == DropEmpty(TrimEach(parts))
  {
    SplitJoin(parts, ',');
  }

  lemma NoSkillsIffBlankInput(input: string)
    ensures DropEmpty(TrimEach(Split(input, ','))) == [] <==> OnlyCommasAndWhiteSpace(input)
  {
    SplitPiecesBlank(input);
    NoCleanedPiecesIffBlank(Split(input, ','));
  }

  lemma NoCleanedPiecesIffBlank(parts: seq<string>)
    ensures DropEmpty(TrimEach(parts)) == [] <==> forall k | 0 <= k < |parts| :: AllWhiteSpace(parts[k])
  {
    var trimmed := TrimEach(parts);
    forall k | 0 <= k < |parts| ensures trimmed[k] == "" <==> AllWhiteSpace(parts[k]) {
      TrimSpec(parts[k]);
    }
  }

  lemma CleanedPiecesAreTrimmed(parts: seq<string>)
    requires forall k | 0 <= k < |parts| :: ',' !in parts[k]
    ensures forall k | 0 <= k < |DropEmpty(TrimEach(parts))| ::
      Trim(DropEmpty(TrimEach(parts))[k]) == DropEmpty(TrimEach(parts))[k]
      && ',' !in DropEmpty(TrimEach(parts))[k]
  {
    var trimmed := TrimEach(parts);
    var skills := DropEmpty(trimmed);
    forall k | 0 <= k < |skills|
      ensures Trim(skills[k]) == skills[k] && ',' !in skills[k]
    {
      var j :| 0 <= j < |trimmed| && trimmed[j] == skills[k];
      TrimIdempotent(parts[j]);
      TrimSliceHasNoComma(parts[j]);
    }
  }

  lemma TrimSliceHasNoComma(p: string)
    requires ',' !in p
    ensures ',' !in Trim(p)
  {
    var a, b := TrimParts(p);
  }

  /** An input that trims to nothing yields no skills. */
  lemma BlankInputHasNoSkills(input: string)
    requires Trim(input) == ""
    ensures ParseSkills(input) == []
  {
    TrimSpec(input);
    assert OnlyCommasAndWhiteSpace(input);
  }

  /** The converse fails: a lone comma is not blank after trimming, yet it
      yields no skills. */
  lemma LoneCommaHasNoSkills()
    ensures Trim(",") == "," && ParseSkills(",") == []
  {
    SpaceAndComma();
    assert TrimStart(",") == ",";
    assert TrimEnd(",") == ",";
    assert OnlyCommasAndWhiteSpace(",");
  }
}
