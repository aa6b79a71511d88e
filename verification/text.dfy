/** String operations the routers rely on: JavaScript's `String.prototype.trim`,
    the UTF-16 `length` of a string, and the space-joined growth of a
    transcript. Strings are Dafny `string`s of Unicode scalar values; a
    character outside the Basic Multilingual Plane is one `char` here and two
    UTF-16 code units in JavaScript, which `Utf16Length` accounts for. */
module Text {

  /** The characters `trim` removes: the WhiteSpace and LineTerminator
      productions of ECMAScript (section 12.2 and 12.3 of ECMA-262). */
  predicate IsSpace(c: char) {
    || c == '\t' || c == '\n' || c == '\U{000B}' || c == '\U{000C}' || c == '\r'
    || c == ' ' || c == '\U{00A0}' || c == '\U{1680}'
    || ('\U{2000}' <= c <= '\U{200A}')
    || c == '\U{2028}' || c == '\U{2029}' || c == '\U{202F}' || c == '\U{205F}'
    || c == '\U{3000}' || c == '\U{FEFF}'
  }

  predicate AllSpace(s: string) {
    forall i | 0 <= i < |s| :: IsSpace(s[i])
  }

  /** A string with no whitespace at either end: what `trim` produces. */
  predicate Trimmed(s: string) {
    s == [] || (!IsSpace(s[0]) && !IsSpace(s[|s| - 1]))
  }

  predicate EndsWith(s: string, suffix: string) {
    |suffix| <= |s| && s[|s| - |suffix|..] == suffix
  }

  predicate StartsWith(s: string, prefix: string) {
    |prefix| <= |s| && s[..|prefix|] == prefix
  }

  predicate Contains(s: string, part: string) {
    exists k | 0 <= k <= |s| :: StartsWith(s[k..], part)
  }

  /** The number of whitespace characters `s` starts with. */
  function LeadingSpaces(s: string): (n: nat)
    ensures n <= |s|
    ensures forall i | 0 <= i < n :: IsSpace(s[i])
    ensures n == |s| || !IsSpace(s[n])
  {
    if |s| > 0 && IsSpace(s[0]) then 1 + LeadingSpaces(s[1..]) else 0
  }

  /** The number of whitespace characters `s` ends with. */
  function TrailingSpaces(s: string): (n: nat)
    ensures n <= |s|
    ensures forall i | |s| - n <= i < |s| :: IsSpace(s[i])
    ensures n == |s| || !IsSpace(s[|s| - 1 - n])
  {
    if |s| > 0 && IsSpace(s[|s| - 1]) then 1 + TrailingSpaces(s[..|s| - 1]) else 0
  }

  /** JavaScript's `s.trim()`: `s` without its leading and trailing
      whitespace. */
  function Trim(s: string): (r: string)
    ensures Trimmed(r)
    ensures |r| <= |s|
    ensures Trimmed(s) ==> r == s
  {
    var t := s[LeadingSpaces(s)..];
    t[..|t| - TrailingSpaces(t)]
  }

  /** `trim` yields the empty string exactly for all-whitespace input. */
  lemma TrimEmpty(s: string)
    ensures Trim(s) == [] <==> AllSpace(s)
  {
    var lead := LeadingSpaces(s);
    var t := s[lead..];
    if lead < |s| {
      assert t[0] == s[lead];
      assert TrailingSpaces(t) < |t|;
    }
  }

  /** Whitespace on either side of a trimmed string is exactly what `Trim`
      removes: `Trim` is the unique decomposition of its input into
      whitespace, a trimmed core, and whitespace. */
  lemma TrimUnique(s: string, a: string, t: string, b: string)
    requires s == a + t + b
    requires AllSpace(a) && AllSpace(b) && Trimmed(t)
    ensures Trim(s) == t
  {
    if t == [] {
      assert AllSpace(s) by {
        forall i | 0 <= i < |s| ensures IsSpace(s[i]) {
          if i < |a| { assert s[i] == a[i]; } else { assert s[i] == b[i - |a|]; }
        }
      }
      TrimEmpty(s);
    } else {
      var lead := LeadingSpaces(s);
      assert s[|a|] == t[0];
      assert lead == |a|;
      var u := s[lead..];
      assert u == t + b;
      var trail := TrailingSpaces(u);
      assert u[|t| - 1] == t[|t| - 1];
      assert trail == |b|;
      assert u[..|u| - trail] == t;
    }
  }

  /** `Trim` removes whitespace only from the ends of its input. */
  lemma TrimDecomposes(s: string) returns (a: string, b: string)
    ensures AllSpace(a) && AllSpace(b)
    ensures s == a + Trim(s) + b
  {
    var lead := LeadingSpaces(s);
    var t := s[lead..];
    var trail := TrailingSpaces(t);
    a := s[..lead];
    b := t[|t| - trail..];
    SpacePrefix(s, lead);
    SpaceSuffix(t, trail);
    Split3(s, lead, |t| - trail);
  }

  lemma SpacePrefix(s: string, n: nat)
    requires n <= |s| && forall i | 0 <= i < n :: IsSpace(s[i])
    ensures AllSpace(s[..n])
  {
  }

  lemma SpaceSuffix(s: string, n: nat)
    requires n <= |s| && forall i | |s| - n <= i < |s| :: IsSpace(s[i])
    ensures AllSpace(s[|s| - n..])
  {
    var t := s[|s| - n..];
    forall i | 0 <= i < |t| ensures IsSpace(t[i]) {
      assert t[i] == s[|s| - n + i];
    }
  }

  lemma Split3(s: string, i: nat, j: nat)
    requires i <= |s| && j <= |s| - i
    ensures s == s[..i] + s[i..][..j] + s[i..][j..]
  {
    assert s[i..] == s[i..][..j] + s[i..][j..];
    assert s == s[..i] + s[i..];
  }

  /** `Trim` never lengthens its input, in UTF-16 units either. */
  lemma TrimNoLonger(s: string)
    ensures Utf16Length(Trim(s)) <= Utf16Length(s)
  {
    var a, b := TrimDecomposes(s);
    Utf16LengthAppend(a + Trim(s), b);
    Utf16LengthAppend(a, Trim(s));
  }

  /** `Trim` leaves a trimmed string alone; in particular it is idempotent. */
  lemma TrimIdempotent(s: string)
    ensures Trim(Trim(s)) == Trim(s)
  {
    var t := Trim(s);
    TrimUnique(t, [], t, []);
  }

  /** The number of UTF-16 code units of `s`: JavaScript's `s.length`. */
  function Utf16Length(s: string): (n: nat)
    ensures |s| <= n <= 2 * |s|
    ensures n == |s| <==> forall i | 0 <= i < |s| :: (s[i] as int) < 0x1_0000
  {
    if s == [] then 0
    else
      var rest := Utf16Length(s[1..]);
      assert forall i | 1 <= i < |s| :: s[i] == s[1..][i - 1];
      (if s[0] as int < 0x1_0000 then 1 else 2) + rest
  }

  lemma {:induction false} Utf16LengthAppend(a: string, b: string)
    ensures Utf16Length(a + b) == Utf16Length(a) + Utf16Length(b)
    decreases |a|
  {
    if a == [] {
      assert a + b == b;
    } else {
      assert (a + b)[1..] == a[1..] + b;
      Utf16LengthAppend(a[1..], b);
    }
  }

  /** How both routers extend a transcript with a new fragment: the fragment
      alone when the transcript is empty, otherwise separated by one space. */
  function AppendText(current: string, fragment: string): (r: string)
    ensures current <= r
    ensures EndsWith(r, fragment)
    ensures |r| == |current| + |fragment| + (if current == "" then 0 else 1)
  {
    if current == "" then fragment else current + " " + fragment
  }

  /** The reference form of a transcript: its fragments in order, separated
      by single spaces. */
  function Join(fragments: seq<string>): string
    decreases |fragments|
  {
    if |fragments| == 0 then ""
    else if |fragments| == 1 then fragments[0]
    else fragments[0] + " " + Join(fragments[1..])
  }

  predicate NoneEmpty(fragments: seq<string>) {
    forall i | 0 <= i < |fragments| :: fragments[i] != ""
  }

  /** Appending one fragment at a time builds the space-joined sequence. */
  lemma {:induction false} AppendTextJoins(fragments: seq<string>, fragment: string)
    requires NoneEmpty(fragments)
    ensures AppendText(Join(fragments), fragment) == Join(fragments + [fragment])
    decreases |fragments|
  {
    var all := fragments + [fragment];
    if |fragments| == 0 {
      assert all == [fragment];
    } else if |fragments| == 1 {
      assert all[1..] == [fragment];
    } else {
      var rest := fragments[1..];
      assert all[1..] == rest + [fragment];
      AppendTextJoins(rest, fragment);
      JoinNonEmpty(rest);
      assert AppendText(Join(fragments), fragment)
          == fragments[0] + " " + (Join(rest) + " " + fragment);
    }
  }

  lemma {:induction false} JoinNonEmpty(fragments: seq<string>)
    requires NoneEmpty(fragments)
    ensures Join(fragments) == "" <==> fragments == []
    decreases |fragments|
  {
    if |fragments| > 1 {
      JoinNonEmpty(fragments[1..]);
    }
  }

  lemma TrimmedAround(first: string, middle: string, last: string)
    requires first != [] && last != [] && Trimmed(first) && Trimmed(last)
    ensures Trimmed(first + middle + last)
  {
    var s := first + middle + last;
    assert s[0] == first[0];
    assert s[|s| - 1] == last[|last| - 1];
  }

  /** A trimmed core followed by whitespace, a space and a trimmed fragment
      trims to everything from the core to the fragment. */
  lemma TrimPadded(s: string, a: string, c: string, b: string, fragment: string)
    requires s == (a + c + b) + " " + fragment
    requires AllSpace(a) && AllSpace(b)
    requires c != "" && Trimmed(c) && fragment != "" && Trimmed(fragment)
    ensures Trim(s) == c + (b + " " + fragment)
  {
    var core := c + (b + " " + fragment);
    assert Trimmed(core) by {
      assert core[0] == c[0];
      assert core[|core| - 1] == fragment[|fragment| - 1];
    }
    assert s == a + core + [];
    TrimUnique(s, a, core, []);
  }

  /** Appending a trimmed fragment to a transcript with visible text keeps
      that text, and only adds after it. */
  lemma TrimAppendText(current: string, fragment: string) returns (added: string)
    requires fragment != "" && Trimmed(fragment)
    requires Trim(current) != ""
    ensures Trim(AppendText(current, fragment)) == Trim(current) + added
  {
    var a, b := TrimDecomposes(current);
    added := b + " " + fragment;
    TrimPadded(AppendText(current, fragment), a, Trim(current), b, fragment);
  }

  /** Growing a transcript never shrinks its trimmed form: the old trimmed
      transcript is a prefix of the new one, so a transcript long enough for
      a length check stays long enough after any append of a trimmed
      fragment. */
  lemma {:induction false} AppendTextKeepsTrimmedPrefix(current: string, fragment: string)
    requires fragment != "" && Trimmed(fragment)
    ensures Trim(current) <= Trim(AppendText(current, fragment))
    ensures Utf16Length(Trim(current)) <= Utf16Length(Trim(AppendText(current, fragment)))
  {
    if Trim(current) != "" {
      var added := TrimAppendText(current, fragment);
      Utf16LengthAppend(Trim(current), added);
    }
  }

  /** The three parts of a concatenation: a prefix, an infix, a suffix. */
  lemma Parts(x: string, y: string, z: string)
    ensures StartsWith(x + y + z, x)
    ensures Contains(x + y + z, y)
    ensures EndsWith(x + y + z, z)
  {
    var s := x + y + z;
    assert StartsWith(s[|x|..], y) by {
      assert s[|x|..][..|y|] == y;
    }
    assert s[|s| - |z|..] == z;
  }
}
