/**
 * The JavaScript string operations the application relies on, over `string` (= `seq<char>`):
 * `toLowerCase`/`toUpperCase` (ASCII letters only), `trim`, `includes`, `split(',')`,
 * `split(/\s+/)`, `replace` of a one-character pattern with its `$` templates, and the UTF-16
 * `length`.
 */
module Text {

  /** JavaScript's WhiteSpace and LineTerminator code points: what `\s` matches and `trim` removes. */
  predicate IsSpace(c: char) {
    || c == '\t' || c == '\n' || c == '\U{000B}' || c == '\U{000C}' || c == '\r' || c == ' '
    || c == '\U{00A0}' || c == '\U{1680}' || ('\U{2000}' <= c <= '\U{200A}')
    || c == '\U{2028}' || c == '\U{2029}' || c == '\U{202F}' || c == '\U{205F}'
    || c == '\U{3000}' || c == '\U{FEFF}'
  }

  predicate IsUpperAscii(c: char) { 'A' <= c <= 'Z' }

  predicate IsLowerAscii(c: char) { 'a' <= c <= 'z' }

  /** The class `\d` of JavaScript regular expressions: ASCII digits only. */
  predicate IsDigit(c: char) { '0' <= c <= '9' }

  /** No character of `s` is a white-space character. */
  predicate NoSpace(s: string) { forall c :: c in s ==> !IsSpace(c) }

  /** No character of `s` is an ASCII capital. */
  predicate NoUpper(s: string) { forall c :: c in s ==> !IsUpperAscii(c) }

  function LowerChar(c: char): (r: char)
    ensures !IsUpperAscii(r)
    ensures IsUpperAscii(c) ==> IsLowerAscii(r) && r as int == c as int + 32
    ensures !IsUpperAscii(c) ==> r == c
  {
    if IsUpperAscii(c) then (c as int + 32) as char else c
  }

  function UpperChar(c: char): (r: char)
    ensures !IsLowerAscii(r)
    ensures IsLowerAscii(c) ==> IsUpperAscii(r) && r as int + 32 == c as int
    ensures !IsLowerAscii(c) ==> r == c
  {
    if IsLowerAscii(c) then (c as int - 32) as char else c
  }

  /** `s.toLowerCase()`, for the ASCII letters. */
  function Lower(s: string): string
  {
    if s == [] then [] else [LowerChar(s[0])] + Lower(s[1..])
  }

  /** `Lower` maps every character on its own. */
  lemma {:induction false} LowerPointwise(s: string)
    ensures |Lower(s)| == |s|
    ensures forall i :: 0 <= i < |s| ==> Lower(s)[i] == LowerChar(s[i])
  {
    if s != [] {
      LowerPointwise(s[1..]);
    }
  }

  /** `s.toUpperCase()`, for the ASCII letters. */
  function Upper(s: string): string
  {
    if s == [] then [] else [UpperChar(s[0])] + Upper(s[1..])
  }

  /** `Upper` maps every character on its own. */
  lemma {:induction false} UpperPointwise(s: string)
    ensures |Upper(s)| == |s|
    ensures forall i :: 0 <= i < |s| ==> Upper(s)[i] == UpperChar(s[i])
  {
    if s != [] {
      UpperPointwise(s[1..]);
    }
  }

  lemma LowerAppend(a: string, b: string)
    ensures Lower(a + b) == Lower(a) + Lower(b)
  {
    LowerPointwise(a);
    LowerPointwise(b);
    LowerPointwise(a + b);
  }

  /** Lower-casing text without ASCII capitals changes nothing. */
  lemma LowerOfLower(s: string)
    requires NoUpper(s)
    ensures Lower(s) == s
  {
    LowerPointwise(s);
    forall i | 0 <= i < |s| ensures Lower(s)[i] == s[i] {
      assert s[i] in s;
    }
  }

  /** A word whose only possible capital is its first letter lower-cases at that letter alone. */
  lemma LowerCapitalized(c: char, s: string)
    requires NoUpper(s)
    ensures Lower([c] + s) == [LowerChar(c)] + s
  {
    LowerOfLower(s);
    assert ([c] + s)[1..] == s;
  }

  /** Lower-casing is idempotent and keeps white space where it was. */
  lemma LowerIdempotent(s: string)
    ensures Lower(Lower(s)) == Lower(s)
    ensures |Lower(s)| == |s|
    ensures forall i :: 0 <= i < |s| ==> (IsSpace(Lower(s)[i]) <==> IsSpace(s[i]))
  {
    LowerPointwise(s);
    LowerPointwise(Lower(s));
  }

  /** `s.trimStart()`: the suffix left once the leading white space is removed. */
  function TrimStart(s: string): (r: string)
    ensures |r| <= |s| && r == s[|s| - |r|..]
    ensures r == [] || !IsSpace(r[0])
  {
    if |s| > 0 && IsSpace(s[0]) then TrimStart(s[1..]) else s
  }

  /** What `trimStart` removes is white space only. */
  lemma {:induction false} TrimStartRemovesSpace(s: string)
    ensures forall i :: 0 <= i < |s| - |TrimStart(s)| ==> IsSpace(s[i])
  {
    if |s| > 0 && IsSpace(s[0]) {
      TrimStartRemovesSpace(s[1..]);
      assert forall i :: 1 <= i < |s| ==> s[i] == s[1..][i - 1];
    }
  }

  /** `s.trimEnd()`: the prefix left once the trailing white space is removed. */
  function TrimEnd(s: string): (r: string)
    ensures |r| <= |s| && r == s[..|r|]
    ensures r == [] || !IsSpace(r[|r| - 1])
  {
    if |s| > 0 && IsSpace(s[|s| - 1]) then TrimEnd(s[..|s| - 1]) else s
  }

  /** What `trimEnd` removes is white space only. */
  lemma {:induction false} TrimEndRemovesSpace(s: string)
    ensures forall i :: |TrimEnd(s)| <= i < |s| ==> IsSpace(s[i])
  {
    if |s| > 0 && IsSpace(s[|s| - 1]) {
      TrimEndRemovesSpace(s[..|s| - 1]);
    }
  }

  /** `s.trim()`. */
  function Trim(s: string): string {
    TrimEnd(TrimStart(s))
  }

  /** The trimmed text is a slice of the input that neither starts nor ends with white space. */
  lemma TrimIsInnerSlice(s: string)
    ensures exists i, j :: 0 <= i <= j <= |s| && Trim(s) == s[i..j]
    ensures Trim(s) == [] || (!IsSpace(Trim(s)[0]) && !IsSpace(Trim(s)[|Trim(s)| - 1]))
  {
    TrimSlice(s);
    TrimEnds(s);
  }

  /** Where the trimmed text sits in the input. */
  lemma TrimSlice(s: string)
    ensures |s| - |TrimStart(s)| + |Trim(s)| <= |s|
    ensures Trim(s) == s[|s| - |TrimStart(s)|..|s| - |TrimStart(s)| + |Trim(s)|]
  {
    var a := TrimStart(s);
    var b := TrimEnd(a);
    var i := |s| - |a|;
    assert a == s[i..] && b == a[..|b|];
    assert s[i..][..|b|] == s[i..i + |b|];
  }

  /** The trimmed text starts with what `trimStart` left and ends with what `trimEnd` left. */
  lemma TrimEnds(s: string)
    ensures Trim(s) == [] || (!IsSpace(Trim(s)[0]) && !IsSpace(Trim(s)[|Trim(s)| - 1]))
  {
    var a := TrimStart(s);
    var b := TrimEnd(a);
    if b != [] {
      assert b == a[..|b|];
      assert b[0] == a[0];
    }
  }

  /** Text that neither starts nor ends with white space is its own trim. */
  lemma TrimOfTrimmed(s: string)
    requires s == [] || (!IsSpace(s[0]) && !IsSpace(s[|s| - 1]))
    ensures Trim(s) == s
  {
  }

  /** Trimming twice is trimming once. */
  lemma TrimIdempotent(s: string)
    ensures Trim(Trim(s)) == Trim(s)
  {
    TrimIsInnerSlice(s);
    TrimOfTrimmed(Trim(s));
  }

  /** The test of `filter(Boolean)` on strings: only the empty string is falsy. */
  predicate NonEmpty(s: string) { s != "" }

  predicate StartsWith(s: string, t: string) {
    |t| <= |s| && s[..|t|] == t
  }

  /** `s.includes(t)`: `t` occurs in `s` as a contiguous slice. */
  predicate Contains(s: string, t: string)
    decreases |s|
  {
    StartsWith(s, t) || (|s| > |t| && Contains(s[1..], t))
  }

  /** `t` occurs in `s` at position `i`. */
  predicate OccursAt(s: string, t: string, i: int) {
    0 <= i <= |s| - |t| && s[i..i + |t|] == t
  }

  /** An occurrence is either at the front or an occurrence in the tail, shifted by one. */
  lemma OccursStep(s: string, t: string, i: int)
    ensures OccursAt(s, t, i) <==>
      (i == 0 && StartsWith(s, t)) || (|s| > 0 && i >= 1 && OccursAt(s[1..], t, i - 1))
  {
    if i == 0 && |t| <= |s| {
      assert s[0..|t|] == s[..|t|];
    } else if |s| > 0 && 1 <= i <= |s| - |t| {
      assert s[1..][i - 1..i - 1 + |t|] == s[i..i + |t|];
    }
  }

  /** `Contains` means what `includes` means: `t` occurs in `s` at some position. */
  lemma {:induction false} ContainsIffOccurs(s: string, t: string)
    ensures Contains(s, t) <==> exists i :: OccursAt(s, t, i)
    decreases |s|
  {
    forall i | OccursAt(s, t, i)
      ensures (i == 0 && StartsWith(s, t)) || (|s| > 0 && i >= 1 && OccursAt(s[1..], t, i - 1))
    {
      OccursStep(s, t, i);
    }
    if |s| > 0 {
      ContainsIffOccurs(s[1..], t);
    }
    if StartsWith(s, t) {
      OccursStep(s, t, 0);
    } else if |s| > |t| && Contains(s[1..], t) {
      var j :| OccursAt(s[1..], t, j);
      OccursStep(s, t, j + 1);
    }
  }

  /** Every text contains the empty text (`s.includes('')` is true) and itself. */
  lemma ContainsTrivial(s: string)
    ensures Contains(s, "") && Contains(s, s)
  {
    assert s[..0] == "";
  }

  /** A contained text is no longer than its container and its first character occurs there. */
  lemma {:induction false} ContainsNecessary(s: string, t: string)
    requires Contains(s, t)
    ensures |t| <= |s|
    ensures |t| > 0 ==> t[0] in s
    decreases |s|
  {
    if !StartsWith(s, t) {
      ContainsNecessary(s[1..], t);
      if |t| > 0 {
        assert t[0] in s[1..];
      }
    } else if |t| > 0 {
      assert s[0] == t[0];
    }
  }

  /** A text whose first letter is not followed by the second anywhere does not contain it. */
  lemma NotContained(s: string, t: string)
    requires |t| >= 2
    requires forall j :: 0 <= j < |s| - 1 ==> !(s[j] == t[0] && s[j + 1] == t[1])
    ensures !Contains(s, t)
  {
    forall j | 0 <= j <= |s| - |t| ensures !OccursAt(s, t, j) {
      assert s[j..j + |t|][0] == s[j] && s[j..j + |t|][1] == s[j + 1];
    }
    ContainsIffOccurs(s, t);
  }

  /** Containment carries over to a text that extends the container on either side. */
  lemma ContainsExtended(s: string, t: string, before: string, after: string)
    requires Contains(s, t)
    ensures Contains(before + s + after, t)
  {
    ContainsIffOccurs(s, t);
    var i :| OccursAt(s, t, i);
    var u := before + s + after;
    assert u[|before| + i..|before| + i + |t|] == s[i..i + |t|];
    assert OccursAt(u, t, |before| + i);
    ContainsIffOccurs(u, t);
  }

  /** `s.split(sep)` for a one-character separator: the pieces between the separators. */
  function Split(s: string, sep: char): (r: seq<string>)
    ensures |r| >= 1
    ensures forall k :: 0 <= k < |r| ==> sep !in r[k]
  {
    if s == [] then [""]
    else
      var rest := Split(s[1..], sep);
      if s[0] == sep then [""] + rest else [[s[0]] + rest[0]] + rest[1..]
  }

  /** The inverse of `Split`: `parts.join(sep)`. */
  function Join(parts: seq<string>, sep: char): string
    requires |parts| >= 1
  {
    if |parts| == 1 then parts[0] else parts[0] + [sep] + Join(parts[1..], sep)
  }

  /** Joining the pieces of a split with the same separator gives back the text. */
  lemma {:induction false} JoinSplit(s: string, sep: char)
    ensures Join(Split(s, sep), sep) == s
  {
    if s != [] {
      JoinSplit(s[1..], sep);
      var rest := Split(s[1..], sep);
      if s[0] != sep {
        var r := Split(s, sep);
        assert r[0] == [s[0]] + rest[0] && r[1..] == rest[1..];
        if |rest| > 1 {
          assert rest[1..] == rest[1..];
          calc {
            Join(r, sep);
            r[0] + [sep] + Join(r[1..], sep);
            [s[0]] + (rest[0] + [sep] + Join(rest[1..], sep));
            [s[0]] + Join(rest, sep);
          }
        }
      } else {
        assert Split(s, sep)[1..] == rest;
      }
    }
  }

  /** Splitting a text without the separator gives the text alone. */
  lemma {:induction false} SplitWithoutSep(s: string, sep: char)
    requires sep !in s
    ensures Split(s, sep) == [s]
  {
    if s != [] {
      assert s[0] in s;
      assert sep !in s[1..];
      SplitWithoutSep(s[1..], sep);
      assert [s[0]] + s[1..] == s;
    }
  }

  /** Splitting `a + sep + b` splits `a` and `b` separately. */
  lemma {:induction false} SplitAppend(a: string, sep: char, b: string)
    ensures Split(a + [sep] + b, sep) == Split(a, sep) + Split(b, sep)
  {
    var s := a + [sep] + b;
    if a == [] {
      assert s[1..] == b;
    } else {
      assert s[1..] == a[1..] + [sep] + b;
      SplitAppend(a[1..], sep, b);
    }
  }

  /** `s.split(/\s+/)`: the pieces between maximal runs of white space. */
  function Words(s: string): (r: seq<string>)
    ensures |r| >= 1
    ensures forall k :: 0 <= k < |r| ==> NoSpace(r[k])
  {
    if s == [] then [""]
    else
      var rest := Words(s[1..]);
      if IsSpace(s[0]) then
        (if |s| > 1 && IsSpace(s[1]) then rest else [""] + rest)
      else [[s[0]] + rest[0]] + rest[1..]
  }

  /** Text without white space is a single word. */
  lemma {:induction false} WordsOfWord(s: string)
    requires NoSpace(s)
    ensures Words(s) == [s]
  {
    if s != [] {
      assert s[0] in s;
      assert NoSpace(s[1..]) by {
        forall c | c in s[1..] ensures !IsSpace(c) { assert c in s; }
      }
      WordsOfWord(s[1..]);
      assert [s[0]] + s[1..] == s;
    }
  }

  /** A word, one white-space character and text starting with a non-space character. */
  lemma {:induction false} WordsCons(w: string, sp: char, b: string)
    requires NoSpace(w) && IsSpace(sp) && b != [] && !IsSpace(b[0])
    ensures Words(w + [sp] + b) == [w] + Words(b)
  {
    var s := w + [sp] + b;
    if w == [] {
      assert s[1..] == b;
    } else {
      assert w[0] in w;
      assert s[1..] == w[1..] + [sp] + b;
      assert NoSpace(w[1..]) by {
        forall c | c in w[1..] ensures !IsSpace(c) { assert c in w; }
      }
      WordsCons(w[1..], sp, b);
      assert [w[0]] + w[1..] == w;
    }
  }

  /** Position of the first `c` in `s`. */
  function IndexOf(s: string, c: char): (i: nat)
    requires c in s
    ensures i < |s| && s[i] == c && c !in s[..i]
  {
    if s[0] == c then 0 else 1 + IndexOf(s[1..], c)
  }

  /**
   * The replacement template of `replace` with a string pattern (GetSubstitution in the
   * ECMAScript specification): `$$` gives a dollar, `$&` the matched text, `` $` `` the text
   * before the match and `$'` the text after it; any other character, a lone `$` included, is
   * copied.
   */
  function Substitute(rep: string, matched: string, before: string, after: string): (r: string)
    ensures '$' !in rep ==> r == rep
    decreases |rep|
  {
    if rep == [] then []
    else if StartsTemplate(rep) then
      TemplatePart(rep[1], matched, before, after) + Substitute(rep[2..], matched, before, after)
    else
      assert '$' !in rep ==> '$' !in rep[1..] by {
        if '$' in rep[1..] { var k :| 0 <= k < |rep[1..]| && rep[1..][k] == '$'; assert rep[k + 1] == '$'; }
      }
      [rep[0]] + Substitute(rep[1..], matched, before, after)
  }

  /** `rep` begins with one of the four templates. */
  predicate StartsTemplate(rep: string) {
    |rep| >= 2 && rep[0] == '$' && IsTemplateChar(rep[1])
  }

  /** The characters that may follow `$` in a template with no capture groups. */
  predicate IsTemplateChar(c: char) { c == '$' || c == '&' || c == '`' || c == '\'' }

  function TemplatePart(c: char, matched: string, before: string, after: string): string {
    if c == '$' then "$" else if c == '&' then matched else if c == '`' then before else after
  }

  /** Substituting a template piece by piece: no `$` of the first piece pairs with the second. */
  lemma {:induction false} SubstituteAppend(a: string, b: string, matched: string, before: string, after: string)
    requires b == [] || !IsTemplateChar(b[0])
    ensures Substitute(a + b, matched, before, after)
         == Substitute(a, matched, before, after) + Substitute(b, matched, before, after)
    decreases |a|
  {
    if a == [] {
      assert a + b == b;
    } else if StartsTemplate(a) {
      SubstituteAppend(a[2..], b, matched, before, after);
      TemplateAppendStep(a, b, matched, before, after);
    } else {
      SubstituteAppend(a[1..], b, matched, before, after);
      PlainAppendStep(a, b, matched, before, after);
    }
  }

  /** The step of `SubstituteAppend` past a template at the head of `a`. */
  lemma TemplateAppendStep(a: string, b: string, matched: string, before: string, after: string)
    requires StartsTemplate(a)
    requires Substitute(a[2..] + b, matched, before, after)
          == Substitute(a[2..], matched, before, after) + Substitute(b, matched, before, after)
    ensures Substitute(a + b, matched, before, after)
         == Substitute(a, matched, before, after) + Substitute(b, matched, before, after)
  {
    var ab := a + b;
    var t, sa, sb := TemplatePart(a[1], matched, before, after),
      Substitute(a[2..], matched, before, after), Substitute(b, matched, before, after);
    assert Substitute(ab, matched, before, after) == t + (sa + sb) by {
      TemplateHeadAppend(a, b);
      UnfoldTemplate(ab, matched, before, after);
    }
    assert Substitute(a, matched, before, after) == t + sa by {
      UnfoldTemplate(a, matched, before, after);
    }
    AppendAssociates(t, sa, sb);
  }

  /** The step of `SubstituteAppend` past a plain character at the head of `a`. */
  lemma PlainAppendStep(a: string, b: string, matched: string, before: string, after: string)
    requires b == [] || !IsTemplateChar(b[0])
    requires a != [] && !StartsTemplate(a)
    requires Substitute(a[1..] + b, matched, before, after)
          == Substitute(a[1..], matched, before, after) + Substitute(b, matched, before, after)
    ensures Substitute(a + b, matched, before, after)
         == Substitute(a, matched, before, after) + Substitute(b, matched, before, after)
  {
    var ab := a + b;
    var sa, sb := Substitute(a[1..], matched, before, after), Substitute(b, matched, before, after);
    assert Substitute(ab, matched, before, after) == [a[0]] + (sa + sb) by {
      PlainHeadAppend(a, b);
      UnfoldPlain(ab, matched, before, after);
    }
    assert Substitute(a, matched, before, after) == [a[0]] + sa by {
      UnfoldPlain(a, matched, before, after);
    }
    AppendAssociates([a[0]], sa, sb);
  }

  /** A template at the head of `a` stays at the head of `a + b`. */
  lemma TemplateHeadAppend(a: string, b: string)
    requires StartsTemplate(a)
    ensures (a + b)[1] == a[1] && (a + b)[2..] == a[2..] + b && StartsTemplate(a + b)
  {
    var ab := a + b;
    assert ab[0] == a[0] && ab[1] == a[1];
    assert ab[2..] == a[2..] + b;
  }

  /** A plain head of `a` stays plain in `a + b` when `b` cannot complete a template. */
  lemma PlainHeadAppend(a: string, b: string)
    requires b == [] || !IsTemplateChar(b[0])
    requires a != [] && !StartsTemplate(a)
    ensures (a + b)[0] == a[0] && (a + b)[1..] == a[1..] + b && !StartsTemplate(a + b)
  {
    var ab := a + b;
    assert ab[1..] == a[1..] + b;
    if |a| >= 2 {
      assert ab[1] == a[1];
    } else if b != [] {
      assert ab[1] == b[0];
    }
  }

  lemma AppendAssociates(x: string, y: string, z: string)
    ensures x + (y + z) == (x + y) + z
  {
  }

  /** One step of `Substitute` over a template at the head of `rep`. */
  lemma UnfoldTemplate(rep: string, matched: string, before: string, after: string)
    requires StartsTemplate(rep)
    ensures Substitute(rep, matched, before, after)
         == TemplatePart(rep[1], matched, before, after) + Substitute(rep[2..], matched, before, after)
  {
  }

  /** One step of `Substitute` over a plain character at the head of `rep`. */
  lemma UnfoldPlain(rep: string, matched: string, before: string, after: string)
    requires rep != [] && !StartsTemplate(rep)
    ensures Substitute(rep, matched, before, after) == [rep[0]] + Substitute(rep[1..], matched, before, after)
  {
  }

  /**
   * `s.replace(c, rep)` for a one-character pattern: only the first occurrence is replaced, by
   * the template `rep` with its `$` patterns substituted.
   */
  function ReplaceFirst(s: string, c: char, rep: string): (r: string)
    ensures c !in s ==> r == s
    ensures c in s ==> exists i :: 0 <= i < |s| && s[i] == c && c !in s[..i]
                        && r == s[..i] + Substitute(rep, [c], s[..i], s[i + 1..]) + s[i + 1..]
  {
    if c in s then
      var i := IndexOf(s, c);
      s[..i] + Substitute(rep, [c], s[..i], s[i + 1..]) + s[i + 1..]
    else s
  }

  /** JavaScript's `s.length`: UTF-16 code units, two for a character above U+FFFF. */
  function Utf16Length(s: string): (n: nat)
    ensures |s| <= n <= 2 * |s|
  {
    if s == [] then 0 else Utf16Units(s[0]) + Utf16Length(s[1..])
  }

  function Utf16Units(c: char): nat {
    if c as int > 0xFFFF then 2 else 1
  }

  /** The UTF-16 length of a concatenation is the sum of the lengths. */
  lemma {:induction false} Utf16LengthAppend(a: string, b: string)
    ensures Utf16Length(a + b) == Utf16Length(a) + Utf16Length(b)
  {
    if a == [] {
      assert a + b == b;
    } else {
      assert (a + b)[1..] == a[1..] + b;
      Utf16LengthAppend(a[1..], b);
    }
  }

  /** Decimal notation of a natural number, as template literals print it. */
  function NatToString(n: nat): (r: string)
    ensures |r| >= 1 && forall c :: c in r ==> IsDigit(c)
  {
    var d := ['0' + (n % 10) as char];
    if n < 10 then d else NatToString(n / 10) + d
  }
}
