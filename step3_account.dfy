/**
 * Step 3 of the tunnel: identity, password and driving licence. The password strength is
 * scored from four criteria and drawn as a four-segment bar; the licence categories are a
 * multi-select (`Tunnel.ToggleItem` on the categories field); the two yes/no questions map a
 * nullable boolean to a radio value and back.
 */
module Step3Account {
  import opened Wrappers
  import opened Text
  import opened Lists
  import opened Tunnel

  /** `/[a-z]/.test(s)` and its siblings: some character of `s` is of the class. */
  predicate HasLower(s: string) { exists i :: 0 <= i < |s| && IsLowerAscii(s[i]) }

  predicate HasUpper(s: string) { exists i :: 0 <= i < |s| && IsUpperAscii(s[i]) }

  /** `/\d/` without the Unicode flag: an ASCII digit. */
  predicate HasDigit(s: string) { exists i :: 0 <= i < |s| && IsDigit(s[i]) }

  /** `/[^a-zA-Z0-9]/`: a character that is not an ASCII letter or digit. */
  predicate HasSymbol(s: string) {
    exists i :: 0 <= i < |s| && !IsLowerAscii(s[i]) && !IsUpperAscii(s[i]) && !IsDigit(s[i])
  }

  /**
   * The four criteria of a strong password, each worth one point. The length is JavaScript's
   * `length`, in UTF-16 code units.
   */
  function Criteria(p: string): seq<bool> {
    [Utf16Length(p) >= 8, HasLower(p) && HasUpper(p), HasDigit(p), HasSymbol(p)]
  }

  /** The number of criteria met. */
  function Count(bs: seq<bool>): (n: nat)
    ensures n <= |bs|
  {
    if bs == [] then 0 else (if bs[0] then 1 else 0) + Count(bs[1..])
  }

  /** A list of criteria that meets every criterion another one meets scores at least as much. */
  lemma {:induction false} CountMonotone(a: seq<bool>, b: seq<bool>)
    requires |a| == |b|
    requires forall i :: 0 <= i < |a| && a[i] ==> b[i]
    ensures Count(a) <= Count(b)
  {
    if a != [] {
      CountMonotone(a[1..], b[1..]);
    }
  }

  /** Four criteria score one point each. */
  lemma CountFour(a: bool, b: bool, c: bool, d: bool)
    ensures Count([a, b, c, d])
         == (if a then 1 else 0) + (if b then 1 else 0) + (if c then 1 else 0) + (if d then 1 else 0)
  {
    assert Count([d]) == (if d then 1 else 0) by { assert [d][1..] == []; }
    assert Count([c, d]) == (if c then 1 else 0) + Count([d]) by { assert [c, d][1..] == [d]; }
    assert Count([b, c, d]) == (if b then 1 else 0) + Count([c, d]) by {
      assert [b, c, d][1..] == [c, d];
    }
    assert [a, b, c, d][1..] == [b, c, d];
  }

  /** The strength of a password: how many of the four criteria it meets. */
  function Strength(p: string): nat {
    Count(Criteria(p))
  }

  /** `getPasswordStrength`: one point per criterion met, counted step by step. */
  method GetPasswordStrength(password: string) returns (strength: nat)
    ensures strength == Strength(password)
    ensures strength <= 4
  {
    strength := 0;
    if Utf16Length(password) >= 8 {
      strength := strength + 1;
    }
    if HasLower(password) && HasUpper(password) {
      strength := strength + 1;
    }
    if HasDigit(password) {
      strength := strength + 1;
    }
    if HasSymbol(password) {
      strength := strength + 1;
    }
    CountFour(Utf16Length(password) >= 8, HasLower(password) && HasUpper(password), HasDigit(password),
              HasSymbol(password));
  }

  /** The empty password meets no criterion; a password meets all four exactly when it is long and mixed. */
  lemma StrengthExtremes(p: string)
    ensures Strength("") == 0
    ensures Strength(p) == 4 <==>
      Utf16Length(p) >= 8 && HasLower(p) && HasUpper(p) && HasDigit(p) && HasSymbol(p)
  {
    CountFour(Utf16Length(p) >= 8, HasLower(p) && HasUpper(p), HasDigit(p), HasSymbol(p));
    CountFour(false, false, false, false);
  }

  /** Typing more characters never weakens a password: every criterion met stays met. */
  lemma StrengthMonotone(p: string, q: string)
    ensures Strength(p) <= Strength(p + q)
  {
    var s := p + q;
    var cp, cs := Criteria(p), Criteria(s);
    assert cp[0] ==> cs[0] by {
      Utf16LengthAppend(p, q);
    }
    assert cp[1] ==> cs[1] by {
      if HasLower(p) && HasUpper(p) {
        var i :| 0 <= i < |p| && IsLowerAscii(p[i]);
        var j :| 0 <= j < |p| && IsUpperAscii(p[j]);
        assert s[i] == p[i] && s[j] == p[j];
      }
    }
    assert cp[2] ==> cs[2] by {
      if HasDigit(p) {
        var i :| 0 <= i < |p| && IsDigit(p[i]);
        assert s[i] == p[i];
      }
    }
    assert cp[3] ==> cs[3] by {
      if HasSymbol(p) {
        var i :| 0 <= i < |p| && !IsLowerAscii(p[i]) && !IsUpperAscii(p[i]) && !IsDigit(p[i]);
        assert s[i] == p[i];
      }
    }
    CountMonotone(cp, cs);
  }

  /** A character outside the Basic Multilingual Plane: two UTF-16 code units. */
  lemma AstralCharacter()
    ensures Utf16Length("\U{1F600}") == 2
  {
  }

  /** Three of them: six units. */
  lemma ThreeAstralCharacters()
    ensures Utf16Length("\U{1F600}\U{1F600}\U{1F600}") == 6
  {
    AstralCharacter();
    Utf16LengthAppend("\U{1F600}", "\U{1F600}\U{1F600}");
    Utf16LengthAppend("\U{1F600}", "\U{1F600}");
    assert "\U{1F600}\U{1F600}\U{1F600}" == "\U{1F600}" + "\U{1F600}\U{1F600}";
    assert "\U{1F600}\U{1F600}" == "\U{1F600}" + "\U{1F600}";
  }

  lemma AsciiUnits()
    ensures Utf16Length("Ab1!") == 4
  {
  }

  /**
   * Seven characters, three of them outside the Basic Multilingual Plane, count as ten units:
   * the password is long enough and meets all four criteria.
   */
  lemma AstralCharactersCountTwice()
    ensures |"Ab1!\U{1F600}\U{1F600}\U{1F600}"| == 7
    ensures Utf16Length("Ab1!\U{1F600}\U{1F600}\U{1F600}") == 10
    ensures Strength("Ab1!\U{1F600}\U{1F600}\U{1F600}") == 4
  {
    var p := "Ab1!\U{1F600}\U{1F600}\U{1F600}";
    assert Utf16Length(p) == 10 by {
      assert p == "Ab1!" + "\U{1F600}\U{1F600}\U{1F600}";
      AsciiUnits();
      ThreeAstralCharacters();
      Utf16LengthAppend("Ab1!", "\U{1F600}\U{1F600}\U{1F600}");
    }
    assert HasLower(p) && HasUpper(p) && HasDigit(p) && HasSymbol(p) by {
      assert IsLowerAscii(p[1]) && IsUpperAscii(p[0]) && IsDigit(p[2]);
      assert !IsLowerAscii(p[3]) && !IsUpperAscii(p[3]) && !IsDigit(p[3]);
    }
    StrengthExtremes(p);
  }

  const StrengthLabels: seq<string> := ["Très faible", "Faible", "Moyen", "Fort", "Très fort"]

  const StrengthColors: seq<string> :=
    ["bg-red-500", "bg-orange-500", "bg-yellow-500", "bg-green-400", "bg-green-600"]

  const EmptySegment := "bg-gray-200"

  /** The label under the bar: always defined, since the strength is at most 4. */
  function StrengthLabel(p: string): (r: string)
    ensures r in StrengthLabels
  {
    StrengthLabels[Strength(p)]
  }

  /**
   * The bar under the password field: absent for an empty password, otherwise four segments,
   * segment `i` drawn in the colour of the strength when `i` is below it and grey otherwise.
   */
  function StrengthBar(p: string): (r: Option<seq<string>>)
    ensures r.Some? <==> p != ""
    ensures r.Some? ==> |r.value| == 4
    ensures r.Some? ==> forall i :: 0 <= i < 4 ==>
      (r.value[i] != EmptySegment <==> i < Strength(p))
    ensures r.Some? ==> forall i :: 0 <= i < 4 && r.value[i] != EmptySegment ==>
      r.value[i] == StrengthColors[Strength(p)]
  {
    if p == "" then None
    else
      var s := Strength(p);
      Some(seq(4, i => if i < s then StrengthColors[s] else EmptySegment))
  }

  /** The number of coloured segments is the strength. */
  lemma ColouredSegments(p: string)
    requires p != ""
    ensures |Filter(StrengthBar(p).value, (c: string) => c != EmptySegment)| == Strength(p)
  {
    var bar := StrengthBar(p).value;
    var s := Strength(p);
    var coloured := (c: string) => c != EmptySegment;
    FilterSplit(bar, s, coloured);
  }

  /** When the first `n` entries pass the test and the others do not, `n` entries are kept. */
  lemma {:induction false} FilterSplit(xs: seq<string>, n: nat, p: string -> bool)
    requires n <= |xs|
    requires forall i :: 0 <= i < |xs| ==> (p(xs[i]) <==> i < n)
    ensures |Filter(xs, p)| == n
  {
    if xs != [] {
      if n > 0 {
        FilterSplit(xs[1..], n - 1, p);
      } else {
        FilterSplit(xs[1..], 0, p);
      }
    }
  }

  /** The radio value shown for a yes/no answer that may still be unset. */
  function RadioValue(answer: Option<bool>): string {
    match answer
    case None => ""
    case Some(b) => if b then "oui" else "non"
  }

  /** The answer stored when a radio value is chosen: "oui" is yes, anything else no. */
  function FromRadio(v: string): bool {
    v == "oui"
  }

  /** A given answer survives the trip to the radio and back; an unset one shows no choice. */
  lemma RadioRoundTrip(answer: Option<bool>)
    ensures answer.Some? ==> FromRadio(RadioValue(answer)) == answer.value
    ensures answer.None? <==> RadioValue(answer) == ""
    ensures RadioValue(Some(FromRadio("oui"))) == "oui" && RadioValue(Some(FromRadio("non"))) == "non"
  {
  }

  /** Choosing a licence answer. */
  function ChoosePermis(v: string): (u: Patch)
    ensures u.Keys == {PermisConduire} && u[PermisConduire] == TriValue(Some(v == "oui"))
  {
    map[PermisConduire := TriValue(Some(FromRadio(v)))]
  }

  /** Choosing a vehicle answer. */
  function ChooseVehicule(v: string): (u: Patch)
    ensures u.Keys == {VehiculePersonnel} && u[VehiculePersonnel] == TriValue(Some(v == "oui"))
  {
    map[VehiculePersonnel := TriValue(Some(FromRadio(v)))]
  }

  /** The licence categories are asked for only once the candidate has said yes. */
  predicate CategoriesShown(d: TunnelData) {
    d(PermisConduire) == TriValue(Some(true))
  }

  /** Answering "oui" brings up the categories, any other answer hides them. */
  lemma ChoosePermisShowsCategories(d: TunnelData, v: string)
    ensures CategoriesShown(Merge(d, ChoosePermis(v))) <==> v == "oui"
  {
  }

  /**
   * The indicator under the confirmation field: nothing while the confirmation is empty,
   * otherwise whether the two passwords are equal.
   */
  function PasswordMatch(password: string, confirmPassword: string): (r: Option<bool>)
    ensures r.None? <==> confirmPassword == ""
    ensures r == Some(true) <==> confirmPassword != "" && password == confirmPassword
  {
    if confirmPassword == "" then None else Some(password == confirmPassword)
  }
}
