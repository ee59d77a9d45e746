/**
 * Step 5 of the tunnel: the job the candidate is after. Job titles are picked from suggestions
 * or typed as a comma-separated list, communes are typed one at a time, the other criteria are
 * multi-selects (`Tunnel.ToggleItem`), and the distance is chosen on a slider.
 *
 * Each handler computes its updates against the record it was rendered with; when one handler
 * sends several updates, all of them are computed from that same snapshot.
 */
module Step5Projet {
  import opened Wrappers
  import opened Text
  import opened Lists
  import opened Tunnel

  const MetiersPopulaires: seq<string> := [
    "Développeur web", "Comptable", "Commercial", "Secrétaire", "Technicien",
    "Aide-soignant", "Cuisinier", "Chauffeur", "Magasinier", "Électricien",
    "Vendeur", "Agent administratif", "Infirmier", "Mécanicien", "Serveur"]

  /** At most this many suggestions are shown. */
  const SuggestionCount := 8

  /** `addMetier`: a non-empty title not yet chosen is appended; anything else sends no update. */
  function AddMetier(d: TunnelData, metier: string): (u: Option<Patch>)
    ensures u.Some? <==> metier != "" && metier !in d(MetiersRecherches).AsList()
    ensures u.Some? ==>
      u.value == map[MetiersRecherches := ListValue(d(MetiersRecherches).AsList() + [metier])]
  {
    if metier != "" && metier !in d(MetiersRecherches).AsList() then
      Some(map[MetiersRecherches := ListValue(d(MetiersRecherches).AsList() + [metier])])
    else None
  }

  /** Adding a title never puts a duplicate in a duplicate-free list. */
  lemma AddMetierDistinct(d: TunnelData, metier: string)
    requires Distinct(d(MetiersRecherches).AsList())
    ensures var u := AddMetier(d, metier);
      u.Some? ==> Distinct(Merge(d, u.value)(MetiersRecherches).AsList())
  {
  }

  /** `removeMetier`: every occurrence of the title dropped, the others kept in order. */
  function RemoveMetier(d: TunnelData, metier: string): (u: Patch)
    ensures u.Keys == {MetiersRecherches} && u[MetiersRecherches].ListValue?
    ensures var before := d(MetiersRecherches).AsList();
      var after := u[MetiersRecherches].AsList();
      && metier !in after
      && (forall y :: y != metier ==> (y in after <==> y in before))
  {
    map[MetiersRecherches := ListValue(Remove(d(MetiersRecherches).AsList(), metier))]
  }

  /** Removing a title just added gives back the list as it was. */
  lemma RemoveAddedMetier(d: TunnelData, metier: string)
    requires AddMetier(d, metier).Some?
    ensures var added := Merge(d, AddMetier(d, metier).value);
      Merge(added, RemoveMetier(added, metier))(MetiersRecherches).AsList()
        == d(MetiersRecherches).AsList()
  {
    var before := d(MetiersRecherches).AsList();
    RemoveAppend(before, [metier], metier);
    RemoveAbsent(before, metier);
    assert Remove([metier], metier) == [];
  }

  /**
   * The suggestions: the popular titles not yet chosen, in list order, cut to the first eight.
   */
  function Suggestions(chosen: seq<string>): (r: seq<string>)
    ensures |r| <= SuggestionCount
    ensures forall k :: 0 <= k < |r| ==> r[k] !in chosen
  {
    Take(Filter(MetiersPopulaires, (m: string) => m !in chosen), SuggestionCount)
  }

  /** Every suggestion is a popular title, and when fewer than eight are shown every unchosen one is. */
  lemma SuggestionsSpec(chosen: seq<string>, m: string)
    ensures m in Suggestions(chosen) ==> m in MetiersPopulaires
    ensures |Suggestions(chosen)| < SuggestionCount && m in MetiersPopulaires && m !in chosen ==>
      m in Suggestions(chosen)
  {
    var unchosen := (m: string) => m !in chosen;
    var all := Filter(MetiersPopulaires, unchosen);
    if m in Suggestions(chosen) {
      assert m in all;
      FilterSubset(MetiersPopulaires, unchosen, m);
    }
    if |Suggestions(chosen)| < SuggestionCount && m in MetiersPopulaires && m !in chosen {
      FilterKeeps(MetiersPopulaires, unchosen, m);
      assert Suggestions(chosen) == all;
    }
  }

  /** The titles typed in the custom field: cut at the commas, trimmed, empty pieces dropped. */
  function Pieces(s: string): (r: seq<string>)
    ensures forall k :: 0 <= k < |r| ==> r[k] != ""
  {
    Filter(Map(Split(s, ','), Trim), NonEmpty)
  }

  /** No piece holds a comma, and none starts or ends with white space. */
  lemma PiecesSpec(s: string, k: int)
    requires 0 <= k < |Pieces(s)|
    ensures ',' !in Pieces(s)[k] && Trim(Pieces(s)[k]) == Pieces(s)[k]
  {
    TrimmedPiecesSpec(Split(s, ','), k);
  }

  /** The non-empty trimmed pieces of comma-free parts hold no comma and are their own trim. */
  lemma TrimmedPiecesSpec(parts: seq<string>, k: int)
    requires forall j :: 0 <= j < |parts| ==> ',' !in parts[j]
    requires 0 <= k < |Filter(Map(parts, Trim), NonEmpty)|
    ensures ',' !in Filter(Map(parts, Trim), NonEmpty)[k]
    ensures Trim(Filter(Map(parts, Trim), NonEmpty)[k]) == Filter(Map(parts, Trim), NonEmpty)[k]
  {
    var trimmed := Map(parts, Trim);
    var p := Filter(trimmed, NonEmpty)[k];
    assert p in Filter(trimmed, NonEmpty);
    FilterSubset(trimmed, NonEmpty, p);
    var j :| 0 <= j < |trimmed| && trimmed[j] == p;
    assert p == Trim(parts[j]);
    TrimIsInnerSlice(parts[j]);
    TrimIdempotent(parts[j]);
  }

  /** The title updates `addMetier` sends for the given titles, all against the snapshot `d`. */
  function TitleUpdates(d: TunnelData, ms: seq<string>): seq<Patch>
    decreases |ms|
  {
    if ms == [] then []
    else
      var last := AddMetier(d, ms[|ms| - 1]);
      TitleUpdates(d, ms[..|ms| - 1]) + (if last.Some? then [last.value] else [])
  }

  /**
   * Each title update extends the snapshot's list by one new title that was typed, and every
   * typed title that is new gets one.
   */
  lemma {:induction false} TitleUpdatesSpec(d: TunnelData, ms: seq<string>)
    ensures forall u :: u in TitleUpdates(d, ms) ==> exists m :: m in ms && AddMetier(d, m) == Some(u)
    ensures forall m :: m in ms && AddMetier(d, m).Some? ==> AddMetier(d, m).value in TitleUpdates(d, ms)
    ensures |TitleUpdates(d, ms)| <= |ms|
    decreases |ms|
  {
    if ms != [] {
      var init := ms[..|ms| - 1];
      TitleUpdatesSpec(d, init);
      assert ms == init + [ms[|ms| - 1]];
      forall u | u in TitleUpdates(d, ms)
        ensures exists m :: m in ms && AddMetier(d, m) == Some(u)
      {
        if u in TitleUpdates(d, init) {
          var m :| m in init && AddMetier(d, m) == Some(u);
          assert m in ms;
        } else {
          assert AddMetier(d, ms[|ms| - 1]) == Some(u);
        }
      }
    }
  }

  /** The update that empties the custom field once its titles are sent. */
  const ClearCustom: Patch := map[MetiersCustom := TextValue("")]

  /**
   * The Enter key in the custom field: the typed titles are sent to `addMetier` one by one,
   * then the field is emptied. Returns the updates in the order they are sent.
   */
  method CustomJobsEnter(d: TunnelData) returns (updates: seq<Patch>)
    ensures updates == TitleUpdates(d, Pieces(d(MetiersCustom).AsText())) + [ClearCustom]
  {
    var metiers := Filter(Map(Split(d(MetiersCustom).AsText(), ','), Trim), NonEmpty);
    updates := [];
    var i := 0;
    while i < |metiers|
      invariant 0 <= i <= |metiers|
      invariant updates == TitleUpdates(d, metiers[..i])
    {
      var u := AddMetier(d, metiers[i]);
      assert metiers[..i + 1][..i] == metiers[..i];
      if u.Some? {
        updates := updates + [u.value];
      }
      i := i + 1;
    }
    assert metiers[..|metiers|] == metiers;
    updates := updates + [map[MetiersCustom := TextValue("")]];
  }

  /** The input element the communes are typed into; the handler empties it in place. */
  class InputBox {
    var value: string

    constructor(v: string)
      ensures value == v
    {
      value := v;
    }
  }

  /** The commune a typed text adds, if any: the trimmed text, when non-empty and not yet listed. */
  function CommuneToAdd(communes: seq<string>, typed: string): (r: Option<string>)
    ensures r.Some? ==> r.value != "" && r.value !in communes && Trim(r.value) == r.value
  {
    var v := Trim(typed);
    TrimIdempotent(typed);
    if v != "" && v !in communes then Some(v) else None
  }

  /**
   * The Enter key in the commune field: a new commune is appended and the box emptied; a blank
   * or already listed one sends nothing and leaves the box as typed.
   */
  method CommuneEnter(d: TunnelData, box: InputBox) returns (update: Option<Patch>)
    modifies box
    ensures var added := CommuneToAdd(d(CommunesRecherchees).AsList(), old(box.value));
      && (added.Some? ==>
            update == Some(map[CommunesRecherchees :=
                                 ListValue(d(CommunesRecherchees).AsList() + [added.value])])
            && box.value == "")
      && (added.None? ==> update == None && box.value == old(box.value))
  {
    var value := Trim(box.value);
    if value != "" && value !in d(CommunesRecherchees).AsList() {
      update := Some(map[CommunesRecherchees := ListValue(d(CommunesRecherchees).AsList() + [value])]);
      box.value := "";
    } else {
      update := None;
    }
  }

  /** A commune list without duplicates keeps none when a typed commune is added. */
  lemma CommuneAddDistinct(communes: seq<string>, typed: string)
    requires Distinct(communes)
    ensures var added := CommuneToAdd(communes, typed);
      added.Some? ==> Distinct(communes + [added.value])
  {
  }

  /** A position of the distance slider: 5 to 100 km in steps of 5. */
  predicate SliderValue(km: int) {
    5 <= km <= 100 && km % 5 == 0
  }

  /** The slider has twenty positions, one per multiple of 5 from 5 to 100. */
  lemma SliderPositions(km: int)
    ensures SliderValue(km) <==> exists k :: 1 <= k <= 20 && km == 5 * k
  {
    if SliderValue(km) {
      assert km == 5 * (km / 5);
    }
  }

  /** The initial distance, 30 km, is one of the slider's positions. */
  lemma InitialDistanceOnSlider()
    ensures InitialTunnelData(DistanceMax).NumberValue?
    ensures SliderValue(InitialTunnelData(DistanceMax).number)
  {
    InitialTunnelDataValues();
    assert SliderValue(30);
  }
}
