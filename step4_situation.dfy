/**
 * Step 4 of the tunnel: situation, education and past jobs. The step keeps two drafts of its
 * own, a formation and an experience being typed in; adding a complete draft appends it to the
 * record's list and blanks the draft, and any entry of the lists can be removed by position.
 */
module Step4Situation {
  import opened Wrappers
  import opened Lists
  import opened Tunnel

  /** The blank formation draft; a new formation counts as obtained until unticked. */
  const BlankFormation := Formation("", "", "", "", true, "", "")

  const BlankExperience := Experience("", "", "", "", "", "", "")

  /** A formation needs a title and an institution before it can be added. */
  predicate FormationComplete(f: Formation) {
    f.intitule != "" && f.etablissement != ""
  }

  /** An experience needs a position and a company before it can be added. */
  predicate ExperienceComplete(e: Experience) {
    e.poste != "" && e.entreprise != ""
  }

  /** The text fields of the formation draft. */
  datatype FormationField = KindField | IntituleField | EtablissementField | LieuField
                          | DebutField | FinField

  function WithFormationField(f: Formation, field: FormationField, v: string): (r: Formation)
    ensures r.obtenu == f.obtenu
  {
    match field
    case KindField => f.(kind := v)
    case IntituleField => f.(intitule := v)
    case EtablissementField => f.(etablissement := v)
    case LieuField => f.(lieu := v)
    case DebutField => f.(dateDebut := v)
    case FinField => f.(dateFin := v)
  }

  /** The fields of the experience draft. */
  datatype ExperienceField = EntrepriseField | PosteField | VilleField | StartField | EndField
                           | TypeContratField | MissionsField

  function WithExperienceField(e: Experience, field: ExperienceField, v: string): Experience {
    match field
    case EntrepriseField => e.(entreprise := v)
    case PosteField => e.(poste := v)
    case VilleField => e.(ville := v)
    case StartField => e.(dateDebut := v)
    case EndField => e.(dateFin := v)
    case TypeContratField => e.(typeContrat := v)
    case MissionsField => e.(missions := v)
  }

  /** Typing a title and an institution into any draft makes it complete. */
  lemma FilledDraftComplete(f: Formation, intitule: string, etablissement: string)
    requires intitule != "" && etablissement != ""
    ensures FormationComplete(
      WithFormationField(WithFormationField(f, IntituleField, intitule), EtablissementField, etablissement))
  {
  }

  /** Typing a position and a company into any draft makes it complete. */
  lemma FilledExperienceComplete(e: Experience, poste: string, entreprise: string)
    requires poste != "" && entreprise != ""
    ensures ExperienceComplete(
      WithExperienceField(WithExperienceField(e, PosteField, poste), EntrepriseField, entreprise))
  {
  }

  /** `removeFormation(index)`: the formation at that position dropped, the others kept in order. */
  function RemoveFormation(d: TunnelData, index: int): (u: Patch)
    ensures u.Keys == {Formations} && u[Formations].FormationsValue?
    ensures var before := d(Formations).AsFormations();
      var after := u[Formations].AsFormations();
      && (0 <= index < |before| ==> after == before[..index] + before[index + 1..])
      && (!(0 <= index < |before|) ==> after == before)
  {
    map[Formations := FormationsValue(RemoveAt(d(Formations).AsFormations(), index))]
  }

  /** `removeExperience(index)`: the experience at that position dropped, the others kept in order. */
  function RemoveExperience(d: TunnelData, index: int): (u: Patch)
    ensures u.Keys == {Experiences} && u[Experiences].ExperiencesValue?
    ensures var before := d(Experiences).AsExperiences();
      var after := u[Experiences].AsExperiences();
      && (0 <= index < |before| ==> after == before[..index] + before[index + 1..])
      && (!(0 <= index < |before|) ==> after == before)
  {
    map[Experiences := ExperiencesValue(RemoveAt(d(Experiences).AsExperiences(), index))]
  }

  /** The update that appends a formation to the record's list. */
  function AppendFormation(d: TunnelData, f: Formation): Patch {
    map[Formations := FormationsValue(d(Formations).AsFormations() + [f])]
  }

  function AppendExperience(d: TunnelData, e: Experience): Patch {
    map[Experiences := ExperiencesValue(d(Experiences).AsExperiences() + [e])]
  }

  /** Removing the formation just added gives back the list as it was. */
  lemma RemoveAddedFormation(d: TunnelData, f: Formation)
    ensures var added := Merge(d, AppendFormation(d, f));
      var n := |d(Formations).AsFormations()|;
      && added(Formations).AsFormations()[n] == f
      && Merge(added, RemoveFormation(added, n))(Formations).AsFormations() == d(Formations).AsFormations()
  {
    var fs := d(Formations).AsFormations();
    assert (fs + [f])[..|fs|] == fs;
  }

  /** Removing the experience just added gives back the list as it was. */
  lemma RemoveAddedExperience(d: TunnelData, e: Experience)
    ensures var added := Merge(d, AppendExperience(d, e));
      var n := |d(Experiences).AsExperiences()|;
      && added(Experiences).AsExperiences()[n] == e
      && Merge(added, RemoveExperience(added, n))(Experiences).AsExperiences()
         == d(Experiences).AsExperiences()
  {
    var es := d(Experiences).AsExperiences();
    assert (es + [e])[..|es|] == es;
  }

  /** The notice-period question is asked only of candidates who are employed. */
  predicate PreavisShown(d: TunnelData) {
    EnEmploi in d(SituationProfessionnelle).AsList()
  }

  /** Ticking or unticking "En emploi" brings up or hides the notice-period question. */
  lemma ToggleEmployedFlipsPreavis(d: TunnelData)
    ensures PreavisShown(Merge(d, ToggleItem(d, SituationProfessionnelle, EnEmploi))) <==> !PreavisShown(d)
  {
  }

  /** Toggling any other situation leaves the question as it was. */
  lemma ToggleOtherKeepsPreavis(d: TunnelData, situation: string)
    requires situation != EnEmploi
    ensures PreavisShown(Merge(d, ToggleItem(d, SituationProfessionnelle, situation))) <==> PreavisShown(d)
  {
  }

  /** The step's own state: the two drafts being typed in. */
  class SituationForm {
    var newFormation: Formation
    var newExperience: Experience

    constructor()
      ensures newFormation == BlankFormation && newExperience == BlankExperience
    {
      newFormation := BlankFormation;
      newExperience := BlankExperience;
    }

    /** Typing into a text field of the formation draft. */
    method EditFormation(field: FormationField, v: string)
      modifies this
      ensures newFormation == WithFormationField(old(newFormation), field, v)
      ensures newExperience == old(newExperience)
    {
      newFormation := WithFormationField(newFormation, field, v);
    }

    /** Ticking or unticking "obtained". */
    method SetObtenu(checked: bool)
      modifies this
      ensures newFormation == old(newFormation).(obtenu := checked)
      ensures newExperience == old(newExperience)
    {
      newFormation := newFormation.(obtenu := checked);
    }

    /** Typing into a field of the experience draft. */
    method EditExperience(field: ExperienceField, v: string)
      modifies this
      ensures newExperience == WithExperienceField(old(newExperience), field, v)
      ensures newFormation == old(newFormation)
    {
      newExperience := WithExperienceField(newExperience, field, v);
    }

    /**
     * `addFormation`: a complete draft is appended at the end of the record's formations and
     * the draft is blanked; an incomplete one changes nothing.
     */
    method AddFormation(d: TunnelData) returns (update: Option<Patch>)
      modifies this
      ensures FormationComplete(old(newFormation)) ==>
        update == Some(AppendFormation(d, old(newFormation))) && newFormation == BlankFormation
      ensures !FormationComplete(old(newFormation)) ==>
        update == None && newFormation == old(newFormation)
      ensures newExperience == old(newExperience)
    {
      if newFormation.intitule != "" && newFormation.etablissement != "" {
        update := Some(map[Formations := FormationsValue(d(Formations).AsFormations() + [newFormation])]);
        newFormation := Formation("", "", "", "", true, "", "");
      } else {
        update := None;
      }
    }

    /**
     * `addExperience`: a complete draft is appended at the end of the record's experiences and
     * the draft is blanked; an incomplete one changes nothing.
     */
    method AddExperience(d: TunnelData) returns (update: Option<Patch>)
      modifies this
      ensures ExperienceComplete(old(newExperience)) ==>
        update == Some(AppendExperience(d, old(newExperience))) && newExperience == BlankExperience
      ensures !ExperienceComplete(old(newExperience)) ==>
        update == None && newExperience == old(newExperience)
      ensures newFormation == old(newFormation)
    {
      if newExperience.poste != "" && newExperience.entreprise != "" {
        update := Some(map[Experiences := ExperiencesValue(d(Experiences).AsExperiences() + [newExperience])]);
        newExperience := Experience("", "", "", "", "", "", "");
      } else {
        update := None;
      }
    }
  }

  /** The append is the only change an added formation makes to the record. */
  lemma AppendFormationSpec(d: TunnelData, f: Formation, other: Field)
    requires other != Formations
    ensures var added := Merge(d, AppendFormation(d, f));
      && added(Formations).AsFormations() == d(Formations).AsFormations() + [f]
      && added(other) == d(other)
  {
  }

  /** The append is the only change an added experience makes to the record. */
  lemma AppendExperienceSpec(d: TunnelData, e: Experience, other: Field)
    requires other != Experiences
    ensures var added := Merge(d, AppendExperience(d, e));
      && added(Experiences).AsExperiences() == d(Experiences).AsExperiences() + [e]
      && added(other) == d(other)
  {
  }
}
