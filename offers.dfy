/**
 * Job offers and applications as the dashboard sees them: an offer always has a title and may
 * lack any other description; an application is in one of six statuses, each with a label and
 * a colour.
 */
module Offers {
  import opened Wrappers
  import opened Lists

  datatype Offer = Offer(
    id: string,
    titre: string,
    entreprise: Option<string>,
    lieu: Option<string>,
    codePostal: Option<string>,
    typeContrat: Option<string>,
    description: Option<string>,
    datePublication: Option<string>,
    source: Option<string>,
    lienCandidature: Option<string>,
    domaine: Option<string>,
    salaire: Option<string>)

  datatype Statut = Proposee | Approuvee | Envoyee | Entretien | Refusee | Abandonnee

  datatype Candidature = Candidature(
    id: string,
    candidatId: string,
    offreId: string,
    statut: Statut,
    scoreMatching: Option<int>,
    dateEnvoi: Option<string>,
    createdAt: string,
    notes: Option<string>,
    offre: Option<Offer>)

  const AllStatuts: seq<Statut> := [Proposee, Approuvee, Envoyee, Entretien, Refusee, Abandonnee]

  /** The values of the database's application-status enumeration, in declaration order. */
  const DbStatutEnum: seq<string> :=
    ["proposee", "approuvee", "envoyee", "entretien", "refusee", "abandonnee"]

  function StatutId(s: Statut): string {
    match s
    case Proposee => "proposee"
    case Approuvee => "approuvee"
    case Envoyee => "envoyee"
    case Entretien => "entretien"
    case Refusee => "refusee"
    case Abandonnee => "abandonnee"
  }

  function ParseStatut(s: string): (r: Option<Statut>)
    ensures r.Some? ==> StatutId(r.value) == s
  {
    if s == "proposee" then Some(Proposee)
    else if s == "approuvee" then Some(Approuvee)
    else if s == "envoyee" then Some(Envoyee)
    else if s == "entretien" then Some(Entretien)
    else if s == "refusee" then Some(Refusee)
    else if s == "abandonnee" then Some(Abandonnee)
    else None
  }

  /**
   * There are exactly six statuses, each identifier names exactly one of them, and the
   * identifiers are those of the database enumeration, in the same order.
   */
  lemma StatutsComplete()
    ensures |AllStatuts| == 6 && Distinct(AllStatuts)
    ensures forall s :: s in AllStatuts && ParseStatut(StatutId(s)) == Some(s)
    ensures forall i :: 0 <= i < 6 ==> StatutId(AllStatuts[i]) == DbStatutEnum[i]
  {
    forall s ensures s in AllStatuts && ParseStatut(StatutId(s)) == Some(s) {
      match s
      case Proposee => assert AllStatuts[0] == s;
      case Approuvee => assert AllStatuts[1] == s;
      case Envoyee => assert AllStatuts[2] == s;
      case Entretien => assert AllStatuts[3] == s;
      case Refusee => assert AllStatuts[4] == s;
      case Abandonnee => assert AllStatuts[5] == s;
    }
  }

  /** `STATUT_LABELS`: one label per status. */
  function StatutLabel(s: Statut): (caption: string)
    ensures caption != ""
  {
    match s
    case Proposee => "Proposée"
    case Approuvee => "Approuvée"
    case Envoyee => "Envoyée"
    case Entretien => "Entretien"
    case Refusee => "Refusée"
    case Abandonnee => "Abandonnée"
  }

  /** `STATUT_COLORS`: one colour per status. */
  function StatutColor(s: Statut): (colour: string)
    ensures colour != ""
  {
    match s
    case Proposee => "bg-blue-100 text-blue-700 border-blue-200"
    case Approuvee => "bg-green-100 text-green-700 border-green-200"
    case Envoyee => "bg-purple-100 text-purple-700 border-purple-200"
    case Entretien => "bg-gold/20 text-gold-dark border-gold/30"
    case Refusee => "bg-red-100 text-red-700 border-red-200"
    case Abandonnee => "bg-gray-100 text-gray-600 border-gray-200"
  }

  /** No two statuses share a label, so the label tells the status. */
  lemma LabelsDistinct(s: Statut, t: Statut)
    ensures StatutLabel(s) == StatutLabel(t) ==> s == t
  {
  }
}
