/**
 * The data the seven-step onboarding tunnel collects: the service modes and plans, the
 * formation and experience records, the whole `TunnelData` record with its initial value, the
 * option lists the steps offer, and the shallow merge through which a step's partial update
 * reaches the record.
 *
 * A step addresses the record by field name (`data[field]`, `{ [field]: value }`), so the
 * record is a total function from field names to values, and a partial update is a finite map
 * from field names to values.
 */
module Tunnel {
  import opened Wrappers
  import opened Lists

  /** The three ways of using the service. */
  datatype ServiceMode = Autonome | Assiste | Delegation

  const AllModes: seq<ServiceMode> := [Autonome, Assiste, Delegation]

  /** The identifier the mode has in the data and in the payment metadata. */
  function ModeId(m: ServiceMode): string {
    match m
    case Autonome => "autonome"
    case Assiste => "assiste"
    case Delegation => "delegation"
  }

  function ParseMode(s: string): (r: Option<ServiceMode>)
    ensures r.Some? ==> ModeId(r.value) == s
  {
    if s == "autonome" then Some(Autonome)
    else if s == "assiste" then Some(Assiste)
    else if s == "delegation" then Some(Delegation)
    else None
  }

  /** There are exactly three modes, and each identifier names exactly one of them. */
  lemma ModesComplete()
    ensures |AllModes| == 3 && Distinct(AllModes)
    ensures forall m :: m in AllModes
    ensures forall m :: ParseMode(ModeId(m)) == Some(m)
  {
    forall m ensures m in AllModes && ParseMode(ModeId(m)) == Some(m) {
      match m
      case Autonome => assert AllModes[0] == m;
      case Assiste => assert AllModes[1] == m;
      case Delegation => assert AllModes[2] == m;
    }
  }

  /** The six plans. */
  datatype PlanType = Gratuit | Pack8 | Mensuel30 | Pack15 | PremiumMensuel | PremiumTrimestriel

  const AllPlans: seq<PlanType> := [Gratuit, Pack8, Mensuel30, Pack15, PremiumMensuel, PremiumTrimestriel]

  /** The identifier the plan has in the data, in the price table and in the payment metadata. */
  function PlanId(p: PlanType): string {
    match p
    case Gratuit => "gratuit"
    case Pack8 => "pack_8"
    case Mensuel30 => "mensuel_30"
    case Pack15 => "pack_15"
    case PremiumMensuel => "premium_mensuel"
    case PremiumTrimestriel => "premium_trimestriel"
  }

  function ParsePlan(s: string): (r: Option<PlanType>)
    ensures r.Some? ==> PlanId(r.value) == s
  {
    if s == "gratuit" then Some(Gratuit)
    else if s == "pack_8" then Some(Pack8)
    else if s == "mensuel_30" then Some(Mensuel30)
    else if s == "pack_15" then Some(Pack15)
    else if s == "premium_mensuel" then Some(PremiumMensuel)
    else if s == "premium_trimestriel" then Some(PremiumTrimestriel)
    else None
  }

  /** There are exactly six plans, and each identifier names exactly one of them. */
  lemma PlansComplete()
    ensures |AllPlans| == 6 && Distinct(AllPlans)
    ensures forall p :: p in AllPlans
    ensures forall p :: ParsePlan(PlanId(p)) == Some(p)
  {
    forall p ensures p in AllPlans && ParsePlan(PlanId(p)) == Some(p) {
      match p
      case Gratuit => assert AllPlans[0] == p;
      case Pack8 => assert AllPlans[1] == p;
      case Mensuel30 => assert AllPlans[2] == p;
      case Pack15 => assert AllPlans[3] == p;
      case PremiumMensuel => assert AllPlans[4] == p;
      case PremiumTrimestriel => assert AllPlans[5] == p;
    }
  }

  /** A diploma or training the candidate lists. */
  datatype Formation = Formation(
    kind: string,
    intitule: string,
    etablissement: string,
    lieu: string,
    obtenu: bool,
    dateDebut: string,
    dateFin: string)

  /** A past job the candidate lists. */
  datatype Experience = Experience(
    entreprise: string,
    poste: string,
    ville: string,
    dateDebut: string,
    dateFin: string,
    typeContrat: string,
    missions: string)

  /** A document the browser handed over; only its identity matters here. */
  datatype UploadedFile = UploadedFile(name: string, size: nat)

  /** The eight consents the last step asks for. */
  datatype Consents = Consents(
    infoExactes: bool,
    autorisationCandidatures: bool,
    autorisationIdentifiants: bool,
    pasGarantie: bool,
    serviceAdministratif: bool,
    autorisationContact: bool,
    engagement: bool,
    rgpd: bool)

  datatype ConsentKey =
    | InfoExactes | AutorisationCandidatures | AutorisationIdentifiants | PasGarantie
    | ServiceAdministratif | AutorisationContact | Engagement | Rgpd

  const AllConsentKeys: seq<ConsentKey> := [
    InfoExactes, AutorisationCandidatures, AutorisationIdentifiants, PasGarantie,
    ServiceAdministratif, AutorisationContact, Engagement, Rgpd]

  /** `consentements[key]`. */
  function Consent(c: Consents, k: ConsentKey): bool {
    match k
    case InfoExactes => c.infoExactes
    case AutorisationCandidatures => c.autorisationCandidatures
    case AutorisationIdentifiants => c.autorisationIdentifiants
    case PasGarantie => c.pasGarantie
    case ServiceAdministratif => c.serviceAdministratif
    case AutorisationContact => c.autorisationContact
    case Engagement => c.engagement
    case Rgpd => c.rgpd
  }

  /** The consent record has exactly eight keys. */
  lemma ConsentKeysComplete()
    ensures |AllConsentKeys| == 8 && Distinct(AllConsentKeys)
    ensures forall k :: k in AllConsentKeys
  {
    forall k ensures k in AllConsentKeys {
      match k
      case InfoExactes => assert AllConsentKeys[0] == k;
      case AutorisationCandidatures => assert AllConsentKeys[1] == k;
      case AutorisationIdentifiants => assert AllConsentKeys[2] == k;
      case PasGarantie => assert AllConsentKeys[3] == k;
      case ServiceAdministratif => assert AllConsentKeys[4] == k;
      case AutorisationContact => assert AllConsentKeys[5] == k;
      case Engagement => assert AllConsentKeys[6] == k;
      case Rgpd => assert AllConsentKeys[7] == k;
    }
  }

  /** A consent record is determined by its answers to the eight keys. */
  lemma ConsentsExtensional(c: Consents, d: Consents)
    requires forall k :: Consent(c, k) == Consent(d, k)
    ensures c == d
  {
    assert Consent(c, InfoExactes) == Consent(d, InfoExactes);
    assert Consent(c, AutorisationCandidatures) == Consent(d, AutorisationCandidatures);
    assert Consent(c, AutorisationIdentifiants) == Consent(d, AutorisationIdentifiants);
    assert Consent(c, PasGarantie) == Consent(d, PasGarantie);
    assert Consent(c, ServiceAdministratif) == Consent(d, ServiceAdministratif);
    assert Consent(c, AutorisationContact) == Consent(d, AutorisationContact);
    assert Consent(c, Engagement) == Consent(d, Engagement);
    assert Consent(c, Rgpd) == Consent(d, Rgpd);
  }

  /** The fields of `TunnelData`, step by step. */
  datatype Field =
    // Step 1
    | Mode
    // Step 2
    | Plan | ServicesAdditionnels
    // Step 3
    | Prenom | Nom | Email | Telephone | Adresse | Password | ConfirmPassword
    | AcceptCGU | AcceptNewsletter
    | PermisConduire | CategoriesPermis | VehiculePersonnel
    // Step 4
    | SituationProfessionnelle | Preavis | Disponibilite
    | Formations | NiveauEtude | Experiences
    | CompetencesTechniques | CompetencesAutres
    // Step 5
    | MetiersRecherches | MetiersCustom | SecteursRecherches | MetiersExclus
    | CommunesRecherchees | DistanceMax | TypesContrat | HorairesAcceptes
    | SalaireSouhaite | TachesAEviter
    // Step 6
    | CvFile | CvUrl | LettreMotivationFile | LettreMotivationUrl
    | DiplomesFile | DiplomesUrl | CertificatsFile | CertificatsUrl
    | CompetencesExtraites | ExperiencesExtraites | ScoreCv
    // Step 7
    | FrequenceSuivi | MomentsDisponibles | MoyensContact | AccesForem | IdentifiantsForem
    | SitesEmploi | AccesSitesEmploi | UtiliserComptesExistants | ComptesAUtiliser
    | SourceDecouverte | Consentements

  /** The declared type of a field. */
  datatype Kind =
    | ModeKind | PlanKind | TextKind | FlagKind | TriKind | ListKind
    | FormationsKind | ExperiencesKind | NumberKind | FileKind | ConsentsKind

  function KindOf(f: Field): Kind {
    match f
    case Mode => ModeKind
    case Plan => PlanKind
    case ServicesAdditionnels | CategoriesPermis | SituationProfessionnelle | NiveauEtude
       | MetiersRecherches | SecteursRecherches | CommunesRecherchees | TypesContrat
       | HorairesAcceptes | SalaireSouhaite | TachesAEviter | CompetencesExtraites
       | ExperiencesExtraites | MomentsDisponibles | MoyensContact | SitesEmploi
       | SourceDecouverte => ListKind
    case Prenom | Nom | Email | Telephone | Adresse | Password | ConfirmPassword
       | Disponibilite | CompetencesTechniques | CompetencesAutres | MetiersCustom
       | MetiersExclus | CvUrl | LettreMotivationUrl | DiplomesUrl | CertificatsUrl
       | FrequenceSuivi | AccesForem | IdentifiantsForem | AccesSitesEmploi
       | UtiliserComptesExistants | ComptesAUtiliser => TextKind
    case AcceptCGU | AcceptNewsletter => FlagKind
    case PermisConduire | VehiculePersonnel | Preavis => TriKind
    case Formations => FormationsKind
    case Experiences => ExperiencesKind
    case DistanceMax | ScoreCv => NumberKind
    case CvFile | LettreMotivationFile | DiplomesFile | CertificatsFile => FileKind
    case Consentements => ConsentsKind
  }

  /** A field's value; `null` of a nullable field is `None`. */
  datatype Value =
    | ModeValue(mode: Option<ServiceMode>)
    | PlanValue(plan: Option<PlanType>)
    | TextValue(text: string)
    | FlagValue(flag: bool)
    | TriValue(answer: Option<bool>)
    | ListValue(items: seq<string>)
    | FormationsValue(formations: seq<Formation>)
    | ExperiencesValue(experiences: seq<Experience>)
    | NumberValue(number: int)
    | FileValue(file: Option<UploadedFile>)
    | ConsentsValue(consents: Consents)
  {
    function KindOfValue(): Kind {
      match this
      case ModeValue(_) => ModeKind
      case PlanValue(_) => PlanKind
      case TextValue(_) => TextKind
      case FlagValue(_) => FlagKind
      case TriValue(_) => TriKind
      case ListValue(_) => ListKind
      case FormationsValue(_) => FormationsKind
      case ExperiencesValue(_) => ExperiencesKind
      case NumberValue(_) => NumberKind
      case FileValue(_) => FileKind
      case ConsentsValue(_) => ConsentsKind
    }

    /** The value as a string list (`data[field] as string[]`). */
    function AsList(): seq<string> {
      if ListValue? then items else []
    }

    function AsText(): string {
      if TextValue? then text else ""
    }

    function AsConsents(): Consents {
      if ConsentsValue? then consents else NoConsents
    }

    function AsFormations(): seq<Formation> {
      if FormationsValue? then formations else []
    }

    function AsExperiences(): seq<Experience> {
      if ExperiencesValue? then experiences else []
    }
  }

  /** A whole record. */
  type TunnelData = Field -> Value

  /** A partial update, as a step hands it to `onChange`. */
  type Patch = map<Field, Value>

  /** Every field holds a value of its declared type. */
  predicate WellTyped(d: TunnelData) {
    forall f :: d(f).KindOfValue() == KindOf(f)
  }

  predicate WellTypedPatch(p: Patch) {
    forall f :: f in p ==> p[f].KindOfValue() == KindOf(f)
  }

  /** `{ ...data, ...patch }`: the patched fields take the patch's values, the others keep theirs. */
  function Merge(d: TunnelData, p: Patch): TunnelData {
    (f: Field) => if f in p then p[f] else d(f)
  }

  /** Two records hold the same value in every field. */
  predicate SameData(a: TunnelData, b: TunnelData) {
    forall f :: a(f) == b(f)
  }

  /** A merge keeps every field at its declared type. */
  lemma MergeWellTyped(d: TunnelData, p: Patch)
    requires WellTyped(d) && WellTypedPatch(p)
    ensures WellTyped(Merge(d, p))
  {
    forall f ensures Merge(d, p)(f).KindOfValue() == KindOf(f) {
      if f in p {
        assert Merge(d, p)(f) == p[f];
      } else {
        assert Merge(d, p)(f) == d(f);
      }
    }
  }

  /** Merging two updates one after the other is merging their union, the later one winning. */
  lemma MergeTwice(d: TunnelData, p: Patch, q: Patch)
    ensures SameData(Merge(Merge(d, p), q), Merge(d, p + q))
  {
    forall f ensures Merge(Merge(d, p), q)(f) == Merge(d, p + q)(f) {
      if f in q {
        assert Merge(d, p + q)(f) == (p + q)[f] == q[f];
      } else if f in p {
        assert Merge(d, p + q)(f) == (p + q)[f] == p[f];
      }
    }
  }

  /** Merging the same update twice is merging it once; an empty update changes nothing. */
  lemma MergeIdempotent(d: TunnelData, p: Patch)
    ensures SameData(Merge(Merge(d, p), p), Merge(d, p))
    ensures SameData(Merge(d, map[]), d)
  {
    MergeTwice(d, p, p);
    assert p + p == p;
  }

  /**
   * The toggle every step applies to a multi-select list field (`toggleItem(field, item)`,
   * `toggleSituation`, `toggleCategoriePermis`, ...): an item already there is removed, every
   * occurrence of it, and any other item is appended. The update touches that field alone.
   */
  function ToggleItem(d: TunnelData, field: Field, item: string): (u: Patch)
    ensures u.Keys == {field} && u[field].ListValue?
    ensures var before := d(field).AsList();
      var after := u[field].AsList();
      && (item in after <==> item !in before)
      && (forall y :: y != item ==> (y in after <==> y in before))
      && (item in before ==> |after| <= |before|)
      && (item !in before ==> after == before + [item])
  {
    map[field := ListValue(Toggle(d(field).AsList(), item))]
  }

  /** The toggle changes the toggled field and no other. */
  lemma ToggleItemFrame(d: TunnelData, field: Field, item: string, other: Field)
    requires other != field
    ensures Merge(d, ToggleItem(d, field, item))(other) == d(other)
  {
  }

  /** Toggling an unselected item on and off again restores the field's list exactly, order included. */
  lemma ToggleItemTwice(d: TunnelData, field: Field, item: string)
    requires item !in d(field).AsList()
    ensures var once := Merge(d, ToggleItem(d, field, item));
      Merge(once, ToggleItem(once, field, item))(field) == ListValue(d(field).AsList())
  {
    ToggleTwice(d(field).AsList(), item);
  }

  /** A list field without duplicates keeps none after a toggle. */
  lemma ToggleItemDistinct(d: TunnelData, field: Field, item: string)
    requires Distinct(d(field).AsList())
    ensures Distinct(Merge(d, ToggleItem(d, field, item))(field).AsList())
  {
    ToggleDistinct(d(field).AsList(), item);
  }

  const NoConsents := Consents(false, false, false, false, false, false, false, false)

  /** `initialTunnelData`, field by field. */
  function InitialValue(f: Field): Value {
    match f
    case Mode => ModeValue(None)
    case Plan => PlanValue(None)
    case ServicesAdditionnels => ListValue([])
    case Prenom => TextValue("")
    case Nom => TextValue("")
    case Email => TextValue("")
    case Telephone => TextValue("")
    case Adresse => TextValue("")
    case Password => TextValue("")
    case ConfirmPassword => TextValue("")
    case AcceptCGU => FlagValue(false)
    case AcceptNewsletter => FlagValue(false)
    case PermisConduire => TriValue(None)
    case CategoriesPermis => ListValue([])
    case VehiculePersonnel => TriValue(None)
    case SituationProfessionnelle => ListValue([])
    case Preavis => TriValue(None)
    case Disponibilite => TextValue("")
    case Formations => FormationsValue([])
    case NiveauEtude => ListValue([])
    case Experiences => ExperiencesValue([])
    case CompetencesTechniques => TextValue("")
    case CompetencesAutres => TextValue("")
    case MetiersRecherches => ListValue([])
    case MetiersCustom => TextValue("")
    case SecteursRecherches => ListValue([])
    case MetiersExclus => TextValue("")
    case CommunesRecherchees => ListValue([])
    case DistanceMax => NumberValue(30)
    case TypesContrat => ListValue([])
    case HorairesAcceptes => ListValue([])
    case SalaireSouhaite => ListValue([])
    case TachesAEviter => ListValue([])
    case CvFile => FileValue(None)
    case CvUrl => TextValue("")
    case LettreMotivationFile => FileValue(None)
    case LettreMotivationUrl => TextValue("")
    case DiplomesFile => FileValue(None)
    case DiplomesUrl => TextValue("")
    case CertificatsFile => FileValue(None)
    case CertificatsUrl => TextValue("")
    case CompetencesExtraites => ListValue([])
    case ExperiencesExtraites => ListValue([])
    case ScoreCv => NumberValue(0)
    case FrequenceSuivi => TextValue("")
    case MomentsDisponibles => ListValue([])
    case MoyensContact => ListValue([])
    case AccesForem => TextValue("")
    case IdentifiantsForem => TextValue("")
    case SitesEmploi => ListValue([])
    case AccesSitesEmploi => TextValue("")
    case UtiliserComptesExistants => TextValue("")
    case ComptesAUtiliser => TextValue("")
    case SourceDecouverte => ListValue([])
    case Consentements => ConsentsValue(NoConsents)
  }

  const InitialTunnelData: TunnelData := InitialValue

  /** The initial record holds a value of the declared type in every field. */
  lemma InitialTunnelDataWellTyped()
    ensures WellTyped(InitialTunnelData)
  {
    forall f ensures InitialValue(f).KindOfValue() == KindOf(f) {
      match f
      case _ =>
    }
  }

  /**
   * Initially mode and plan are unset and every list, text, flag, yes/no and file field is
   * empty, false or unset.
   */
  lemma InitialTunnelDataEmpty()
    ensures InitialTunnelData(Mode) == ModeValue(None) && InitialTunnelData(Plan) == PlanValue(None)
    ensures forall f :: KindOf(f) == ListKind ==> InitialTunnelData(f) == ListValue([])
    ensures forall f :: KindOf(f) == TextKind ==> InitialTunnelData(f) == TextValue("")
    ensures forall f :: KindOf(f) == FlagKind ==> InitialTunnelData(f) == FlagValue(false)
    ensures forall f :: KindOf(f) == TriKind ==> InitialTunnelData(f) == TriValue(None)
    ensures forall f :: KindOf(f) == FileKind ==> InitialTunnelData(f) == FileValue(None)
  {
    forall f | KindOf(f) in {ListKind, TextKind, FlagKind, TriKind, FileKind}
      ensures InitialValue(f) == match KindOf(f)
        case ListKind => ListValue([])
        case TextKind => TextValue("")
        case FlagKind => FlagValue(false)
        case TriKind => TriValue(None)
        case _ => FileValue(None)
    {
      match f
      case _ =>
    }
  }

  /** Initially the formation and experience lists are empty, the distance is 30 km and the CV score 0. */
  lemma InitialTunnelDataValues()
    ensures InitialTunnelData(Formations) == FormationsValue([])
    ensures InitialTunnelData(Experiences) == ExperiencesValue([])
    ensures InitialTunnelData(DistanceMax) == NumberValue(30)
    ensures InitialTunnelData(ScoreCv) == NumberValue(0)
  {
  }

  /** Initially none of the eight consents is given. */
  lemma InitialConsents()
    ensures InitialTunnelData(Consentements) == ConsentsValue(NoConsents)
    ensures forall k :: !Consent(NoConsents, k)
  {
  }

  // The option lists the steps offer.

  const CategoriesPermisOptions: seq<string> := [
    "Aucun permis",
    "AM / A1 / A2 / A (moto)",
    "B (voiture)",
    "B+E (voiture + remorque lourde)",
    "C / C1 (camion)",
    "C+E / C1+E (camion + remorque)",
    "D / D1 (bus / minibus)",
    "D+E / D1+E (bus / minibus + remorque)",
    "G (tracteur agricole)"]

  const EnEmploi := "En emploi"

  const SituationsProfessionnelles: seq<string> := [
    EnEmploi,
    "Au chômage",
    "Etudiant",
    "En reconversion",
    "Au cpas"]

  const Disponibilites: seq<string> := [
    "Immédiate",
    "Dans une à deux semaines",
    "Dans environ un mois",
    "C'est en fonction du préavis"]

  const NiveauxEtude: seq<string> := [
    "Sans diplôme",
    "CEB (Certificat d'études de base)",
    "CE1D / CE2D (secondaire inférieur)",
    "CESS (secondaire supérieur)",
    "Bachelier (Haute école)",
    "Master (Université)",
    "Doctorat",
    "Formation professionnelle (IFAPME, etc.)"]

  const Secteurs: seq<string> := [
    "Administration et secrétariat",
    "Agriculture et environnement",
    "Art et culture",
    "Commerce et vente",
    "Communication et marketing",
    "Construction et bâtiment",
    "Enseignement et formation",
    "Finance et comptabilité",
    "Hôtellerie et restauration",
    "Industrie et production",
    "Informatique et IT",
    "Logistique et transport",
    "Santé et social",
    "Sciences et recherche",
    "Services à la personne",
    "Tourisme et loisirs"]

  const TypesContratOptions: seq<string> := [
    "1/4 temps (+/- 10h semaine)",
    "Mi-temps (+/- 20h semaine)",
    "3/4 temps (30h/semaine)",
    "Temps plein (38h/semaine)",
    "Contrat collaboration indépendant",
    "Durée déterminée (CDD)",
    "Durée indéterminée (CDI)",
    "Etudiant",
    "Flexi-Jobs",
    "Freelance / indépendant",
    "Intérimaire",
    "Intérimaire avec option sur durée indéterminée",
    "Journalier (occasionnel ou saisonnier)",
    "Nettement défini",
    "Remplacement",
    "Salarié statutaire"]

  const Horaires: seq<string> := [
    "Matin (5h-13h)",
    "Journée (9h-17h)",
    "Après-midi (13h-21h)",
    "Nuit (21h-5h)",
    "Horaire variable",
    "Weekend"]

  const Salaires: seq<string> := [
    "Moins de 2000 € Brut",
    "Entre 2 000 € et 2 500 € Brut",
    "Entre 2 500 € et 3 000 € Brut",
    "Entre 3 000 € et 3500 € Brut",
    "Plus de 3500 € Brut"]

  const TachesAEviterOptions: seq<string> := [
    "Porter des charges lourdes",
    "Rester longtemps debout",
    "Rester longtemps assis",
    "Travail en extérieur (froid/chaud)",
    "Travail de nuit",
    "Travail répétitif",
    "Travail isolé",
    "Missions longues distances",
    "Travail physiquement exigeant",
    "Tâches administratives lourdes",
    "Aucun en particulier"]

  const FrequencesSuivi: seq<string> := [
    "Quotidien (tous les jours)",
    "2-3 fois/semaine",
    "Une fois semaine",
    "Uniquement quand je le demande"]

  const MomentsDisponiblesOptions: seq<string> := [
    "Matin (8h-12h)",
    "Après-midi (12h-17h)",
    "Soir (17h-22h)",
    "Aucune préférence"]

  const MoyensContactOptions: seq<string> := [
    "Email",
    "Sms",
    "Appel téléphonique",
    "Whatsapp",
    "Messenger (Facebook)",
    "Teams",
    "Peu m'importe"]

  const SitesEmploiOptions: seq<string> := [
    "Forem",
    "Indeed",
    "LinkedIn",
    "StepStone",
    "Randstad",
    "Manpower",
    "Adecco",
    "Tempo-Team",
    "Start People",
    "Accent",
    "Unique",
    "Daoust"]

  const SourcesDecouverte: seq<string> := [
    "Facebook (publication)",
    "Facebook (groupe)",
    "Facebook (publicité)",
    "Instagram",
    "Google / Recherche internet",
    "Bouche-à-oreille",
    "Recommandation d'un ami / membre de la famille",
    "Recommandation d'un partenaire / organisme (CPAS, ASBL…)",
    "Flyer / Affiche / carte de visite"]

  const AccesForemOptions: seq<string> := [
    "oui",
    "non",
    "je n'ai pas de compte forem",
    "je ne me rappelle plus de mes identifiants"]

  const AccesSitesOptions: seq<string> := [
    "Oui, à tous",
    "Oui, à certains seulement",
    "Non, j'ai perdu certains accès",
    "Je ne sais pas / à vérifier"]

  const UtiliserComptesOptions: seq<string> := [
    "Oui",
    "Oui, mais seulement certains (préciser)",
    "Non, je préfère créer de nouveaux comptes"]

  /** The employment situations include "En emploi", the one that brings up the notice question. */
  lemma SituationsIncludeEmployed()
    ensures EnEmploi in SituationsProfessionnelles
  {
    assert SituationsProfessionnelles[0] == EnEmploi;
  }

  /** No option is offered twice in the step 3 and step 4 lists. */
  lemma ProfileOptionsDistinct()
    ensures Distinct(CategoriesPermisOptions)
    ensures Distinct(SituationsProfessionnelles)
    ensures Distinct(Disponibilites)
    ensures Distinct(NiveauxEtude)
  {
  }

  /** No sector is offered twice. */
  lemma SectorOptionsDistinct()
    ensures Distinct(Secteurs)
  {
  }

  /** No contract type is offered twice. */
  lemma ContractOptionsDistinct()
    ensures Distinct(TypesContratOptions)
  {
  }

  /** No option is offered twice in the other lists of step 5. */
  lemma ConditionsOptionsDistinct()
    ensures Distinct(Horaires)
    ensures Distinct(Salaires)
    ensures Distinct(TachesAEviterOptions)
  {
  }

  /** No option is offered twice in the lists of step 7. */
  lemma PreferenceOptionsDistinct()
    ensures Distinct(FrequencesSuivi)
    ensures Distinct(MomentsDisponiblesOptions)
    ensures Distinct(MoyensContactOptions)
    ensures Distinct(SitesEmploiOptions)
    ensures Distinct(SourcesDecouverte)
    ensures Distinct(AccesForemOptions)
    ensures Distinct(AccesSitesOptions)
    ensures Distinct(UtiliserComptesOptions)
  {
  }
}
