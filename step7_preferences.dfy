/**
 * Step 7 of the tunnel: follow-up preferences, job-site access and the eight consents. The
 * multi-selects use `Tunnel.ToggleItem`; a consent box updates one key of the consent record;
 * two free-text fields appear only for particular answers.
 */
module Step7Preferences {
  import opened Text
  import opened Tunnel

  /** `{ ...consentements, [key]: value }`. */
  function WithConsent(c: Consents, k: ConsentKey, v: bool): (r: Consents)
    ensures Consent(r, k) == v
    ensures forall j :: j != k ==> Consent(r, j) == Consent(c, j)
  {
    match k
    case InfoExactes => c.(infoExactes := v)
    case AutorisationCandidatures => c.(autorisationCandidatures := v)
    case AutorisationIdentifiants => c.(autorisationIdentifiants := v)
    case PasGarantie => c.(pasGarantie := v)
    case ServiceAdministratif => c.(serviceAdministratif := v)
    case AutorisationContact => c.(autorisationContact := v)
    case Engagement => c.(engagement := v)
    case Rgpd => c.(rgpd := v)
  }

  /** `updateConsentement(key, value)`: the update of the consent record, one key changed. */
  function UpdateConsentement(d: TunnelData, k: ConsentKey, v: bool): (u: Patch)
    ensures u.Keys == {Consentements} && u[Consentements].ConsentsValue?
    ensures Consent(u[Consentements].consents, k) == v
    ensures forall j :: j != k ==> Consent(u[Consentements].consents, j) == Consent(d(Consentements).AsConsents(), j)
  {
    map[Consentements := ConsentsValue(WithConsent(d(Consentements).AsConsents(), k, v))]
  }

  /** `Object.values(consentements).every(Boolean)`, the values taken in declaration order. */
  predicate AllConsentsChecked(c: Consents) {
    forall i :: 0 <= i < |AllConsentKeys| ==> Consent(c, AllConsentKeys[i])
  }

  /** All consents are checked exactly when each of the eight keys is; the initial record has none. */
  lemma AllConsentsCheckedSpec(c: Consents)
    ensures AllConsentsChecked(c) <==> forall k :: Consent(c, k)
    ensures !AllConsentsChecked(NoConsents)
  {
    if AllConsentsChecked(c) {
      forall k ensures Consent(c, k) {
        ConsentKeysComplete();
        assert k in AllConsentKeys;
        var i :| 0 <= i < |AllConsentKeys| && AllConsentKeys[i] == k;
      }
    }
    assert !Consent(NoConsents, AllConsentKeys[0]);
  }

  /** Ticking one box completes the consents exactly when it was the only one missing. */
  lemma LastConsent(c: Consents, k: ConsentKey)
    ensures AllConsentsChecked(WithConsent(c, k, true)) <==> forall j :: j != k ==> Consent(c, j)
  {
    AllConsentsCheckedSpec(WithConsent(c, k, true));
  }

  /** Unticking any box makes the consents incomplete. */
  lemma UncheckedConsent(c: Consents, k: ConsentKey)
    ensures !AllConsentsChecked(WithConsent(c, k, false))
  {
    AllConsentsCheckedSpec(WithConsent(c, k, false));
  }

  /** The warning under the consents shows while any of them is missing. */
  predicate ConsentWarningShown(d: TunnelData) {
    !AllConsentsChecked(d(Consentements).AsConsents())
  }

  /** The Forem credentials are asked for only when the candidate has access to Forem. */
  predicate ForemCredentialsShown(d: TunnelData) {
    d(AccesForem).AsText() == "oui"
  }

  /** `utiliserComptesExistants?.includes('certains')`: which accounts is asked only for "certains". */
  predicate AccountsFieldShown(d: TunnelData) {
    Contains(d(UtiliserComptesExistants).AsText(), "certains")
  }

  /** Of the four Forem answers offered, only the first brings up the credentials field. */
  lemma ForemOptionsShowing(d: TunnelData, i: int)
    requires 0 <= i < |AccesForemOptions|
    requires d(AccesForem) == TextValue(AccesForemOptions[i])
    ensures ForemCredentialsShown(d) <==> i == 0
  {
  }

  /** Of the three account answers offered, only "yes, but only some" brings up the field. */
  lemma AccountOptionsShowing(d: TunnelData, i: int)
    requires 0 <= i < |UtiliserComptesOptions|
    requires d(UtiliserComptesExistants) == TextValue(UtiliserComptesOptions[i])
    ensures AccountsFieldShown(d) <==> i == 1
  {
    if i == 0 {
      NotContained(UtiliserComptesOptions[0], "certains");
    } else if i == 1 {
      SomeAccountsShown();
    } else {
      NotContained(UtiliserComptesOptions[2], "certains");
    }
  }

  /** The second answer, "yes, but only some", names "certains" at its twenty-first character. */
  lemma SomeAccountsShown()
    ensures Contains(UtiliserComptesOptions[1], "certains")
  {
    assert OccursAt(UtiliserComptesOptions[1], "certains", 20);
    ContainsIffOccurs(UtiliserComptesOptions[1], "certains");
  }
}
