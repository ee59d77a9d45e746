/**
 * The offers list's favourites: a heart button per offer saves or unsaves it, and reads
 * "Sauvé" while the offer is saved.
 */
module OffersList {
  import opened Lists

  /** `toggleSaveOffer`: a saved id is dropped everywhere, an unsaved one appended. */
  function ToggleSaveOffer(saved: seq<string>, offerId: string): (r: seq<string>)
    ensures offerId in r <==> offerId !in saved
    ensures forall y :: y != offerId ==> (y in r <==> y in saved)
    ensures offerId !in saved ==> r == saved + [offerId]
  {
    if offerId in saved then Remove(saved, offerId) else saved + [offerId]
  }

  /** Saving an offer and unsaving it gives back the list; toggling keeps a list duplicate-free. */
  lemma ToggleSaveOfferSpec(saved: seq<string>, offerId: string)
    ensures offerId !in saved ==> ToggleSaveOffer(ToggleSaveOffer(saved, offerId), offerId) == saved
    ensures Distinct(saved) ==> Distinct(ToggleSaveOffer(saved, offerId))
  {
    if offerId !in saved {
      ToggleTwice(saved, offerId);
    }
    if Distinct(saved) {
      ToggleDistinct(saved, offerId);
    }
  }

  /** The button's text. */
  function SavedLabel(saved: seq<string>, offerId: string): (caption: string)
    ensures caption == "Sauvé" <==> offerId in saved
    ensures caption == "Sauver" <==> offerId !in saved
  {
    if offerId in saved then "Sauvé" else "Sauver"
  }

  /** A click on the button flips its text. */
  lemma ToggleFlipsLabel(saved: seq<string>, offerId: string)
    ensures SavedLabel(ToggleSaveOffer(saved, offerId), offerId) != SavedLabel(saved, offerId)
  {
  }
}
