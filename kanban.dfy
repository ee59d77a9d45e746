/**
 * The applications board: one column per status but the abandoned one, each listing the
 * applications of its status in list order. Dropping a card on a column moves the application
 * to that status.
 */
module Kanban {
  import opened Wrappers
  import opened Lists
  import opened Offers

  /** `COLUMNS`: the statuses shown, in order. */
  const Columns: seq<Statut> := [Proposee, Approuvee, Envoyee, Entretien, Refusee]

  /** The application as moved to `dest` when it is the dragged one. */
  function Moved(c: Candidature, draggableId: string, dest: Statut): Candidature {
    if c.id == draggableId then c.(statut := dest) else c
  }

  /**
   * `handleDragEnd`: a drop outside any column changes nothing; otherwise every application
   * with the dragged id takes the column's status, and nothing else changes.
   */
  function HandleDragEnd(cs: seq<Candidature>, draggableId: string, destination: Option<Statut>)
    : (r: seq<Candidature>)
    ensures destination.None? ==> r == cs
    ensures |r| == |cs|
    ensures forall i :: 0 <= i < |cs| ==>
      && r[i] == cs[i].(statut := r[i].statut)
      && (cs[i].id == draggableId && destination.Some? ==> r[i].statut == destination.value)
      && (cs[i].id != draggableId ==> r[i] == cs[i])
  {
    if destination.None? then cs
    else Map(cs, (c: Candidature) => Moved(c, draggableId, destination.value))
  }

  /** Dropping the same card twice on the same column is the same as dropping it once. */
  lemma DragEndIdempotent(cs: seq<Candidature>, draggableId: string, destination: Option<Statut>)
    ensures var once := HandleDragEnd(cs, draggableId, destination);
      HandleDragEnd(once, draggableId, destination) == once
  {
    var once := HandleDragEnd(cs, draggableId, destination);
    var twice := HandleDragEnd(once, draggableId, destination);
    assert |twice| == |once|;
    forall i | 0 <= i < |once| ensures twice[i] == once[i] {
    }
  }

  /** Moving a card to another column and back restores the board when its status was `from`. */
  lemma DragEndBack(cs: seq<Candidature>, draggableId: string, from: Statut, to: Statut)
    requires forall i :: 0 <= i < |cs| && cs[i].id == draggableId ==> cs[i].statut == from
    ensures HandleDragEnd(HandleDragEnd(cs, draggableId, Some(to)), draggableId, Some(from)) == cs
  {
    var there := HandleDragEnd(cs, draggableId, Some(to));
    var back := HandleDragEnd(there, draggableId, Some(from));
    assert |back| == |cs|;
    forall i | 0 <= i < |cs| ensures back[i] == cs[i] {
    }
  }

  /** `getCandidaturesByStatut`: the applications of a status, in list order. */
  function ByStatut(cs: seq<Candidature>, s: Statut): (r: seq<Candidature>)
    ensures forall k :: 0 <= k < |r| ==> r[k].statut == s
  {
    Filter(cs, (c: Candidature) => c.statut == s)
  }

  /** A column holds exactly the applications of its status. */
  lemma ByStatutMembers(cs: seq<Candidature>, s: Statut, c: Candidature)
    ensures c in ByStatut(cs, s) <==> c in cs && c.statut == s
  {
    var p := (c: Candidature) => c.statut == s;
    if c in ByStatut(cs, s) {
      FilterSubset(cs, p, c);
    }
    if c in cs && c.statut == s {
      FilterKeeps(cs, p, c);
    }
  }

  /** Five columns, and an abandoned application shows in none of them. */
  lemma AbandonedHidden(cs: seq<Candidature>, c: Candidature, k: int)
    requires c.statut == Abandonnee && 0 <= k < |Columns|
    ensures |Columns| == 5 && Abandonnee !in Columns
    ensures c !in ByStatut(cs, Columns[k])
  {
    ByStatutMembers(cs, Columns[k], c);
  }

  /** After a drop, the dragged applications show in the destination column. */
  lemma DroppedShows(cs: seq<Candidature>, draggableId: string, dest: Statut, i: int)
    requires 0 <= i < |cs| && cs[i].id == draggableId
    ensures cs[i].(statut := dest) in ByStatut(HandleDragEnd(cs, draggableId, Some(dest)), dest)
  {
    var r := HandleDragEnd(cs, draggableId, Some(dest));
    assert r[i] == cs[i].(statut := dest);
    ByStatutMembers(r, dest, r[i]);
  }

  /**
   * The match-score badge: none without a score or with a score of 0; green from 80, gold from
   * 60, orange below.
   */
  function ScoreBadge(score: Option<int>): (badge: Option<string>)
    ensures badge.None? <==> score.None? || score.value == 0
    ensures badge == Some("bg-green-100 text-green-700") <==> score.Some? && score.value >= 80
    ensures badge == Some("bg-gold/20 text-gold-dark") <==> score.Some? && 60 <= score.value < 80
    ensures badge == Some("bg-orange-100 text-orange-700") <==>
      score.Some? && score.value < 60 && score.value != 0
  {
    match score
    case None => None
    case Some(s) =>
      if s == 0 then None
      else if s >= 80 then Some("bg-green-100 text-green-700")
      else if s >= 60 then Some("bg-gold/20 text-gold-dark")
      else Some("bg-orange-100 text-orange-700")
  }
}
