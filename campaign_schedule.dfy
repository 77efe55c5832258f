/**
 * Campaign generation: the stage templates of a crop, taken in ascending
 * `ordre`, become dated stages by a cursor walk.  Stage k starts at the
 * cursor and ends `duree_jours` days later; the next stage starts one
 * transition day after that.  The campaign's nominal end is the start plus
 * the sum of the durations, without the transition days.
 */
module Planification {
  import opened Wrappers
  import opened Catalogue
  import opened CampagneModele
  import StableSort

  /** The key under which the template query's `ORDER BY ordre ASC` is a
      key-descending stable sort. */
  function OrdreInverse(m: EtapeCulture): int { -m.ordre }

  /** The stage templates of a crop in ascending `ordre`. */
  function EtapesOrdonnees(c: Culture): (r: seq<EtapeCulture>)
    ensures |r| == |c.etapes| && multiset(r) == multiset(c.etapes)
    ensures forall i, j :: 0 <= i < j < |r| ==> r[i].ordre <= r[j].ordre
  {
    StableSort.SortDescOrdered(c.etapes, OrdreInverse);
    StableSort.SortDescPermutes(c.etapes, OrdreInverse);
    var r := StableSort.SortDesc(c.etapes, OrdreInverse);
    assert forall i, j :: 0 <= i < j < |r| ==> OrdreInverse(r[i]) >= OrdreInverse(r[j]);
    assert |r| == |multiset(r)| == |multiset(c.etapes)| == |c.etapes|;
    r
  }

  /** A task created from a task template: its fields copied, status 'à_faire'. */
  function TacheDe(m: TacheModele): Tache
  {
    Tache(m.description, m.priorite, m.dureeEstimee, m.materielRequis, AFaire)
  }

  function TachesDe(ms: seq<TacheModele>): seq<Tache>
  {
    seq(|ms|, i requires 0 <= i < |ms| => TacheDe(ms[i]))
  }

  /** The stage created from template `m` at cursor `debut`; `complet` tells
      `creerCampagne` (template fields and tasks copied) from
      `demarrerCampagne` (template only linked). */
  function EtapeDe(m: EtapeCulture, debut: int, complet: bool): Etape
  {
    Etape(m.id,
          if complet then Some(CopieModele(m.nom, m.description, m.dureeJours, m.ordre)) else None,
          debut, debut + m.dureeJours, AFaire,
          if complet then TachesDe(m.taches) else [])
  }

  /** The `reduce` over `duree_jours`. */
  function SommeDurees(ms: seq<EtapeCulture>): (s: int)
    ensures (forall i :: 0 <= i < |ms| ==> ms[i].dureeJours >= 0) ==> s >= 0
  {
    if ms == [] then 0 else SommeDurees(ms[..|ms| - 1]) + ms[|ms| - 1].dureeJours
  }

  /** The stages the cursor walk produces, defined template by template. */
  function Planning(ms: seq<EtapeCulture>, debut: int, complet: bool): (r: seq<Etape>)
    ensures |r| == |ms|
  {
    if ms == [] then []
    else
      var pre := ms[..|ms| - 1];
      Planning(pre, debut, complet) + [EtapeDe(ms[|ms| - 1], debut + SommeDurees(pre) + |pre|, complet)]
  }

  /** The stage-generation loop of `creerCampagne` (with its nested
      task-creation loop) and of `demarrerCampagne`. */
  method GenererEtapes(ms: seq<EtapeCulture>, debut: int, complet: bool) returns (etapes: seq<Etape>)
    ensures etapes == Planning(ms, debut, complet)
  {
    etapes := [];
    var dateEtape := debut;
    for i := 0 to |ms|
      invariant etapes == Planning(ms[..i], debut, complet)
      invariant dateEtape == debut + SommeDurees(ms[..i]) + i
    {
      var m := ms[i];
      var dateFinEtape := dateEtape + m.dureeJours;
      var taches: seq<Tache> := [];
      if complet {
        taches := CopierTaches(m.taches);
      }
      var copie := if complet then Some(CopieModele(m.nom, m.description, m.dureeJours, m.ordre)) else None;
      PlanningStep(ms, i, debut, complet);
      assert Etape(m.id, copie, dateEtape, dateFinEtape, AFaire, taches) == EtapeDe(m, dateEtape, complet);
      etapes := etapes + [Etape(m.id, copie, dateEtape, dateFinEtape, AFaire, taches)];
      dateEtape := dateFinEtape + 1;
    }
    assert ms[..|ms|] == ms;
  }

  /** The tâche-creation loop of `creerCampagne`: one 'à_faire' copy of each
      task template, in order. */
  method CopierTaches(ms: seq<TacheModele>) returns (taches: seq<Tache>)
    ensures taches == TachesDe(ms)
  {
    taches := [];
    for j := 0 to |ms|
      invariant |taches| == j
      invariant forall l :: 0 <= l < j ==> taches[l] == TacheDe(ms[l])
    {
      taches := taches + [TacheDe(ms[j])];
    }
  }

  /** One more template extends the walk by its stage, which starts after
      the earlier durations and one transition day per earlier stage. */
  lemma PlanningStep(ms: seq<EtapeCulture>, i: nat, debut: int, complet: bool)
    requires i < |ms|
    ensures Planning(ms[..i + 1], debut, complet)
         == Planning(ms[..i], debut, complet) + [EtapeDe(ms[i], debut + SommeDurees(ms[..i]) + i, complet)]
    ensures SommeDurees(ms[..i + 1]) == SommeDurees(ms[..i]) + ms[i].dureeJours
  {
    assert ms[..i + 1][..i] == ms[..i];
  }

  /** Stage k of the walk: it starts after the k earlier durations and k
      transition days, lasts its template's duration, is linked to its
      template, is 'à_faire', and carries one 'à_faire' copy of each task
      template (`creerCampagne`) or no task (`demarrerCampagne`). */
  lemma {:induction false} PlanningStage(ms: seq<EtapeCulture>, debut: int, complet: bool, k: nat)
    requires k < |ms|
    ensures |Planning(ms, debut, complet)| == |ms|
    ensures Planning(ms, debut, complet)[k].dateDebut == debut + SommeDurees(ms[..k]) + k
    ensures Planning(ms, debut, complet)[k].dateFin
         == Planning(ms, debut, complet)[k].dateDebut + ms[k].dureeJours
    ensures Planning(ms, debut, complet)[k].etapeCultureId == ms[k].id
    ensures Planning(ms, debut, complet)[k].statut == AFaire
    ensures complet ==> Planning(ms, debut, complet)[k].copie
                        == Some(CopieModele(ms[k].nom, ms[k].description, ms[k].dureeJours, ms[k].ordre))
    ensures complet ==> Planning(ms, debut, complet)[k].taches == TachesDe(ms[k].taches)
    ensures !complet ==> Planning(ms, debut, complet)[k].copie == None
                         && Planning(ms, debut, complet)[k].taches == []
  {
    var pre := ms[..|ms| - 1];
    if k < |pre| {
      PlanningStage(pre, debut, complet, k);
      assert pre[..k] == ms[..k];
    } else {
      if pre != [] { PlanningStage(pre, debut, complet, 0); }
      assert pre == ms[..k];
    }
  }

  /** Consecutive stages are separated by exactly one transition day. */
  lemma PlanningGap(ms: seq<EtapeCulture>, debut: int, complet: bool, k: nat)
    requires k + 1 < |ms|
    ensures Planning(ms, debut, complet)[k + 1].dateDebut
         == Planning(ms, debut, complet)[k].dateFin + 1
  {
    PlanningStage(ms, debut, complet, k);
    PlanningStage(ms, debut, complet, k + 1);
    assert ms[..k + 1][..k] == ms[..k];
  }

  /** Every task of every generated stage is 'à_faire': one per task
      template of `creerCampagne`'s stages. */
  lemma PlanningTasks(ms: seq<EtapeCulture>, debut: int, k: nat, j: nat)
    requires k < |ms| && j < |ms[k].taches|
    ensures |Planning(ms, debut, true)[k].taches| == |ms[k].taches|
    ensures Planning(ms, debut, true)[k].taches[j].statut == AFaire
    ensures Planning(ms, debut, true)[k].taches[j].description == ms[k].taches[j].description
    ensures Planning(ms, debut, true)[k].taches[j].priorite == ms[k].taches[j].priorite
    ensures Planning(ms, debut, true)[k].taches[j].dureeEstimee == ms[k].taches[j].dureeEstimee
    ensures Planning(ms, debut, true)[k].taches[j].materielRequis == ms[k].taches[j].materielRequis
  {
    PlanningStage(ms, debut, true, k);
  }

  /** The nominal end `debut + Σ duree_jours` ignores the transition days:
      the last stage ends `n - 1` days after it. */
  lemma LastStageEnd(ms: seq<EtapeCulture>, debut: int, complet: bool)
    requires |ms| >= 1
    ensures Planning(ms, debut, complet)[|ms| - 1].dateFin == debut + SommeDurees(ms) + |ms| - 1
  {
    PlanningStage(ms, debut, complet, |ms| - 1);
    assert ms[..|ms| - 1] + [ms[|ms| - 1]] == ms;
  }

  /** Stages follow the templates in ascending `ordre`. */
  lemma StagesFollowOrdre(c: Culture, debut: int, k: nat, l: nat)
    requires k < l < |EtapesOrdonnees(c)|
    ensures var p := Planning(EtapesOrdonnees(c), debut, true);
      p[k].copie.Some? && p[l].copie.Some? && p[k].copie.value.ordre <= p[l].copie.value.ordre
  {
    var ms := EtapesOrdonnees(c);
    StableSort.SortDescOrdered(c.etapes, OrdreInverse);
    PlanningStage(ms, debut, true, k);
    PlanningStage(ms, debut, true, l);
    assert OrdreInverse(ms[k]) >= OrdreInverse(ms[l]);
  }

  /** The worked example: durations 10, 5 and 20 from day 0 give stages
      [0, 10], [11, 16] and [17, 37], and the nominal end is day 35. */
  lemma ScheduleExample(a: EtapeCulture, b: EtapeCulture, c: EtapeCulture)
    requires a.dureeJours == 10 && b.dureeJours == 5 && c.dureeJours == 20
    ensures var p := Planning([a, b, c], 0, true);
      && |p| == 3
      && p[0].dateDebut == 0 && p[0].dateFin == 10
      && p[1].dateDebut == 11 && p[1].dateFin == 16
      && p[2].dateDebut == 17 && p[2].dateFin == 37
      && SommeDurees([a, b, c]) == 35
  {
    var ms := [a, b, c];
    assert ms[..2] == [a, b] && ms[..1] == [a] && ms[..0] == [];
    assert [a, b][..1] == [a] && [a][..0] == [];
    PlanningStage(ms, 0, true, 0);
    PlanningStage(ms, 0, true, 1);
    PlanningStage(ms, 0, true, 2);
  }
}
