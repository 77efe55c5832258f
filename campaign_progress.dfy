/**
 * The progress rollup of a campaign: progression is
 * round(100 * finished stages / stages), and the campaign status moves
 * forward 'planifiée' -> 'en_cours' -> 'terminée' as progression grows.
 * Stage and task status updates are stated here as functions on one
 * campaign; the store applies them in place.
 */
module Avancement {
  import opened Wrappers
  import opened Rounding
  import opened CampagneModele

  /** The number of stages whose status is 'terminée' (the `filter(...).length`). */
  function Terminees(etapes: seq<Etape>): (n: nat)
    ensures n <= |etapes|
  {
    if etapes == [] then 0
    else Terminees(etapes[..|etapes| - 1]) + (if etapes[|etapes| - 1].statut == Statut.Terminee then 1 else 0)
  }

  ghost predicate ToutesTerminees(etapes: seq<Etape>)
  {
    forall i :: 0 <= i < |etapes| ==> etapes[i].statut == Statut.Terminee
  }

  /** All stages are counted exactly when all are 'terminée'. */
  lemma {:induction false} TermineesAll(etapes: seq<Etape>)
    ensures Terminees(etapes) == |etapes| <==> ToutesTerminees(etapes)
  {
    if etapes != [] {
      var pre := etapes[..|etapes| - 1];
      TermineesAll(pre);
      if ToutesTerminees(etapes) {
        assert ToutesTerminees(pre) by {
          forall i | 0 <= i < |pre| ensures pre[i].statut == Statut.Terminee {
            assert pre[i] == etapes[i];
          }
        }
      }
      if Terminees(etapes) == |etapes| {
        forall i | 0 <= i < |etapes| ensures etapes[i].statut == Statut.Terminee {
          if i < |pre| { assert pre[i] == etapes[i]; }
        }
      }
    }
  }

  /** Nothing is counted exactly when no stage is 'terminée'. */
  lemma {:induction false} TermineesNone(etapes: seq<Etape>)
    ensures Terminees(etapes) == 0 <==> forall i :: 0 <= i < |etapes| ==> etapes[i].statut != Statut.Terminee
  {
    if etapes != [] {
      var pre := etapes[..|etapes| - 1];
      TermineesNone(pre);
      if Terminees(etapes) == 0 {
        forall i | 0 <= i < |etapes| ensures etapes[i].statut != Statut.Terminee {
          if i < |pre| { assert pre[i] == etapes[i]; }
        }
      }
      if forall i :: 0 <= i < |etapes| ==> etapes[i].statut != Statut.Terminee {
        forall i | 0 <= i < |pre| ensures pre[i].statut != Statut.Terminee {
          assert pre[i] == etapes[i];
        }
      }
    }
  }

  /** The count only looks at the stage statuses. */
  lemma {:induction false} TermineesSameStatuses(a: seq<Etape>, b: seq<Etape>)
    requires |a| == |b|
    requires forall i :: 0 <= i < |a| ==> a[i].statut == b[i].statut
    ensures Terminees(a) == Terminees(b)
  {
    if a != [] {
      TermineesSameStatuses(a[..|a| - 1], b[..|b| - 1]);
    }
  }

  /** Campaign progression in percent; 0 for a campaign without stages (the
      guard of `getCampagneDetails`). */
  function Progression(etapes: seq<Etape>): (p: int)
    ensures 0 <= p <= 100
  {
    if |etapes| == 0 then 0
    else
      PercentBounds(Terminees(etapes) as real, |etapes| as real);
      Round(Terminees(etapes) as real / |etapes| as real * 100.0)
  }

  /** With fewer than 200 stages, progression is 100 exactly when the
      campaign has stages and all of them are 'terminée'. */
  lemma ProgressionFullIffAllDone(etapes: seq<Etape>)
    requires |etapes| < 200
    ensures Progression(etapes) == 100 <==> |etapes| > 0 && ToutesTerminees(etapes)
  {
    TermineesAll(etapes);
    var n, d := |etapes| as real, Terminees(etapes) as real;
    if |etapes| > 0 {
      ScaledAtLeast(d, n, 99.5);
      ScaledAtLeast(d, n, 100.0);
      ScaledAtLeast(d, n, 100.5);
    }
  }

  /** Rounding declares a campaign of 200 or more stages complete while one
      stage is still pending. */
  lemma FullProgressWithPendingStage(etapes: seq<Etape>)
    requires |etapes| >= 200 && Terminees(etapes) == |etapes| - 1
    ensures Progression(etapes) == 100
    ensures !ToutesTerminees(etapes)
  {
    TermineesAll(etapes);
    var n, d := |etapes| as real, Terminees(etapes) as real;
    ScaledAtLeast(d, n, 99.5);
    ScaledAtLeast(d, n, 100.5);
  }

  /** With at most 200 stages, progression is positive exactly when some
      stage is 'terminée'. */
  lemma ProgressionPositiveIffStageDone(etapes: seq<Etape>)
    requires |etapes| <= 200
    ensures Progression(etapes) > 0 <==> Terminees(etapes) > 0
  {
    var n, d := |etapes| as real, Terminees(etapes) as real;
    if |etapes| > 0 {
      ScaledAtLeast(d, n, 0.5);
    }
  }

  /** Rounding keeps a campaign of more than 200 stages at 0 % while fewer
      than one stage in 200 is done, so it stays 'planifiée' with a stage
      already 'terminée'. */
  lemma StageDoneButNoProgress(etapes: seq<Etape>)
    requires Terminees(etapes) > 0 && 200 * Terminees(etapes) < |etapes|
    ensures Progression(etapes) == 0
    ensures Transition(Planifiee, Progression(etapes)) == Planifiee
  {
    var n, d := |etapes| as real, Terminees(etapes) as real;
    ScaledAtLeast(d, n, 0.5);
  }

  /** The status rule as the handlers write it: progression 100 makes any
      campaign not yet 'terminée' 'terminée'; otherwise positive progression
      starts a 'planifiée' one. */
  function TransitionTelleQuEcrite(s: StatutCampagne, p: int): (r: StatutCampagne)
    ensures p == 100 ==> r == StatutCampagne.Terminee
    ensures p != 100 && r != s ==> s == Planifiee && r == StatutCampagne.EnCours && p > 0
  {
    if p == 100 && s != StatutCampagne.Terminee then StatutCampagne.Terminee
    else if p > 0 && s == Planifiee then StatutCampagne.EnCours
    else s
  }

  /** As written, the rule moves a cancelled campaign to 'terminée'. */
  lemma CancelledCompletesAsWritten()
    ensures TransitionTelleQuEcrite(Annulee, 100) == StatutCampagne.Terminee
  {
  }

  /** The status rule with 'annulée' terminal. */
  function Transition(s: StatutCampagne, p: int): (r: StatutCampagne)
    ensures s == Annulee ==> r == Annulee
    ensures s == StatutCampagne.Terminee ==> r == StatutCampagne.Terminee
    ensures StatutActif(r) ==> StatutActif(s)
  {
    if s == Annulee then Annulee else TransitionTelleQuEcrite(s, p)
  }

  /** The forward state machine: for a campaign that is not cancelled and a
      progression in 0..100, the new status is 'terminée' exactly when
      progression is 100 or it already was, 'en_cours' exactly when it is
      not complete and the campaign was running or has just made progress,
      and 'planifiée' exactly when nothing is done and it had not started. */
  lemma TransitionForward(s: StatutCampagne, p: int)
    requires s != Annulee && 0 <= p <= 100
    ensures Transition(s, p) == StatutCampagne.Terminee <==> p == 100 || s == StatutCampagne.Terminee
    ensures Transition(s, p) == StatutCampagne.EnCours
        <==> p < 100 && (s == StatutCampagne.EnCours || (s == Planifiee && p > 0))
    ensures Transition(s, p) == Planifiee <==> p == 0 && s == Planifiee
  {
  }

  lemma TransitionIdempotent(s: StatutCampagne, p: int)
    ensures Transition(Transition(s, p), p) == Transition(s, p)
  {
  }

  /** `mettreAJourProgressionCampagne` on a loaded campaign: progression
      recomputed from all its stages, status advanced, and `date_fin` set
      to `maintenant` when the campaign becomes 'terminée'. */
  function Recalculer(c: Campagne, maintenant: int): (r: Campagne)
    ensures r.etapes == c.etapes
    ensures r.progression == Progression(r.etapes)
    ensures r.statut == Transition(c.statut, r.progression)
    ensures r.statut == StatutCampagne.Terminee && c.statut != StatutCampagne.Terminee
            ==> r.dateFin == Some(maintenant)
    ensures r.dateFin != c.dateFin ==> r.statut == StatutCampagne.Terminee && c.statut != StatutCampagne.Terminee
    ensures r == c.(progression := r.progression, statut := r.statut, dateFin := r.dateFin)
  {
    var p := Progression(c.etapes);
    var becomesDone := p == 100 && c.statut != StatutCampagne.Terminee && c.statut != Annulee;
    c.(progression := p,
       statut := Transition(c.statut, p),
       dateFin := if becomesDone then Some(maintenant) else c.dateFin)
  }

  /** The campaign `getCampagneDetails` answers with: for a campaign with
      stages, progression recomputed and the status advanced; the end date
      is left as it is. */
  function Details(c: Campagne): (r: Campagne)
    ensures r.etapes == c.etapes && r.dateFin == c.dateFin
    ensures |c.etapes| > 0 ==> r.progression == Progression(c.etapes) && r.statut == Transition(c.statut, r.progression)
    ensures |c.etapes| == 0 ==> r == c
    ensures r == c.(progression := r.progression, statut := r.statut)
  {
    if |c.etapes| > 0 then
      var p := Progression(c.etapes);
      c.(progression := p, statut := Transition(c.statut, p))
    else c
  }

  /** Once a campaign has been recomputed, reading its details changes
      nothing: the write-back of `getCampagneDetails` only repairs a
      campaign whose progression is stale. */
  lemma DetailsAfterUpdate(c: Campagne, maintenant: int)
    ensures Details(Recalculer(c, maintenant)) == Recalculer(c, maintenant)
  {
    var r := Recalculer(c, maintenant);
    if |c.etapes| > 0 {
      TransitionIdempotent(c.statut, r.progression);
    }
  }

  /** The bulk update of a stage's tasks: every 'à_faire' task becomes 'terminée'. */
  function TerminerAFaire(ts: seq<Tache>): (r: seq<Tache>)
    ensures |r| == |ts|
    ensures forall i :: 0 <= i < |r| ==> r[i].statut != AFaire
    ensures forall i :: 0 <= i < |r| && ts[i].statut != AFaire ==> r[i] == ts[i]
    ensures forall i :: 0 <= i < |r| ==> r[i] == ts[i].(statut := r[i].statut)
  {
    seq(|ts|, i requires 0 <= i < |ts| =>
      if ts[i].statut == AFaire then ts[i].(statut := Statut.Terminee) else ts[i])
  }

  /** The first two writes of `mettreAJourStatutEtape`: the stage's status,
      then, for 'terminée', its 'à_faire' tasks. */
  function AvecStatutEtape(c: Campagne, e: nat, statut: Statut): (r: Campagne)
    requires e < |c.etapes|
    ensures |r.etapes| == |c.etapes| && r.etapes[e].statut == statut
    ensures forall i :: 0 <= i < |c.etapes| && i != e ==> r.etapes[i] == c.etapes[i]
    ensures statut == Statut.Terminee ==>
      |r.etapes[e].taches| == |c.etapes[e].taches|
      && forall j :: 0 <= j < |r.etapes[e].taches| ==> r.etapes[e].taches[j].statut != AFaire
    ensures statut != Statut.Terminee ==> r.etapes[e].taches == c.etapes[e].taches
    ensures statut == Statut.Terminee ==> r.etapes[e].taches == TerminerAFaire(c.etapes[e].taches)
    ensures r.etapes[e] == c.etapes[e].(statut := statut, taches := r.etapes[e].taches)
    ensures r == c.(etapes := r.etapes)
  {
    var etape := c.etapes[e];
    var taches := if statut == Statut.Terminee then TerminerAFaire(etape.taches) else etape.taches;
    c.(etapes := c.etapes[e := etape.(statut := statut, taches := taches)])
  }

  /** `mettreAJourStatutEtape` on a loaded campaign. */
  function ApresStatutEtape(c: Campagne, e: nat, statut: Statut, maintenant: int): (r: Campagne)
    requires e < |c.etapes|
    ensures |r.etapes| == |c.etapes| && r.etapes[e].statut == statut
    ensures r.progression == Progression(r.etapes) && r.statut == Transition(c.statut, r.progression)
  {
    Recalculer(AvecStatutEtape(c, e, statut), maintenant)
  }

  /** A stage update sets that stage's status; for 'terminée' it marks only
      that stage's 'à_faire' tasks 'terminée'; every other stage and task is
      unchanged, and progression is recomputed. */
  lemma StageUpdateEffect(c: Campagne, e: nat, statut: Statut, maintenant: int)
    requires e < |c.etapes|
    ensures var r := ApresStatutEtape(c, e, statut, maintenant);
      && |r.etapes| == |c.etapes|
      && r.etapes[e].statut == statut
      && r.etapes[e] == c.etapes[e].(statut := statut, taches := r.etapes[e].taches)
      && |r.etapes[e].taches| == |c.etapes[e].taches|
      && (forall i :: 0 <= i < |c.etapes| && i != e ==> r.etapes[i] == c.etapes[i])
      && (forall j :: 0 <= j < |c.etapes[e].taches| ==>
            r.etapes[e].taches[j] ==
              if statut == Statut.Terminee && c.etapes[e].taches[j].statut == AFaire
              then c.etapes[e].taches[j].(statut := Statut.Terminee)
              else c.etapes[e].taches[j])
      && r.progression == Progression(r.etapes)
  {
  }

  /** Repeating a stage update changes nothing more: the same stages, tasks,
      progression, status and end date. */
  lemma StageUpdateIdempotent(c: Campagne, e: nat, statut: Statut, maintenant: int, plusTard: int)
    requires e < |c.etapes|
    ensures ApresStatutEtape(ApresStatutEtape(c, e, statut, maintenant), e, statut, plusTard)
         == ApresStatutEtape(c, e, statut, maintenant)
  {
    var r := ApresStatutEtape(c, e, statut, maintenant);
    var a := AvecStatutEtape(r, e, statut);
    assert a.etapes == r.etapes by {
      if statut == Statut.Terminee {
        var ts := r.etapes[e].taches;
        assert TerminerAFaire(ts) == ts;
      }
      assert r.etapes[e].(statut := statut, taches := a.etapes[e].taches) == r.etapes[e];
    }
    assert a == r;
    TransitionIdempotent(AvecStatutEtape(c, e, statut).statut, r.progression);
  }

  /** The first write of `mettreAJourStatutTache`: the status of the updated tâche. */
  function AvecStatutTache(c: Campagne, e: nat, t: nat, statut: Statut): (r: Campagne)
    requires e < |c.etapes| && t < |c.etapes[e].taches|
    ensures |r.etapes| == |c.etapes| && |r.etapes[e].taches| == |c.etapes[e].taches|
    ensures r.etapes[e].taches[t].statut == statut
    ensures r.etapes[e].taches[t] == c.etapes[e].taches[t].(statut := statut)
    ensures forall j :: 0 <= j < |c.etapes[e].taches| && j != t ==> r.etapes[e].taches[j] == c.etapes[e].taches[j]
    ensures r.etapes[e] == c.etapes[e].(taches := r.etapes[e].taches)
    ensures forall i :: 0 <= i < |c.etapes| && i != e ==> r.etapes[i] == c.etapes[i]
    ensures r == c.(etapes := r.etapes)
  {
    var etape := c.etapes[e];
    c.(etapes := c.etapes[e := etape.(taches := etape.taches[t := etape.taches[t].(statut := statut)])])
  }

  ghost predicate TachesTerminees(ts: seq<Tache>)
  {
    forall j :: 0 <= j < |ts| ==> ts[j].statut == Statut.Terminee
  }

  /** `mettreAJourStatutTache` on a loaded campaign, with the progress
      helper it evidently means to call: when every task of the stage is
      then 'terminée', the stage becomes 'terminée' and progression is
      recomputed. */
  function ApresStatutTache(c: Campagne, e: nat, t: nat, statut: Statut, maintenant: int): (r: Campagne)
    requires e < |c.etapes| && t < |c.etapes[e].taches|
    ensures |r.etapes| == |c.etapes| && |r.etapes[e].taches| == |c.etapes[e].taches|
    ensures r.etapes[e].taches[t].statut == statut
    ensures forall j :: 0 <= j < |c.etapes[e].taches| && j != t ==> r.etapes[e].taches[j] == c.etapes[e].taches[j]
    ensures TachesTerminees(r.etapes[e].taches) ==>
      && r.etapes[e] == c.etapes[e].(statut := Statut.Terminee, taches := r.etapes[e].taches)
      && r.progression == Progression(r.etapes)
      && r.statut == Transition(c.statut, r.progression)
      && (r.statut == StatutCampagne.Terminee && c.statut != StatutCampagne.Terminee ==> r.dateFin == Some(maintenant))
    ensures !TachesTerminees(r.etapes[e].taches) ==>
      r.etapes[e] == c.etapes[e].(taches := r.etapes[e].taches) && r.progression == c.progression && r.statut == c.statut
  {
    var c1 := AvecStatutTache(c, e, t, statut);
    var ts := c1.etapes[e].taches;
    if forall j :: 0 <= j < |ts| ==> ts[j].statut == Statut.Terminee then
      Recalculer(c1.(etapes := c1.etapes[e := c1.etapes[e].(statut := Statut.Terminee)]), maintenant)
    else c1
  }

  /** After a task update the stage is 'terminée' with progression
      recomputed if all its tasks are 'terminée'; otherwise the stage's
      status, the progression and the campaign status are untouched (a task
      moved back does not reopen its stage). */
  lemma TaskUpdateEffect(c: Campagne, e: nat, t: nat, statut: Statut, maintenant: int)
    requires e < |c.etapes| && t < |c.etapes[e].taches|
    ensures var r := ApresStatutTache(c, e, t, statut, maintenant);
      && |r.etapes| == |c.etapes|
      && r.etapes[e].taches[t].statut == statut
      && |r.etapes[e].taches| == |c.etapes[e].taches|
      && (forall j :: 0 <= j < |c.etapes[e].taches| && j != t ==> r.etapes[e].taches[j] == c.etapes[e].taches[j])
      && (forall i :: 0 <= i < |c.etapes| && i != e ==> r.etapes[i] == c.etapes[i])
      && (TachesTerminees(r.etapes[e].taches) ==>
            && r.etapes[e] == c.etapes[e].(statut := Statut.Terminee, taches := r.etapes[e].taches)
            && r.progression == Progression(r.etapes)
            && r.statut == Transition(c.statut, r.progression)
            && (r.statut == StatutCampagne.Terminee && c.statut != StatutCampagne.Terminee
                ==> r.dateFin == Some(maintenant)))
      && (!TachesTerminees(r.etapes[e].taches) ==>
            r.etapes[e] == c.etapes[e].(taches := r.etapes[e].taches)
            && r.progression == c.progression && r.statut == c.statut && r.dateFin == c.dateFin)
  {
  }

  /** A campaign whose progression matches its stages still does after a
      task update. */
  lemma TaskUpdateKeepsProgression(c: Campagne, e: nat, t: nat, statut: Statut, maintenant: int)
    requires e < |c.etapes| && t < |c.etapes[e].taches|
    requires c.progression == Progression(c.etapes)
    ensures var r := ApresStatutTache(c, e, t, statut, maintenant);
      r.progression == Progression(r.etapes)
  {
    var c1 := AvecStatutTache(c, e, t, statut);
    TermineesSameStatuses(c.etapes, c1.etapes);
  }

  /** The outcome the tâche status handler reports. */
  datatype Reponse = Ok | ErreurServeur

  /** `mettreAJourStatutTache` as written: `this.mettreAJourProgressionCampagne`
      is undefined on the exports object, so once the stage has been set to
      'terminée' the call throws, progression is never recomputed, and the
      handler answers with a server error. */
  function ApresStatutTacheTelQuEcrit(c: Campagne, e: nat, t: nat, statut: Statut): (r: (Campagne, Reponse))
    requires e < |c.etapes| && t < |c.etapes[e].taches|
    ensures |r.0.etapes| == |c.etapes| && |r.0.etapes[e].taches| == |c.etapes[e].taches|
    ensures r.0.etapes[e].taches[t].statut == statut
    ensures r.1 == ErreurServeur <==> TachesTerminees(r.0.etapes[e].taches)
    ensures r.1 == ErreurServeur ==> r.0.etapes[e].statut == Statut.Terminee
    ensures r.0.progression == c.progression && r.0.statut == c.statut && r.0.dateFin == c.dateFin
  {
    var c1 := AvecStatutTache(c, e, t, statut);
    var ts := c1.etapes[e].taches;
    if forall j :: 0 <= j < |ts| ==> ts[j].statut == Statut.Terminee then
      (c1.(etapes := c1.etapes[e := c1.etapes[e].(statut := Statut.Terminee)]), ErreurServeur)
    else (c1, Ok)
  }

  /** A one-stage, one-task campaign: finishing its task as written leaves
      the stage 'terminée' but progression at 0 and the status 'planifiée',
      where the recomputation gives 100 and 'terminée'. */
  lemma StaleProgressionAsWritten(maintenant: int)
    ensures var tache := Tache("semis", "haute", 2.0, [], AFaire);
      var c := Campagne(1, 1, 1, 0, Some(10), Planifiee, 0, "", None,
                        [Etape(1, None, 0, 10, AFaire, [tache])]);
      var (w, reponse) := ApresStatutTacheTelQuEcrit(c, 0, 0, Statut.Terminee);
      var r := ApresStatutTache(c, 0, 0, Statut.Terminee, maintenant);
      && c.progression == Progression(c.etapes)
      && reponse == ErreurServeur
      && w.etapes[0].statut == Statut.Terminee
      && w.progression == 0 && Progression(w.etapes) == 100
      && w.statut == Planifiee
      && r.progression == 100 && r.statut == StatutCampagne.Terminee
  {
    var tache := Tache("semis", "haute", 2.0, [], AFaire);
    var c := Campagne(1, 1, 1, 0, Some(10), Planifiee, 0, "", None,
                      [Etape(1, None, 0, 10, AFaire, [tache])]);
    var w := ApresStatutTacheTelQuEcrit(c, 0, 0, Statut.Terminee).0;
    assert w.etapes[..0] == [];
    assert Terminees(w.etapes) == 1;
    assert c.etapes[..0] == [];
    assert Terminees(c.etapes) == 0;
  }
}
