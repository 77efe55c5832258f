/**
 * The campaign handlers over a store of campaigns: opening a campaign on
 * a parcel (`creerCampagne`, `demarrerCampagne`), reading its details,
 * and updating a stage or a task status with the progress rollup.  A
 * campaign's id is its position in the store.
 */
module Campagnes {
  import opened Wrappers
  import opened Catalogue
  import opened CampagneModele
  import opened Avancement
  import opened Planification
  import Rounding

  /** A soil analysis as the handlers see it: its parcel and the owner of
      the field the parcel belongs to. */
  datatype AnalyseRef = AnalyseRef(parcelleId: nat, utilisateurId: nat)

  /** `creerCampagne` copies the template names, durations and tasks and
      keeps the notes and the analysis; `demarrerCampagne` does neither. */
  datatype Forme = Complete(notes: string) | Minimale

  /** The lowest-numbered 'planifiée' or 'en_cours' campaign on the parcel. */
  function CampagneActive(cs: seq<Campagne>, parcelleId: nat): (r: Option<nat>)
    ensures r.None? <==> forall i :: 0 <= i < |cs| ==> !(cs[i].parcelleId == parcelleId && Active(cs[i]))
    ensures r.Some? ==> r.value < |cs| && cs[r.value].parcelleId == parcelleId && Active(cs[r.value])
  {
    if cs == [] then None
    else
      var pre := cs[..|cs| - 1];
      var r := CampagneActive(pre, parcelleId);
      if r.Some? then r
      else if cs[|cs| - 1].parcelleId == parcelleId && Active(cs[|cs| - 1]) then Some(|cs| - 1)
      else (assert forall i :: 0 <= i < |pre| ==> pre[i] == cs[i]; None)
  }

  /** No parcel has two campaigns 'planifiée' or 'en_cours'. */
  ghost predicate UneActiveParParcelle(cs: seq<Campagne>)
  {
    forall i, j :: 0 <= i < j < |cs| && cs[i].parcelleId == cs[j].parcelleId ==> !(Active(cs[i]) && Active(cs[j]))
  }

  /** Every stored progression is the one its stages give. */
  ghost predicate ProgressionsAJour(cs: seq<Campagne>)
  {
    forall i :: 0 <= i < |cs| ==> cs[i].progression == Progression(cs[i].etapes)
  }

  /** The guards and the new campaign of `creerCampagne` and
      `demarrerCampagne`, in the handlers' order. */
  function Ouverture(analyses: map<nat, AnalyseRef>, cultures: map<nat, Culture>, cs: seq<Campagne>,
                     utilisateurId: nat, analyseId: nat, cultureId: nat, dateDebut: int, forme: Forme)
    : (r: Result<Campagne, Erreur>)
    ensures r.Success? ==>
      && analyseId in analyses && analyses[analyseId].utilisateurId == utilisateurId
      && cultureId in cultures && cultures[cultureId].estActive
      && r.value.parcelleId == analyses[analyseId].parcelleId
      && CampagneActive(cs, r.value.parcelleId).None?
      && r.value.utilisateurId == utilisateurId && r.value.cultureId == cultureId
      && r.value.statut == Planifiee && r.value.progression == 0
  {
    if !(analyseId in analyses && analyses[analyseId].utilisateurId == utilisateurId) then
      Failure(AnalyseIntrouvable)
    else if !(cultureId in cultures && cultures[cultureId].estActive) then
      Failure(CultureIntrouvable)
    else
      var parcelleId := analyses[analyseId].parcelleId;
      var existante := CampagneActive(cs, parcelleId);
      if existante.Some? then Failure(CampagneEnCours(existante.value))
      else
        var ms := EtapesOrdonnees(cultures[cultureId]);
        Success(Campagne(cultureId, parcelleId, utilisateurId, dateDebut,
                         Some(dateDebut + SommeDurees(ms)), Planifiee, 0,
                         if forme.Complete? then forme.notes else "",
                         if forme.Complete? then Some(analyseId) else None,
                         Planning(ms, dateDebut, forme.Complete?)))
  }

  /** The three refusals: an analysis the user cannot see, a crop that is
      missing or inactive, and a parcel that already has a campaign under
      way, which the answer names. */
  lemma OuvertureRefuse(analyses: map<nat, AnalyseRef>, cultures: map<nat, Culture>, cs: seq<Campagne>,
                        utilisateurId: nat, analyseId: nat, cultureId: nat, dateDebut: int, forme: Forme)
    ensures var r := Ouverture(analyses, cultures, cs, utilisateurId, analyseId, cultureId, dateDebut, forme);
      && ((r == Failure(AnalyseIntrouvable))
            <==> !(analyseId in analyses && analyses[analyseId].utilisateurId == utilisateurId))
      && ((r == Failure(CultureIntrouvable))
            <==> analyseId in analyses && analyses[analyseId].utilisateurId == utilisateurId
                 && !(cultureId in cultures && cultures[cultureId].estActive))
      && (r.Failure? && r.error.CampagneEnCours? ==>
            var i := r.error.id;
            i < |cs| && cs[i].parcelleId == analyses[analyseId].parcelleId && Active(cs[i]))
      && (r.Success? <==>
            && analyseId in analyses && analyses[analyseId].utilisateurId == utilisateurId
            && cultureId in cultures && cultures[cultureId].estActive
            && forall i :: 0 <= i < |cs| ==> !(cs[i].parcelleId == analyses[analyseId].parcelleId && Active(cs[i])))
  {
  }

  /** A freshly generated schedule has every stage 'à_faire', so its
      progression is 0. */
  lemma PlanningNotStarted(ms: seq<EtapeCulture>, debut: int, complet: bool)
    ensures var p := Planning(ms, debut, complet);
      (forall k :: 0 <= k < |p| ==> p[k].statut == AFaire) && Progression(p) == 0
  {
    var p := Planning(ms, debut, complet);
    forall k | 0 <= k < |p| ensures p[k].statut == AFaire {
      PlanningStage(ms, debut, complet, k);
    }
    TermineesNone(p);
    assert Terminees(p) == 0;
    assert |p| > 0 ==> Progression(p) == Rounding.Round(0.0);
  }

  /** A new campaign is 'planifiée' at 0 %, which is what its stages give;
      it has one 'à_faire' stage per template stage, ends `dateDebut` plus
      the summed durations, and its last stage ends one day later per gap
      between stages. */
  lemma OuvertureCree(analyses: map<nat, AnalyseRef>, cultures: map<nat, Culture>, cs: seq<Campagne>,
                      utilisateurId: nat, analyseId: nat, cultureId: nat, dateDebut: int, forme: Forme)
    requires Ouverture(analyses, cultures, cs, utilisateurId, analyseId, cultureId, dateDebut, forme).Success?
    ensures var c := Ouverture(analyses, cultures, cs, utilisateurId, analyseId, cultureId, dateDebut, forme).value;
      var n := |cultures[cultureId].etapes|;
      && c.statut == Planifiee
      && c.progression == 0 == Progression(c.etapes)
      && c.parcelleId == analyses[analyseId].parcelleId
      && c.utilisateurId == utilisateurId
      && |c.etapes| == n
      && (forall k :: 0 <= k < n ==> c.etapes[k].statut == AFaire)
      && c.dateFin == Some(dateDebut + SommeDurees(EtapesOrdonnees(cultures[cultureId])))
      && (n > 0 ==> c.etapes[n - 1].dateFin == c.dateFin.value + n - 1)
  {
    var ms := EtapesOrdonnees(cultures[cultureId]);
    var p := Planning(ms, dateDebut, forme.Complete?);
    var c := Ouverture(analyses, cultures, cs, utilisateurId, analyseId, cultureId, dateDebut, forme).value;
    assert c.etapes == p && c.statut == Planifiee && c.progression == 0;
    assert c.dateFin == Some(dateDebut + SommeDurees(ms));
    assert |ms| == |cultures[cultureId].etapes|;
    PlanningNotStarted(ms, dateDebut, forme.Complete?);
    if |ms| > 0 {
      LastStageEnd(ms, dateDebut, forme.Complete?);
    }
  }

  /** Opening a campaign keeps every parcel at most one campaign under way. */
  lemma OuvertureGardeUneActive(analyses: map<nat, AnalyseRef>, cultures: map<nat, Culture>, cs: seq<Campagne>,
                                utilisateurId: nat, analyseId: nat, cultureId: nat, dateDebut: int, forme: Forme)
    requires UneActiveParParcelle(cs)
    requires Ouverture(analyses, cultures, cs, utilisateurId, analyseId, cultureId, dateDebut, forme).Success?
    ensures UneActiveParParcelle(cs + [Ouverture(analyses, cultures, cs, utilisateurId, analyseId, cultureId, dateDebut, forme).value])
  {
    var c := Ouverture(analyses, cultures, cs, utilisateurId, analyseId, cultureId, dateDebut, forme).value;
    var cs' := cs + [c];
    forall i, j | 0 <= i < j < |cs'| && cs'[i].parcelleId == cs'[j].parcelleId
      ensures !(Active(cs'[i]) && Active(cs'[j]))
    {
      if j == |cs| {
        assert cs'[i] == cs[i];
      } else {
        assert cs'[i] == cs[i] && cs'[j] == cs[j];
      }
    }
  }

  /** Replacing a campaign by one on the same parcel that is under way only
      if the old one was keeps every parcel at most one campaign under way. */
  lemma RemplacementGardeUneActive(cs: seq<Campagne>, id: nat, c: Campagne)
    requires UneActiveParParcelle(cs) && id < |cs|
    requires c.parcelleId == cs[id].parcelleId && (Active(c) ==> Active(cs[id]))
    ensures UneActiveParParcelle(cs[id := c])
  {
  }

  /** The campaign an opening builds once its three guards pass. */
  lemma OuvertureReussie(analyses: map<nat, AnalyseRef>, cultures: map<nat, Culture>, cs: seq<Campagne>,
                         utilisateurId: nat, analyseId: nat, cultureId: nat, dateDebut: int, forme: Forme)
    requires analyseId in analyses && analyses[analyseId].utilisateurId == utilisateurId
    requires cultureId in cultures && cultures[cultureId].estActive
    requires CampagneActive(cs, analyses[analyseId].parcelleId).None?
    ensures var ms := EtapesOrdonnees(cultures[cultureId]);
      Ouverture(analyses, cultures, cs, utilisateurId, analyseId, cultureId, dateDebut, forme)
      == Success(Campagne(cultureId, analyses[analyseId].parcelleId, utilisateurId, dateDebut,
                          Some(dateDebut + SommeDurees(ms)), Planifiee, 0,
                          if forme.Complete? then forme.notes else "",
                          if forme.Complete? then Some(analyseId) else None,
                          Planning(ms, dateDebut, forme.Complete?)))
  {
  }

  /** The campaign an opening builds once its three guards pass, its
      stages generated one by one. */
  method NouvelleCampagne(analyses: map<nat, AnalyseRef>, cultures: map<nat, Culture>, cs: seq<Campagne>,
                          utilisateurId: nat, analyseId: nat, cultureId: nat, dateDebut: int, forme: Forme)
    returns (c: Campagne)
    requires analyseId in analyses && analyses[analyseId].utilisateurId == utilisateurId
    requires cultureId in cultures && cultures[cultureId].estActive
    requires CampagneActive(cs, analyses[analyseId].parcelleId).None?
    ensures Ouverture(analyses, cultures, cs, utilisateurId, analyseId, cultureId, dateDebut, forme) == Success(c)
  {
    var ms := EtapesOrdonnees(cultures[cultureId]);
    var etapes := GenererEtapes(ms, dateDebut, forme.Complete?);
    c := Campagne(cultureId, analyses[analyseId].parcelleId, utilisateurId, dateDebut,
                  Some(dateDebut + SommeDurees(ms)), Planifiee, 0,
                  if forme.Complete? then forme.notes else "",
                  if forme.Complete? then Some(analyseId) else None,
                  etapes);
    OuvertureReussie(analyses, cultures, cs, utilisateurId, analyseId, cultureId, dateDebut, forme);
  }

  /** Appending the campaign a successful opening builds keeps both store
      invariants: one campaign under way per parcel, and every stored
      progression the one its stages give. */
  lemma OuvertureGardeValide(analyses: map<nat, AnalyseRef>, cultures: map<nat, Culture>, cs: seq<Campagne>,
                             utilisateurId: nat, analyseId: nat, cultureId: nat, dateDebut: int, forme: Forme)
    requires UneActiveParParcelle(cs) && ProgressionsAJour(cs)
    requires Ouverture(analyses, cultures, cs, utilisateurId, analyseId, cultureId, dateDebut, forme).Success?
    ensures var c := Ouverture(analyses, cultures, cs, utilisateurId, analyseId, cultureId, dateDebut, forme).value;
      UneActiveParParcelle(cs + [c]) && ProgressionsAJour(cs + [c])
  {
    var c := Ouverture(analyses, cultures, cs, utilisateurId, analyseId, cultureId, dateDebut, forme).value;
    OuvertureCree(analyses, cultures, cs, utilisateurId, analyseId, cultureId, dateDebut, forme);
    OuvertureGardeUneActive(analyses, cultures, cs, utilisateurId, analyseId, cultureId, dateDebut, forme);
    var cs' := cs + [c];
    forall i | 0 <= i < |cs'| ensures cs'[i].progression == Progression(cs'[i].etapes) {
      if i < |cs| {
        assert cs'[i] == cs[i];
      }
    }
  }

  class Registre {
    /** The soil analyses, by id. */
    var analyses: map<nat, AnalyseRef>
    /** The crop catalogue, by id. */
    var cultures: map<nat, Culture>
    /** The campaigns, the id of each being its position. */
    var campagnes: seq<Campagne>

    ghost predicate Valide()
      reads this
    {
      UneActiveParParcelle(campagnes) && ProgressionsAJour(campagnes)
    }

    constructor(analyses: map<nat, AnalyseRef>, cultures: map<nat, Culture>)
      ensures Valide()
      ensures this.analyses == analyses && this.cultures == cultures && campagnes == []
    {
      this.analyses := analyses;
      this.cultures := cultures;
      campagnes := [];
    }

    /** Both opening handlers: the guards, then the campaign with its
        stages generated one by one. */
    method OuvrirCampagne(utilisateurId: nat, analyseId: nat, cultureId: nat, dateDebut: int, forme: Forme)
      returns (r: Result<nat, Erreur>)
      requires Valide()
      modifies this`campagnes
      ensures Valide()
      ensures var o := Ouverture(analyses, cultures, old(campagnes), utilisateurId, analyseId, cultureId, dateDebut, forme);
        && (o.Failure? ==> r == Failure(o.error) && campagnes == old(campagnes))
        && (o.Success? ==> r == Success(|old(campagnes)|) && campagnes == old(campagnes) + [o.value])
    {
      if !(analyseId in analyses && analyses[analyseId].utilisateurId == utilisateurId) {
        return Failure(AnalyseIntrouvable);
      }
      if !(cultureId in cultures && cultures[cultureId].estActive) {
        return Failure(CultureIntrouvable);
      }
      var existante := CampagneActive(campagnes, analyses[analyseId].parcelleId);
      if existante.Some? {
        return Failure(CampagneEnCours(existante.value));
      }
      var c := NouvelleCampagne(analyses, cultures, campagnes, utilisateurId, analyseId, cultureId, dateDebut, forme);
      OuvertureGardeValide(analyses, cultures, campagnes, utilisateurId, analyseId, cultureId, dateDebut, forme);
      campagnes := campagnes + [c];
      r := Success(|campagnes| - 1);
    }

    /** `creerCampagne`. */
    method CreerCampagne(utilisateurId: nat, analyseId: nat, cultureId: nat, dateDebut: int, notes: string)
      returns (r: Result<nat, Erreur>)
      requires Valide()
      modifies this`campagnes
      ensures Valide()
      ensures var o := Ouverture(analyses, cultures, old(campagnes), utilisateurId, analyseId, cultureId, dateDebut, Complete(notes));
        && (o.Failure? ==> r == Failure(o.error) && campagnes == old(campagnes))
        && (o.Success? ==> r == Success(|old(campagnes)|) && campagnes == old(campagnes) + [o.value])
    {
      r := OuvrirCampagne(utilisateurId, analyseId, cultureId, dateDebut, Complete(notes));
    }

    /** `demarrerCampagne`. */
    method DemarrerCampagne(utilisateurId: nat, analyseId: nat, cultureId: nat, dateDebut: int)
      returns (r: Result<nat, Erreur>)
      requires Valide()
      modifies this`campagnes
      ensures Valide()
      ensures var o := Ouverture(analyses, cultures, old(campagnes), utilisateurId, analyseId, cultureId, dateDebut, Minimale);
        && (o.Failure? ==> r == Failure(o.error) && campagnes == old(campagnes))
        && (o.Success? ==> r == Success(|old(campagnes)|) && campagnes == old(campagnes) + [o.value])
    {
      r := OuvrirCampagne(utilisateurId, analyseId, cultureId, dateDebut, Minimale);
    }

    /** `getCampagneDetails`: the campaign with its progression recomputed;
        it is written back only when its status changes. */
    method GetCampagneDetails(utilisateurId: nat, id: nat) returns (r: Result<Campagne, Erreur>)
      requires Valide()
      modifies this`campagnes
      ensures Valide()
      ensures !(id < |old(campagnes)| && old(campagnes)[id].utilisateurId == utilisateurId) ==>
        r == Failure(CampagneIntrouvable) && campagnes == old(campagnes)
      ensures id < |old(campagnes)| && old(campagnes)[id].utilisateurId == utilisateurId ==>
        var vue := Details(old(campagnes)[id]);
        && r == Success(vue)
        && vue.progression == Progression(vue.etapes)
        && vue.dateFin == old(campagnes)[id].dateFin
        && campagnes == if vue.statut != old(campagnes)[id].statut then old(campagnes)[id := vue] else old(campagnes)
    {
      if !(id < |campagnes| && campagnes[id].utilisateurId == utilisateurId) {
        return Failure(CampagneIntrouvable);
      }
      var c := campagnes[id];
      var vue := Details(c);
      if vue.statut != c.statut {
        RemplacementGardeUneActive(campagnes, id, vue);
        campagnes := campagnes[id := vue];
      }
      r := Success(vue);
    }

    /** `mettreAJourProgressionCampagne`: recompute one campaign in place and
        answer its progression and status.  Its callers reach it through a
        stage of the campaign, so there is at least one stage to divide by. */
    method MettreAJourProgressionCampagne(id: nat, maintenant: int) returns (progression: int, statut: StatutCampagne)
      requires id < |campagnes| && |campagnes[id].etapes| > 0
      modifies this`campagnes
      ensures campagnes == old(campagnes)[id := Recalculer(old(campagnes)[id], maintenant)]
      ensures progression == campagnes[id].progression && statut == campagnes[id].statut
      ensures 0 <= progression <= 100
      ensures UneActiveParParcelle(old(campagnes)) ==> UneActiveParParcelle(campagnes)
      ensures (forall i :: 0 <= i < |old(campagnes)| && i != id ==>
                 old(campagnes)[i].progression == Progression(old(campagnes)[i].etapes))
              ==> ProgressionsAJour(campagnes)
    {
      var c := Recalculer(campagnes[id], maintenant);
      if UneActiveParParcelle(campagnes) {
        RemplacementGardeUneActive(campagnes, id, c);
      }
      campagnes := campagnes[id := c];
      progression, statut := c.progression, c.statut;
    }

    /** `mettreAJourStatutEtape`: a stage of one of the user's campaigns,
        then the rollup; answers the new progression and campaign status. */
    method MettreAJourStatutEtape(utilisateurId: nat, id: nat, e: nat, statut: Statut, maintenant: int)
      returns (r: Result<(int, StatutCampagne), Erreur>)
      requires Valide()
      modifies this`campagnes
      ensures Valide()
      ensures !(id < |old(campagnes)| && old(campagnes)[id].utilisateurId == utilisateurId
                && e < |old(campagnes)[id].etapes|) ==>
        r == Failure(EtapeIntrouvable) && campagnes == old(campagnes)
      ensures id < |old(campagnes)| && old(campagnes)[id].utilisateurId == utilisateurId
              && e < |old(campagnes)[id].etapes| ==>
        var c := ApresStatutEtape(old(campagnes)[id], e, statut, maintenant);
        && campagnes == old(campagnes)[id := c]
        && r == Success((c.progression, c.statut))
    {
      if !(id < |campagnes| && campagnes[id].utilisateurId == utilisateurId && e < |campagnes[id].etapes|) {
        return Failure(EtapeIntrouvable);
      }
      var old0 := campagnes;
      campagnes := campagnes[id := AvecStatutEtape(campagnes[id], e, statut)];
      var progression, statutCampagne := MettreAJourProgressionCampagne(id, maintenant);
      RemplacementGardeUneActive(old0, id, campagnes[id]);
      r := Success((progression, statutCampagne));
    }

    /** `mettreAJourStatutTache`: a task of one of the user's campaigns; when
        all tasks of its stage are then 'terminée' the stage is too, and the
        rollup runs. */
    method MettreAJourStatutTache(utilisateurId: nat, id: nat, e: nat, t: nat, statut: Statut, maintenant: int)
      returns (erreur: Option<Erreur>)
      requires Valide()
      modifies this`campagnes
      ensures Valide()
      ensures !(id < |old(campagnes)| && old(campagnes)[id].utilisateurId == utilisateurId
                && e < |old(campagnes)[id].etapes| && t < |old(campagnes)[id].etapes[e].taches|) ==>
        erreur == Some(TacheIntrouvable) && campagnes == old(campagnes)
      ensures id < |old(campagnes)| && old(campagnes)[id].utilisateurId == utilisateurId
              && e < |old(campagnes)[id].etapes| && t < |old(campagnes)[id].etapes[e].taches| ==>
        erreur == None
        && campagnes == old(campagnes)[id := ApresStatutTache(old(campagnes)[id], e, t, statut, maintenant)]
    {
      if !(id < |campagnes| && campagnes[id].utilisateurId == utilisateurId
           && e < |campagnes[id].etapes| && t < |campagnes[id].etapes[e].taches|) {
        return Some(TacheIntrouvable);
      }
      var old0 := campagnes;
      TaskUpdateKeepsProgression(campagnes[id], e, t, statut, maintenant);
      campagnes := campagnes[id := AvecStatutTache(campagnes[id], e, t, statut)];
      var ts := campagnes[id].etapes[e].taches;
      if forall j :: 0 <= j < |ts| ==> ts[j].statut == Statut.Terminee {
        var c := campagnes[id];
        campagnes := campagnes[id := c.(etapes := c.etapes[e := c.etapes[e].(statut := Statut.Terminee)])];
        var _, _ := MettreAJourProgressionCampagne(id, maintenant);
      }
      assert campagnes == old0[id := ApresStatutTache(old0[id], e, t, statut, maintenant)];
      RemplacementGardeUneActive(old0, id, campagnes[id]);
      erreur := None;
    }
  }
}
