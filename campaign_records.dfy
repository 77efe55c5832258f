/**
 * The campaign entities in one canonical form: a campaign (`Campagne`)
 * holds its stages (`EtapeCampagne`) in creation order, and each stage
 * holds its tasks (`Tache`).  A stage is identified by its campaign and
 * its position, a task by its stage and its position.  Dates are day
 * numbers.
 */
module CampagneModele {
  import opened Wrappers

  /** Status of a stage or of a task: 'à_faire', 'en_cours', 'terminée', 'en_retard'. */
  datatype Statut = AFaire | EnCours | Terminee | EnRetard

  /** Status of a campaign: 'planifiée', 'en_cours', 'terminée', 'annulée'. */
  datatype StatutCampagne = Planifiee | EnCours | Terminee | Annulee

  datatype Tache = Tache(
    description: string,
    priorite: string,
    dureeEstimee: real,
    materielRequis: seq<string>,
    statut: Statut)

  /** The template fields `creerCampagne` copies onto a stage
      (`demarrerCampagne` leaves them unset). */
  datatype CopieModele = CopieModele(nom: string, description: string, dureeJours: int, ordre: int)

  datatype Etape = Etape(
    etapeCultureId: nat,
    copie: Option<CopieModele>,
    dateDebut: int,
    dateFin: int,
    statut: Statut,
    taches: seq<Tache>)

  datatype Campagne = Campagne(
    cultureId: nat,
    parcelleId: nat,
    utilisateurId: nat,
    dateDebut: int,
    dateFin: Option<int>,
    statut: StatutCampagne,
    progression: int,
    notes: string,
    analyseSolId: Option<nat>,
    etapes: seq<Etape>)

  /** The error responses of the campaign handlers. */
  datatype Erreur =
    | AnalyseIntrouvable          // 404, analysis missing or on another user's field
    | CultureIntrouvable          // 404, crop missing or inactive
    | CampagneEnCours(id: nat)    // 400, with the blocking campaign's id
    | CampagneIntrouvable         // 404
    | EtapeIntrouvable            // 404
    | TacheIntrouvable            // 404

  /** 'planifiée' or 'en_cours': the statuses that block a new campaign. */
  predicate StatutActif(s: StatutCampagne)
  {
    s == Planifiee || s == StatutCampagne.EnCours
  }

  predicate Active(c: Campagne)
  {
    StatutActif(c.statut)
  }
}
