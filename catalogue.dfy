/**
 * The crop catalogue as the scorer and the campaign scheduler read it:
 * one canonical record per crop (the `Culture` table with its nullable
 * ideal-range columns), its stage templates (`EtapeCulture`) and their
 * task templates.  The catalogue is read-only to the core.
 */
module Catalogue {
  import opened Wrappers

  /** A pair of nullable `<criterion>_min` / `<criterion>_max` columns. */
  datatype Bounds = Bounds(min: Option<real>, max: Option<real>)

  /** A task template of a stage template. */
  datatype TacheModele = TacheModele(
    description: string,
    priorite: string,
    dureeEstimee: real,
    materielRequis: seq<string>)

  /** A stage template: `duree_jours` days long, placed by `ordre`. */
  datatype EtapeCulture = EtapeCulture(
    id: nat,
    nom: string,
    description: string,
    dureeJours: int,
    ordre: int,
    taches: seq<TacheModele>)

  datatype Culture = Culture(
    id: nat,
    nom: string,
    estActive: bool,
    ph: Bounds,
    humidite: Bounds,
    temperature: Bounds,
    ec: Bounds,
    azote: Bounds,
    phosphore: Bounds,
    potassium: Bounds,
    rendementMoyen: string,
    typeEngrais: string,
    etapes: seq<EtapeCulture>)
}
