# SmartAgriChange core, modelled in Dafny

This project models the decision logic of the SmartAgriChange back end. That back end is an Express/Sequelize service for smallholder farmers.

- **Soil-to-crop compatibility** (`calculerCompatibilite`). A soil analysis (pH, humidity, temperature, electrical conductivity, N, P, K) is scored against each crop's ideal ranges:
  - in range, a criterion earns its full weight;
  - out of range, it loses weight in proportion to its deviation relative to the nearer bound;
  - the final score is the rounded weighted average in percent, with a message for its band.

  `creerAnalyseSol` scores every active crop and sorts the recommendations by score, best first.
- **Campaign scheduling** (`creerCampagne`, `demarrerCampagne`). A campaign is opened on a parcel only if:
  - the analysis belongs to the user;
  - the crop is active;
  - no campaign on the parcel is `planifiée` or `en_cours`.

  Its stages are generated from the crop's template stages in `ordre`. A cursor walks from the start date: each stage lasts its `duree_jours`, and one transition day separates consecutive stages. The campaign's end date is the start plus the summed durations.
- **Progress rollup** (`getCampagneDetails`, `mettreAJourStatutEtape`, `mettreAJourStatutTache`, `mettreAJourProgressionCampagne`):
  - progression is `round(100 × finished stages / stages)`;
  - the campaign status moves forward `planifiée → en_cours → terminée`;
  - finishing a stage finishes its pending tasks;
  - finishing a stage's last task finishes the stage.
- **One-time passwords** (`otpService`). A process-wide table maps phone numbers to the last code sent and its expiry ten minutes later. Verification is inclusive at the expiry instant and drops an expired record. Codes are six digits.
- **Forecast de-duplication** (`getForecast`). Forecasts are grouped by UTC day. Each day keeps the forecast with the greatest `last_updated`; the first one seen wins a tie. Days come out in order of first appearance.

## Representation

- Scores are `real`.
- `Math.round` is `floor(x + 1/2)`.
- Campaign dates are integer day numbers. Forecast and OTP times are milliseconds.
- A request-body measurement is `Undefined`, `Null` or a number. This is needed because the reading gate differs by criterion:
  - pH, humidity, temperature and EC need a truthy reading, so 0 is skipped;
  - a nutrient only needs one that is not `undefined`, so `null` counts in the denominator and scores 0.
- A zero reference bound with the value outside the range divides by zero in JavaScript. The deviation is then infinite and the criterion scores 0; the model says so explicitly.
- The campaign store is a class, `Campagnes.Registre`:
  - a campaign's id is its position;
  - stages and tasks are addressed by position inside it;
  - its invariant `Valide` states that no parcel has two campaigns under way, and that every stored progression is the one its stages give.
- `Array.prototype.sort` with the comparator `b.score - a.score` is modelled as a stable sort by key (`StableSort.SortDesc`). So is the `ordre ASC` query order.

Files:
- `wrappers.dfy`, `rounding.dfy` and `stable_sort.dfy` hold the shared helpers.
- `catalogue.dfy` holds the crop catalogue.
- `compatibility.dfy` holds the scorer and the ranking.
- `campaign_records.dfy` holds the campaign entities.
- `campaign_schedule.dfy` holds the stage generator.
- `campaign_progress.dfy` holds the rollup as functions on one campaign.
- `campaign_store.dfy` holds the handlers over the store.
- `otp.dfy` holds the OTP table and generator.
- `weather.dfy` holds the forecast grouping.

## Model

| member | source | states |
|---|---|---|
| Rounding.Round | backend/controllers/analyseSolController.js:72 | `Math.round` as the integer n with n ≤ x + 1/2 < n + 1 |
| Rounding.PercentBounds | backend/controllers/analyseSolController.js:72 | a rounded share of a positive whole, in percent, lies in 0..100 |
| Compatibility.Poids | backend/controllers/analyseSolController.js:24-69 | every criterion weight (1.5, 1, 1.5, 1, 0.8 ×3) is positive |
| Compatibility.Attenuation | backend/controllers/analyseSolController.js:19-21 | the fraction of the weight an out-of-range value keeps is within [0, 1], and 0 when the reference bound is 0 |
| Compatibility.ScoreCritere | backend/controllers/analyseSolController.js:15-22 | a criterion score lies in [0, weight]; a missing or null value scores 0; a value in [min, max] scores the full weight |
| Compatibility.AttenuationBelowOne | backend/controllers/analyseSolController.js:19-21 | a value outside its range keeps strictly less than its full weight |
| Compatibility.FullScoreIffInRange | backend/controllers/analyseSolController.js:17-21 | with a positive weight, the full weight is earned if and only if the value is in range |
| Compatibility.ScoreDecreasesAwayFromRange | backend/controllers/analyseSolController.js:19-21 | moving a value further out of a well-formed range never raises its score |
| Compatibility.AttenuationDecreases | backend/controllers/analyseSolController.js:19-21 | the kept fraction never grows as a value moves further below the minimum or above the maximum |
| Compatibility.PhExample | backend/controllers/analyseSolController.js:15-26 | pH 8.0 against 5.5-7.0 with weight 1.5 scores 9/7 |
| Compatibility.Evaluer | backend/controllers/analyseSolController.js:10-69 | the running total never exceeds the running denominator, and neither is negative |
| Compatibility.EvaluerCounts | backend/controllers/analyseSolController.js:24-69 | the details list exactly the evaluated criteria in visiting order, and the denominator is their total weight |
| Compatibility.NothingCountedIffNoneEvaluated | backend/controllers/analyseSolController.js:25-72 | the denominator is 0 if and only if no criterion passes its gate, and then there are no details |
| Compatibility.AllInRangeFullTotal | backend/controllers/analyseSolController.js:17-69 | when every evaluated value is in range, the total equals the denominator |
| Compatibility.NiveauDe | backend/controllers/analyseSolController.js:75-84 | the message band: ≥ 80 excellent, 60-79 good, 40-59 medium, below 40 poor, each if and only if |
| Compatibility.Message | backend/controllers/analyseSolController.js:76-84 | each band's text opens with the band's own words and then names the crop |
| Compatibility.MessageDistingueNiveau | backend/controllers/analyseSolController.js:76-84 | two bands never produce the same text, whatever the crop names, so the band can be read back from the message |
| Compatibility.Pourcentage | backend/controllers/analyseSolController.js:72 | the final score lies in 0..100 |
| Compatibility.CalculerCompatibilite | backend/controllers/analyseSolController.js:9-91 | the compatibility score lies in 0..100 |
| Compatibility.NoCriterionScoresZero | backend/controllers/analyseSolController.js:72-84 | a crop with no evaluable criterion scores 0 with no details and the poor message |
| Compatibility.AllInRangeScoresHundred | backend/controllers/analyseSolController.js:72-77 | a reading inside every evaluated range, with at least one criterion evaluated, scores 100 with the excellent message |
| Compatibility.EvaluerDependsOnEvaluated | backend/controllers/analyseSolController.js:24-69 | two readings that agree on which criteria pass the gate and on their values give the same accumulation |
| Compatibility.ZeroReadingIgnored | backend/controllers/analyseSolController.js:25-54 | a pH, humidity, temperature or EC reading of 0 gives the same result as a missing one |
| Compatibility.EvaluerNullNutrient | backend/controllers/analyseSolController.js:57-69 | a null nutrient with both bounds set adds its weight to the denominator and nothing to the total |
| Compatibility.NullNutrientEvaluation | backend/controllers/analyseSolController.js:57-69 | a null nutrient leaves the total unchanged and adds its weight to the denominator exactly when both its bounds are set |
| Compatibility.NullNutrientNeverHelps | backend/controllers/analyseSolController.js:63-72 | sending a nutrient as null never scores better than leaving it out |
| Compatibility.Recommander | backend/controllers/analyseSolController.js:151-172 | a recommendation carries its crop's id and a score in 0..100 |
| Compatibility.Actives | backend/controllers/analyseSolController.js:134-136 | the crops scored are exactly the active ones |
| Compatibility.CreerRecommandations | backend/controllers/analyseSolController.js:133-176 | one recommendation per active crop in catalogue order; the answer is a permutation of them by non-increasing score, with equal scores kept in catalogue order |
| StableSort.SortDescOrdered | backend/controllers/analyseSolController.js:176 | the sorted list is in non-increasing key order |
| StableSort.SortDescPermutes | backend/controllers/analyseSolController.js:176 | the sorted list is a permutation of the input |
| StableSort.SortDescStable | backend/controllers/analyseSolController.js:176 | for every key, the elements with that key keep their relative order |
| Planification.Planning | backend/controllers/campagneController.js:78-116 | one campaign stage per template stage |
| Planification.GenererEtapes | backend/controllers/campagneController.js:78-116 | the cursor loop with its task-copy loop produces exactly the schedule `Planning` describes |
| Planification.CopierTaches | backend/controllers/campagneController.js:100-111 | the loop over task templates creates one `à_faire` copy of each task template, in order |
| Planification.PlanningStep | backend/controllers/campagneController.js:81-116 | one more template extends the schedule by its stage, which starts after the earlier durations plus one transition day per earlier stage |
| Planification.EtapesOrdonnees | backend/controllers/campagneController.js:68-71 | the template stages are reordered, not changed: same multiset, ascending `ordre` |
| Planification.SommeDurees | backend/controllers/campagneController.js:119 | the total of non-negative stage durations is non-negative, so the campaign never ends before it starts |
| Planification.PlanningStage | backend/controllers/campagneController.js:81-111 | stage k starts at the start date plus the durations before it plus one transition day per earlier stage; it ends its duration later; it is `à_faire` and refers to its template; `creerCampagne` copies the template fields and tasks, `demarrerCampagne` does not |
| Planification.PlanningGap | backend/controllers/campagneController.js:113-115 | each stage starts the day after the previous one ends |
| Planification.PlanningTasks | backend/controllers/campagneController.js:99-111 | every template task is copied with its description, priority, estimate and equipment, as `à_faire` |
| Planification.LastStageEnd | backend/controllers/campagneController.js:79-121 | the last stage ends at the start date plus the summed durations plus one day per gap |
| Planification.StagesFollowOrdre | backend/controllers/campagneController.js:68-76 | stages are generated in non-decreasing template `ordre` |
| Planification.ScheduleExample | backend/controllers/campagneController.js:79-121 | durations 10, 5 and 20 from day 0 give stages [0,10], [11,16], [17,37] and a summed duration of 35 |
| Avancement.Terminees | backend/controllers/campagneController.js:281 | the count of finished stages never exceeds the number of stages |
| Avancement.TermineesAll | backend/controllers/campagneController.js:281 | every stage is counted if and only if every stage is `terminée` |
| Avancement.TermineesSameStatuses | backend/controllers/campagneController.js:351 | the count depends on the stage statuses only |
| Avancement.Progression | backend/controllers/campagneController.js:279-283 | progression lies in 0..100 |
| Avancement.ProgressionFullIffAllDone | backend/controllers/campagneController.js:350-358 | with fewer than 200 stages, progression is 100 if and only if there are stages and all are `terminée` |
| Avancement.FullProgressWithPendingStage | backend/controllers/campagneController.js:350-358 | with 200 or more stages and one pending, rounding still gives 100 |
| Avancement.ProgressionPositiveIffStageDone | backend/controllers/campagneController.js:350-365 | with at most 200 stages, progression is positive if and only if some stage is `terminée` |
| Avancement.StageDoneButNoProgress | backend/controllers/campagneController.js:350-365 | with more than 200 stages and fewer than one in 200 done, progression rounds to 0 and a `planifiée` campaign stays `planifiée` though a stage is `terminée` |
| Avancement.CancelledCompletesAsWritten | backend/controllers/campagneController.js:358-362 | the status rule as written moves `annulée` to `terminée` at 100 % |
| Avancement.TransitionTelleQuEcrite | backend/controllers/campagneController.js:358-365 | the status rule as written: at 100 the status becomes `terminée` whatever it was; below 100 the only change is `planifiée` to `en_cours` on positive progression |
| Avancement.Transition | backend/controllers/campagneController.js:284-291 | `annulée` and `terminée` are kept; the rule never puts a campaign under way that was not |
| Avancement.TransitionForward | backend/controllers/campagneController.js:358-365 | for a non-cancelled campaign, each resulting status occurs exactly under its condition; the status only moves forward |
| Avancement.TransitionIdempotent | backend/controllers/campagneController.js:465-472 | applying the status rule twice changes nothing more |
| Avancement.Recalculer | backend/controllers/campagneController.js:447-475 | the recomputed campaign keeps its stages; progression is what they give; the status follows the rule; the end date becomes `now` exactly when the campaign becomes `terminée`; nothing else changes |
| Avancement.DetailsAfterUpdate | backend/controllers/campagneController.js:278-292 | after a recomputation, the details read-back shows and writes nothing new |
| Avancement.Details | backend/controllers/campagneController.js:278-292 | the details view keeps the stages and `date_fin`; with stages, progression is recomputed and the status advanced; without stages the campaign is unchanged; no other field changes |
| Avancement.StageUpdateEffect | backend/controllers/campagneController.js:330-355 | a stage update sets that stage's status and keeps its other fields; for `terminée` its tasks are exactly `TerminerAFaire` of the old ones (only the `à_faire` tasks become `terminée`); other stages are untouched; progression is recomputed |
| Avancement.StageUpdateIdempotent | backend/controllers/campagneController.js:330-365 | repeating a stage update, at any later time, changes nothing |
| Avancement.TerminerAFaire | backend/controllers/campagneController.js:335-338 | the bulk task update leaves no task `à_faire`, leaves tasks in any other status unchanged, and changes nothing but statuses |
| Avancement.AvecStatutEtape | backend/controllers/campagneController.js:330-338 | the stage gets the new status and keeps every other field; for `terminée` its tasks are `TerminerAFaire` of the old ones, none left `à_faire`, otherwise its tasks are unchanged; every other stage and every campaign field is unchanged |
| Avancement.ApresStatutEtape | backend/controllers/campagneController.js:330-365 | after a stage update the stage has the new status, progression is the one the stages give, and the status follows the status rule |
| Avancement.TaskUpdateEffect | backend/controllers/campagneController.js:411-430 | a tâche update sets its status and leaves the stage's other tasks alone; the stage becomes `terminée` (its other fields kept) if and only if all its tasks are `terminée`, and then progression is recomputed, the status follows `Transition` and the end date becomes now on completion; otherwise the stage's other fields, progression, status and end date are untouched |
| Avancement.TaskUpdateKeepsProgression | backend/controllers/campagneController.js:419-430 | a consistent progression stays consistent across a task update |
| Avancement.AvecStatutTache | backend/controllers/campagneController.js:411-412 | the tâche gets the new status; every other task, the stage's other fields, every other stage and every campaign field are unchanged |
| Avancement.ApresStatutTache | backend/controllers/campagneController.js:411-430 | the tâche gets its status and the stage's other tasks are kept; when all the stage's tasks are `terminée` the stage is `terminée` with its other fields kept, progression is recomputed, the status follows `Transition` and the end date becomes now on completion; otherwise the stage's other fields, progression and campaign status are kept |
| Avancement.ApresStatutTacheTelQuEcrit | backend/controllers/campagneController.js:411-430 | as written, the handler answers a server error exactly when all the stage's tasks are `terminée`, after marking the stage `terminée`; progression, status and end date are never recomputed |
| Avancement.StaleProgressionAsWritten | backend/controllers/campagneController.js:429 | as written, finishing the only task of a one-stage campaign answers a server error, leaves the stage `terminée` with progression at 0 and the status `planifiée`; the recomputation gives 100 and `terminée` |
| Campagnes.CampagneActive | backend/controllers/campagneController.js:40-46 | finds no campaign if and only if none on the parcel is `planifiée` or `en_cours`; otherwise finds one that is |
| Campagnes.Ouverture | backend/controllers/campagneController.js:27-125 | a campaign is built only when the analysis is the user's, the crop exists and is active, and the parcel has no campaign under way; it is `planifiée` at 0 % on the analysis's parcel, for that user and crop |
| Campagnes.OuvertureRefuse | backend/controllers/campagneController.js:27-53 | the refusals in order: analysis not the user's, crop missing or inactive, parcel with a campaign under way (named); a campaign is opened if and only if none applies |
| Campagnes.PlanningNotStarted | backend/controllers/campagneController.js:95 | a fresh schedule has every stage `à_faire`, so its progression is 0 |
| Campagnes.OuvertureCree | backend/controllers/campagneController.js:56-125 | a new campaign is `planifiée` at 0 %, consistent with its stages; it is on the analysis's parcel and owned by the user; it has one `à_faire` stage per template stage; it ends at the start date plus the summed durations, and its last stage ends one day per gap later |
| Campagnes.OuvertureGardeUneActive | backend/controllers/campagneController.js:40-65 | opening a campaign keeps every parcel at most one campaign under way |
| Campagnes.OuvertureGardeValide | backend/controllers/campagneController.js:40-65 | opening a campaign keeps both store invariants: at most one campaign under way per parcel, and every stored progression equal to the one its stages give |
| Campagnes.RemplacementGardeUneActive | backend/controllers/campagneController.js:355-365 | replacing a campaign by one on the same parcel that is under way only if the old one was keeps that invariant |
| Campagnes.NouvelleCampagne | backend/controllers/campagneController.js:56-125 | once the three guards pass, the campaign built with its stages generated one by one is exactly the one `Ouverture` describes |
| Campagnes.Registre.OuvrirCampagne | backend/controllers/campagneController.js:9-125 | the guards, then an appended campaign exactly as `Ouverture` describes, with its id; the store invariant is kept |
| Campagnes.Registre.CreerCampagne | backend/controllers/campagneController.js:9-174 | `creerCampagne`: a complete copy, with notes and analysis |
| Campagnes.Registre.DemarrerCampagne | backend/controllers/analyseSolController.js:336-433 | `demarrerCampagne`: stages without copied fields or tasks, and no notes or analysis |
| Campagnes.Registre.GetCampagneDetails | backend/controllers/campagneController.js:233-303 | 404 when the campaign is not the user's; otherwise the campaign with recomputed progression and advanced status, written back only on a status change and without touching the end date |
| Campagnes.Registre.MettreAJourProgressionCampagne | backend/controllers/campagneController.js:447-475 | replaces the campaign by its recomputation and answers its progression and status; it keeps at most one campaign under way per parcel, and brings every progression up to date when only this campaign's was stale |
| Campagnes.Registre.MettreAJourStatutEtape | backend/controllers/campagneController.js:310-380 | 404 unless the stage is in one of the user's campaigns; otherwise the stage update and rollup, answering the new progression and status; the store invariant is kept |
| Campagnes.Registre.MettreAJourStatutTache | backend/controllers/campagneController.js:387-441 | 404 unless the tâche is in one of the user's campaigns; otherwise the tâche update with the stage completion and rollup; the store invariant is kept |
| Otp.Verifier | backend/services/otpService.js:31-56 | true if and only if there is a record, it has not expired (expiry instant included), and the codes are equal; no record leaves the table as it is; an expired record is dropped; a live one is kept whether or not the codes match |
| Otp.StoreThenVerify | backend/services/otpService.js:21-55 | a stored code is accepted exactly when given back within ten minutes; after that it is refused and dropped |
| Otp.OtherPhonesUnchanged | backend/services/otpService.js:21-50 | storing or verifying one phone's code leaves every other phone's record as it was |
| Otp.NewCodeReplacesOld | backend/services/otpService.js:21-25 | a second code sent to a phone makes the first one fail |
| Otp.Stocker | backend/services/otpService.js:21-25 | the phone gets a record with the code and an expiry ten minutes after now; every other record is kept and no other phone is added |
| Otp.RemoveIdempotent | backend/services/otpService.js:59-62 | removing twice is removing once; a removed phone verifies false and changes nothing |
| Otp.OtpStore.StoreOTP | backend/services/otpService.js:21-28 | sets or replaces the phone's record with the code and an expiry 600000 ms later |
| Otp.OtpStore.VerifyOTP | backend/services/otpService.js:31-56 | answers and leaves the table as `Verifier` says |
| Otp.OtpStore.RemoveOTP | backend/services/otpService.js:59-62 | drops that phone's record and nothing else |
| Otp.Decimal | backend/services/otpService.js:15 | `toString` of a natural number is a non-empty string of decimal digits |
| Otp.DecimalRoundTrip | backend/services/otpService.js:15 | reading the digits back gives the number |
| Otp.DecimalSixDigits | backend/services/otpService.js:13-15 | numbers 100000..999999 are written with six digits, the first not `0` |
| Otp.GenerateOTP | backend/services/otpService.js:13-18 | for any draw in [0, 1), a six-digit code without a leading zero, of value 100000..999999 |
| Otp.EveryCodeReachable | backend/services/otpService.js:15 | every value 100000..999999 comes out for some draw |
| Previsions.Cle | backend/controllers/weatherController.js:35 | the key is the UTC day whose midnight-to-midnight interval holds `forecast_date` |
| Previsions.ClesDistinct | backend/controllers/weatherController.js:34-40 | no date key is listed twice |
| Previsions.ClesMembres | backend/controllers/weatherController.js:34-40 | a date key is listed if and only if some input forecast falls on that day |
| Previsions.ClesOrder | backend/controllers/weatherController.js:34-44 | a key listed before another first occurs earlier in the input |
| Previsions.Grouper | backend/controllers/weatherController.js:34-40 | every stored forecast lies on the day it is stored under, and no more days are listed than forecasts seen |
| Previsions.GrouperDomaine | backend/controllers/weatherController.js:34-40 | the dictionary holds a key if and only if the key has been listed |
| Previsions.GrouperCles | backend/controllers/weatherController.js:34-44 | the dictionary's insertion order is the order of first appearance of the days |
| Previsions.GrouperNewest | backend/controllers/weatherController.js:34-40 | every input forecast's day is in the dictionary, under a forecast with a `last_updated` at least as great |
| Previsions.GrouperKept | backend/controllers/weatherController.js:34-40 | the stored forecast is an input forecast of that day, and every earlier forecast of that day has a strictly smaller `last_updated` |
| Previsions.GrouperPrevisions | backend/controllers/weatherController.js:33-44 | one forecast per date key, keys in order of first appearance; every kept forecast is an input forecast; no input forecast of its day has a greater `last_updated`; every earlier one of its day has a strictly smaller one (first seen wins a tie) |

## Left out

- Persistence, HTTP and ownership joins are not modelled. The database becomes values and fields; the `include ... where id_utilisateur` joins become ownership checks on those values; responses become `Result` values. The parcel lookup and the analysis creation of `creerAnalyseSol`, the response bodies and the include-shapes of the returned campaigns are not modelled.
- The handlers write row by row with no transaction; the model makes each handler one atomic update. Concurrent lost updates are not modelled.
- The labels of `details` (`ideal`, units) and the stored recommendation rows are not modelled; a detail keeps the numbers.
- Numeric strings arriving in the request body, and JavaScript's coercion of them in comparisons, are not modelled. Measurements are numbers, null or missing.
- IEEE floating-point rounding is not modelled; scores are exact reals. Calendar time zones and daylight saving behind `Date.setDate` and `toISOString` are not modelled; dates are day numbers and UTC milliseconds.
- `analyseSolController.js:1` does not import `Champ`, `EtapeCulture`, `EtapeCampagne` or `Tache`, yet they are used at :106, :346, :393, :397, :412 and :450. As written, `creerAnalyseSol` throws at its parcel lookup before any scoring. `demarrerCampagne` throws while building its first query, the analysis lookup at :342-352 (its include names `Champ` at :346), before any guard: nothing is written and every call answers 500. The model describes the behaviour both handlers evidently intend.
- Campagnes.Registre.MettreAJourProgressionCampagne requires a stage. Both callers reach it through a stage of the campaign, which is also why the unguarded divisions at `campagneController.js:352` and `:459` cannot divide by zero. It is an internal step of the two update handlers, called after they have changed a stage, so it does not assume the store invariant: it promises that at most one campaign per parcel stays under way, and that every progression is up to date again when only this campaign's was stale.
- Nothing in the source refuses a stage or task update on a cancelled campaign, and the model does not either. Only the status rule keeps `annulée`.
- Progression can go down when a finished stage is set back; the code does not prevent it, and the model states the recomputed value rather than a monotone one.
- Template stages are taken in `ordre` order with ties in catalogue order. Nothing enforces gapless or distinct `ordre` values.
- The random draw of `generateOTP` and the clock of the OTP service are parameters; the debug logging is left out.
- Authentication, the generic CRUD controllers, image and AI services, seeders and the rest of the weather controller are not part of this model.

## Findings

| source | as written | input that shows it | evidently intended | confidence | as-written member | corrected member |
|---|---|---|---|---|---|---|
| backend/controllers/campagneController.js:429 | `this.mettreAJourProgressionCampagne(...)` is called on the exports object, where the module-local helper is undefined, so the call throws after the stage is marked `terminée` | a campaign with one stage holding one `à_faire` task; set that task to `terminée` | recompute the campaign's progression and status with the helper at :447, so that progression stays consistent (`Avancement.TaskUpdateKeepsProgression`) | not executed | Avancement.StaleProgressionAsWritten | Avancement.ApresStatutTache |
| backend/controllers/campagneController.js:358 | `nouvelleProgression === 100 && campagne.statut !== 'terminée'` also matches `annulée`, as do :285 and :465 | a cancelled campaign all of whose stages are then set to `terminée` | a cancelled campaign stays `annulée` | not executed | Avancement.CancelledCompletesAsWritten | Avancement.Transition |
