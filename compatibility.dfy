/**
 * The soil-to-crop compatibility scorer (`calculerCompatibilite` and its
 * inner `calculerScoreCritere`) and the ranking that `creerAnalyseSol`
 * builds from it: every active crop is scored against one soil reading and
 * the recommendations are sorted by score, best first.
 */
module Compatibility {
  import opened Wrappers
  import opened Rounding
  import opened Catalogue
  import StableSort

  /** A measurement as it arrives in the request body: missing, `null`, or a number. */
  datatype Reading = Undefined | Null | Num(v: real)

  /** The soil reading handed to the scorer. */
  datatype AnalyseData = AnalyseData(
    ph: Reading,
    humidite: Reading,
    temperature: Reading,
    conductivite: Reading,
    azote: Reading,
    phosphore: Reading,
    potassium: Reading)

  datatype Critere = Ph | Humidite | Temperature | Conductivite | Azote | Phosphore | Potassium

  /** The criteria in the order the scorer visits them, which is also the
      key order of the `details` object. */
  const Criteres: seq<Critere> := [Ph, Humidite, Temperature, Conductivite, Azote, Phosphore, Potassium]

  /** The weight of each criterion. */
  function Poids(k: Critere): (w: real)
    ensures w > 0.0
  {
    match k
    case Ph => 1.5
    case Humidite => 1.0
    case Temperature => 1.5
    case Conductivite => 1.0
    case Azote => 0.8
    case Phosphore => 0.8
    case Potassium => 0.8
  }

  function Plage(c: Culture, k: Critere): Bounds
  {
    match k
    case Ph => c.ph
    case Humidite => c.humidite
    case Temperature => c.temperature
    case Conductivite => c.ec
    case Azote => c.azote
    case Phosphore => c.phosphore
    case Potassium => c.potassium
  }

  function Valeur(a: AnalyseData, k: Critere): Reading
  {
    match k
    case Ph => a.ph
    case Humidite => a.humidite
    case Temperature => a.temperature
    case Conductivite => a.conductivite
    case Azote => a.azote
    case Phosphore => a.phosphore
    case Potassium => a.potassium
  }

  predicate EstNutriment(k: Critere)
  {
    k.Azote? || k.Phosphore? || k.Potassium?
  }

  /** JavaScript truthiness of a measurement: present, not `null`, not 0. */
  predicate Truthy(r: Reading)
  {
    r.Num? && r.v != 0.0
  }

  /** The reading gate: pH, humidity, temperature and EC need a truthy
      reading; a nutrient only one that is not `undefined`. */
  predicate Renseigne(k: Critere, r: Reading)
  {
    if EstNutriment(k) then r != Undefined else Truthy(r)
  }

  /** Whether criterion `k` enters the score: both crop bounds are non-null
      and the reading passes its gate. */
  predicate Evalue(c: Culture, a: AnalyseData, k: Critere)
  {
    Plage(c, k).min.Some? && Plage(c, k).max.Some? && Renseigne(k, Valeur(a, k))
  }

  /** The reading of an evaluated criterion is a number inside its range. */
  predicate DansLaPlage(c: Culture, a: AnalyseData, k: Critere)
  {
    && Plage(c, k).min.Some? && Plage(c, k).max.Some? && Valeur(a, k).Num?
    && Plage(c, k).min.value <= Valeur(a, k).v <= Plage(c, k).max.value
  }

  function Abs(x: real): real { if x < 0.0 then -x else x }

  function Max(x: real, y: real): real { if x < y then y else x }

  /** The fraction of the weight an out-of-range value keeps:
      `max(0, 1 - |ecart|)`, the deviation relative to `min` below the range
      and to `max` above it.  A zero reference bound makes the JavaScript
      deviation infinite (the value differs from it), hence a fraction of 0. */
  function Attenuation(v: real, min: real, max: real): (f: real)
    ensures 0.0 <= f <= 1.0
    ensures (if v < min then min else max) == 0.0 ==> f == 0.0
  {
    var reference := if v < min then min else max;
    if reference == 0.0 then 0.0
    else Max(0.0, 1.0 - Abs((v - reference) / reference))
  }

  /** `calculerScoreCritere`: the weighted score of one criterion. */
  function ScoreCritere(valeur: Reading, min: real, max: real, poids: real): (s: real)
    ensures poids >= 0.0 ==> 0.0 <= s <= poids
    ensures !valeur.Num? ==> s == 0.0
    ensures valeur.Num? && min <= valeur.v <= max ==> s == poids
    ensures valeur.Num? && !(min <= valeur.v <= max) ==> s == Attenuation(valeur.v, min, max) * poids
  {
    match valeur
    case Num(v) =>
      if min <= v <= max then poids
      else
        var f := Attenuation(v, min, max);
        assert poids >= 0.0 ==> f * poids <= poids by {
          if poids >= 0.0 {
            assert (1.0 - f) * poids >= 0.0;
          }
        }
        f * poids
    case _ => 0.0
  }

  /** With a positive weight, a criterion scores its full weight exactly when
      the value lies in `[min, max]`. */
  lemma FullScoreIffInRange(v: real, min: real, max: real, poids: real)
    requires poids > 0.0
    ensures ScoreCritere(Num(v), min, max, poids) == poids <==> min <= v <= max
  {
    if !(min <= v <= max) {
      var f := Attenuation(v, min, max);
      AttenuationBelowOne(v, min, max);
      assert f * poids < poids by { assert (1.0 - f) * poids > 0.0; }
      assert ScoreCritere(Num(v), min, max, poids) == f * poids;
    }
  }

  /** A value outside `[min, max]` keeps strictly less than its full weight. */
  lemma AttenuationBelowOne(v: real, min: real, max: real)
    requires !(min <= v <= max)
    ensures Attenuation(v, min, max) < 1.0
  {
    var reference := if v < min then min else max;
    assert v != reference;
    if reference != 0.0 {
      var e := (v - reference) / reference;
      assert e * reference == v - reference;
      assert Abs(e) > 0.0;
    }
  }

  /** |d / r| * |r| == |d|. */
  lemma AbsQuotient(d: real, r: real)
    requires r != 0.0
    ensures Abs(d / r) * Abs(r) == Abs(d)
  {
    var q := d / r;
    assert q * r == d;
    if r > 0.0 {
      if q < 0.0 { assert d < 0.0; } else { assert d >= 0.0; }
    } else {
      if q < 0.0 { assert d > 0.0; } else { assert d <= 0.0; }
    }
  }

  /** A positive factor can be cancelled from both sides of `<=`. */
  lemma CancelPositive(x: real, y: real, c: real, a: real, b: real)
    requires c > 0.0 && x * c == a && y * c == b && a <= b
    ensures x <= y
  {
    assert (y - x) * c == b - a;
  }

  /** |(v - r) / r| grows with |v - r|. */
  lemma RelativeDeviationGrows(d1: real, d2: real, r: real)
    requires r != 0.0 && Abs(d1) <= Abs(d2)
    ensures Abs(d1 / r) <= Abs(d2 / r)
  {
    AbsQuotient(d1, r);
    AbsQuotient(d2, r);
    CancelPositive(Abs(d1 / r), Abs(d2 / r), Abs(r), Abs(d1), Abs(d2));
  }

  /** Monotonicity: moving a value further outside a well-formed range never
      increases that criterion's score. */
  lemma ScoreDecreasesAwayFromRange(v1: real, v2: real, min: real, max: real, poids: real)
    requires min <= max && poids >= 0.0
    requires v2 <= v1 < min || max < v1 <= v2
    ensures ScoreCritere(Num(v2), min, max, poids) <= ScoreCritere(Num(v1), min, max, poids)
  {
    var f1, f2 := Attenuation(v1, min, max), Attenuation(v2, min, max);
    AttenuationDecreases(v1, v2, min, max);
    ProductMonotone(f2, f1, poids, ScoreCritere(Num(v2), min, max, poids), ScoreCritere(Num(v1), min, max, poids));
  }

  /** The kept fraction shrinks as the value moves away from the range. */
  lemma AttenuationDecreases(v1: real, v2: real, min: real, max: real)
    requires min <= max
    requires v2 <= v1 < min || max < v1 <= v2
    ensures Attenuation(v2, min, max) <= Attenuation(v1, min, max)
  {
    var reference := if v1 < min then min else max;
    assert reference == (if v2 < min then min else max);
    if reference != 0.0 {
      RelativeDeviationGrows(v1 - reference, v2 - reference, reference);
    }
  }

  /** Multiplying by a non-negative factor keeps `<=`. */
  lemma ProductMonotone(x: real, y: real, c: real, a: real, b: real)
    requires x <= y && c >= 0.0 && a == x * c && b == y * c
    ensures a <= b
  {
    assert (y - x) * c >= 0.0;
  }

  /** The worked example: pH 8.0 against 5.5-7.0 deviates by 1/7 above the
      maximum and keeps 6/7 of the weight 1.5. */
  lemma PhExample()
    ensures ScoreCritere(Num(8.0), 5.5, 7.0, 1.5) == 9.0 / 7.0
  {
  }

  /** One entry of `details`: the criterion, its score, the ideal range and
      the measured value (the source renders the last two as labels). */
  datatype Detail = Detail(critere: Critere, score: real, min: real, max: real, actuel: Reading)

  /** The running state of `calculerCompatibilite`: `scoreTotal`,
      `criteresTotal` and `details`. */
  datatype Evaluation = Evaluation(scoreTotal: real, criteresTotal: real, details: seq<Detail>)

  /** The criteria of `ks` that enter the score, in order. */
  function Evalues(c: Culture, a: AnalyseData, ks: seq<Critere>): seq<Critere>
  {
    if ks == [] then []
    else Evalues(c, a, ks[..|ks| - 1]) + (if Evalue(c, a, ks[|ks| - 1]) then [ks[|ks| - 1]] else [])
  }

  function SommePoids(ks: seq<Critere>): real
  {
    if ks == [] then 0.0 else SommePoids(ks[..|ks| - 1]) + Poids(ks[|ks| - 1])
  }

  /** The accumulation over `ks`, one criterion after the other. */
  function Evaluer(c: Culture, a: AnalyseData, ks: seq<Critere>): (e: Evaluation)
    ensures 0.0 <= e.scoreTotal <= e.criteresTotal
  {
    if ks == [] then Evaluation(0.0, 0.0, [])
    else
      var e := Evaluer(c, a, ks[..|ks| - 1]);
      var k := ks[|ks| - 1];
      if Evalue(c, a, k) then
        var s := ScoreCritere(Valeur(a, k), Plage(c, k).min.value, Plage(c, k).max.value, Poids(k));
        Evaluation(e.scoreTotal + s, e.criteresTotal + Poids(k),
                   e.details + [Detail(k, s, Plage(c, k).min.value, Plage(c, k).max.value, Valeur(a, k))])
      else e
  }

  /** A criterion adds its weight to the denominator and one entry to
      `details` exactly when it is evaluated: the details name the evaluated
      criteria in visiting order, and the denominator is their total weight. */
  lemma {:induction false} EvaluerCounts(c: Culture, a: AnalyseData, ks: seq<Critere>)
    ensures var e := Evaluer(c, a, ks);
      && |e.details| == |Evalues(c, a, ks)|
      && (forall i :: 0 <= i < |e.details| ==> e.details[i].critere == Evalues(c, a, ks)[i])
      && e.criteresTotal == SommePoids(Evalues(c, a, ks))
  {
    if ks != [] {
      EvaluerCounts(c, a, ks[..|ks| - 1]);
      var pre := Evalues(c, a, ks[..|ks| - 1]);
      var k := ks[|ks| - 1];
      if Evalue(c, a, k) {
        assert Evalues(c, a, ks) == pre + [k];
        assert (pre + [k])[..|pre|] == pre;
        assert SommePoids(pre + [k]) == SommePoids(pre) + Poids(k);
      } else {
        assert Evalues(c, a, ks) == pre;
      }
    }
  }

  /** Nothing is counted exactly when no criterion of `ks` is evaluated. */
  lemma {:induction false} NothingCountedIffNoneEvaluated(c: Culture, a: AnalyseData, ks: seq<Critere>)
    ensures Evaluer(c, a, ks).criteresTotal == 0.0
        <==> forall i :: 0 <= i < |ks| ==> !Evalue(c, a, ks[i])
    ensures Evaluer(c, a, ks).criteresTotal == 0.0 ==> Evaluer(c, a, ks).details == []
  {
    if ks != [] {
      NothingCountedIffNoneEvaluated(c, a, ks[..|ks| - 1]);
    }
  }

  /** When every evaluated value lies in its range, the weighted scores add
      up to the full denominator. */
  lemma {:induction false} AllInRangeFullTotal(c: Culture, a: AnalyseData, ks: seq<Critere>)
    requires forall i :: 0 <= i < |ks| && Evalue(c, a, ks[i]) ==> DansLaPlage(c, a, ks[i])
    ensures Evaluer(c, a, ks).scoreTotal == Evaluer(c, a, ks).criteresTotal
  {
    if ks != [] {
      AllInRangeFullTotal(c, a, ks[..|ks| - 1]);
    }
  }

  datatype Niveau = Excellente | Bonne | Moyenne | Faible

  /** The message band of a final score. */
  function NiveauDe(score: int): (n: Niveau)
    ensures n == Excellente <==> 80 <= score
    ensures n == Bonne <==> 60 <= score < 80
    ensures n == Moyenne <==> 40 <= score < 60
    ensures n == Faible <==> score < 40
  {
    if score >= 80 then Excellente
    else if score >= 60 then Bonne
    else if score >= 40 then Moyenne
    else Faible
  }

  /** The opening words of each band's text. */
  function Entete(n: Niveau): (h: string)
    ensures |h| > 0
    ensures h[0] == match n case Excellente => 'E' case Bonne => 'B' case Moyenne => 'C' case Faible => 'F'
  {
    match n
    case Excellente => "Excellente compatibilité avec "
    case Bonne => "Bonne compatibilité avec "
    case Moyenne => "Compatibilité moyenne avec "
    case Faible => "Faible compatibilité avec "
  }

  /** The recommendation text of each band: the band's opening words, then
      the crop's name. */
  function Message(n: Niveau, nom: string): (r: string)
    ensures |Entete(n)| + |nom| <= |r|
    ensures r[..|Entete(n)|] == Entete(n)
    ensures r[|Entete(n)|..|Entete(n)| + |nom|] == nom
  {
    match n
    case Excellente => "Excellente compatibilité avec " + nom + ". Votre sol est idéal pour cette culture."
    case Bonne => "Bonne compatibilité avec " + nom + ". Quelques ajustements mineurs pourraient améliorer les résultats."
    case Moyenne => "Compatibilité moyenne avec " + nom + ". Des améliorations sont nécessaires pour de bons rendements."
    case Faible => "Faible compatibilité avec " + nom + ". Des modifications importantes du sol sont nécessaires."
  }

  /** The band can be read back from the text: two bands never share a
      message, whatever the crops' names. */
  lemma MessageDistingueNiveau(n1: Niveau, n2: Niveau, nom1: string, nom2: string)
    requires Message(n1, nom1) == Message(n2, nom2)
    ensures n1 == n2
  {
    var m := Message(n1, nom1);
    var h1, h2 := Entete(n1), Entete(n2);
    assert m[..|h1|] == h1 && m[..|h2|] == h2;
    assert m[..|h1|][0] == m[0] == m[..|h2|][0];
  }

  /** The result of `calculerCompatibilite`. */
  datatype Compatibilite = Compatibilite(score: int, details: seq<Detail>, message: string)

  /** The rounded weighted average in percent; 0 when nothing was counted. */
  function Pourcentage(scoreTotal: real, criteresTotal: real): (p: int)
    requires 0.0 <= scoreTotal <= criteresTotal
    ensures 0 <= p <= 100
  {
    if criteresTotal > 0.0 then
      PercentBounds(scoreTotal, criteresTotal);
      Round(scoreTotal / criteresTotal * 100.0)
    else 0
  }

  /** `calculerCompatibilite`: the rounded weighted average in 0..100 (0 when
      no criterion was counted) and the message of its band. */
  function CalculerCompatibilite(c: Culture, a: AnalyseData): (r: Compatibilite)
    ensures 0 <= r.score <= 100
  {
    var e := Evaluer(c, a, Criteres);
    var score := Pourcentage(e.scoreTotal, e.criteresTotal);
    Compatibilite(score, e.details, Message(NiveauDe(score), c.nom))
  }

  /** A crop none of whose criteria can be evaluated against the reading
      scores 0, with a "poor" message and no details. */
  lemma NoCriterionScoresZero(c: Culture, a: AnalyseData)
    requires forall i :: 0 <= i < |Criteres| ==> !Evalue(c, a, Criteres[i])
    ensures CalculerCompatibilite(c, a).score == 0
    ensures CalculerCompatibilite(c, a).details == []
    ensures CalculerCompatibilite(c, a).message == Message(Faible, c.nom)
  {
    NothingCountedIffNoneEvaluated(c, a, Criteres);
    EvaluerCounts(c, a, Criteres);
  }

  /** A reading inside every evaluated range, with at least one evaluated
      criterion, scores 100 and is "excellent". */
  lemma AllInRangeScoresHundred(c: Culture, a: AnalyseData)
    requires exists i :: 0 <= i < |Criteres| && Evalue(c, a, Criteres[i])
    requires forall i :: 0 <= i < |Criteres| && Evalue(c, a, Criteres[i]) ==> DansLaPlage(c, a, Criteres[i])
    ensures CalculerCompatibilite(c, a).score == 100
    ensures CalculerCompatibilite(c, a).message == Message(Excellente, c.nom)
  {
    NothingCountedIffNoneEvaluated(c, a, Criteres);
    AllInRangeFullTotal(c, a, Criteres);
    var e := Evaluer(c, a, Criteres);
    var i :| 0 <= i < |Criteres| && Evalue(c, a, Criteres[i]);
    assert e.criteresTotal != 0.0;
    assert e.scoreTotal == e.criteresTotal;
    RatioOfEqualsIsOne(e.scoreTotal, e.criteresTotal);
  }

  lemma RatioOfEqualsIsOne(s: real, t: real)
    requires t != 0.0 && s == t
    ensures s / t * 100.0 == 100.0
  {
  }

  /** The reading with criterion `k` replaced by `r`. */
  function AvecValeur(a: AnalyseData, k: Critere, r: Reading): (b: AnalyseData)
    ensures Valeur(b, k) == r
    ensures forall k' :: k' != k ==> Valeur(b, k') == Valeur(a, k')
  {
    match k
    case Ph => a.(ph := r)
    case Humidite => a.(humidite := r)
    case Temperature => a.(temperature := r)
    case Conductivite => a.(conductivite := r)
    case Azote => a.(azote := r)
    case Phosphore => a.(phosphore := r)
    case Potassium => a.(potassium := r)
  }

  /** The fold only sees which criteria are evaluated and their readings. */
  lemma {:induction false} EvaluerDependsOnEvaluated(c: Culture, a1: AnalyseData, a2: AnalyseData, ks: seq<Critere>)
    requires forall k :: Evalue(c, a1, k) <==> Evalue(c, a2, k)
    requires forall k :: Evalue(c, a1, k) ==> Valeur(a1, k) == Valeur(a2, k)
    ensures Evaluer(c, a1, ks) == Evaluer(c, a2, ks)
  {
    if ks != [] {
      EvaluerDependsOnEvaluated(c, a1, a2, ks[..|ks| - 1]);
    }
  }

  /** A pH, humidity, temperature or EC reading of 0 is falsy, so it is
      skipped exactly like a missing one. */
  lemma ZeroReadingIgnored(c: Culture, a: AnalyseData, k: Critere)
    requires !EstNutriment(k)
    ensures CalculerCompatibilite(c, AvecValeur(a, k, Num(0.0)))
         == CalculerCompatibilite(c, AvecValeur(a, k, Undefined))
  {
    EvaluerDependsOnEvaluated(c, AvecValeur(a, k, Num(0.0)), AvecValeur(a, k, Undefined), Criteres);
  }

  /** A `null` nutrient passes the `!== undefined` gate: it adds its weight
      to the denominator and nothing to the total. */
  lemma {:induction false} EvaluerNullNutrient(c: Culture, a: AnalyseData, k: Critere, ks: seq<Critere>)
    requires EstNutriment(k) && Plage(c, k).min.Some? && Plage(c, k).max.Some?
    ensures var e0 := Evaluer(c, AvecValeur(a, k, Undefined), ks);
      var e1 := Evaluer(c, AvecValeur(a, k, Null), ks);
      && e1.scoreTotal == e0.scoreTotal
      && e1.criteresTotal == e0.criteresTotal + multiset(ks)[k] as real * Poids(k)
  {
    if ks != [] {
      var pre := ks[..|ks| - 1];
      EvaluerNullNutrient(c, a, k, pre);
      assert ks == pre + [ks[|ks| - 1]];
      assert multiset(ks) == multiset(pre) + multiset{ks[|ks| - 1]};
    }
  }

  /** A `null` nutrient leaves the total as it is and adds its weight to the
      denominator when both its bounds are set; otherwise it changes nothing. */
  lemma NullNutrientEvaluation(c: Culture, a: AnalyseData, k: Critere)
    requires EstNutriment(k)
    ensures var e0 := Evaluer(c, AvecValeur(a, k, Undefined), Criteres);
      var e1 := Evaluer(c, AvecValeur(a, k, Null), Criteres);
      && e1.scoreTotal == e0.scoreTotal
      && e1.criteresTotal
         == e0.criteresTotal + (if Plage(c, k).min.Some? && Plage(c, k).max.Some? then Poids(k) else 0.0)
  {
    if !(Plage(c, k).min.Some? && Plage(c, k).max.Some?) {
      EvaluerDependsOnEvaluated(c, AvecValeur(a, k, Null), AvecValeur(a, k, Undefined), Criteres);
    } else {
      EvaluerNullNutrient(c, a, k, Criteres);
      VisitedOnce(k);
    }
  }

  /** Sending a nutrient as `null` never scores better than leaving it out. */
  lemma NullNutrientNeverHelps(c: Culture, a: AnalyseData, k: Critere)
    requires EstNutriment(k)
    ensures CalculerCompatibilite(c, AvecValeur(a, k, Null)).score
         <= CalculerCompatibilite(c, AvecValeur(a, k, Undefined)).score
  {
    var a0, a1 := AvecValeur(a, k, Undefined), AvecValeur(a, k, Null);
    var e0, e1 := Evaluer(c, a0, Criteres), Evaluer(c, a1, Criteres);
    NullNutrientEvaluation(c, a, k);
    ScoreIsPercentage(c, a0);
    ScoreIsPercentage(c, a1);
    if Plage(c, k).min.Some? && Plage(c, k).max.Some? {
      LargerDenominator(e0.scoreTotal, e0.criteresTotal, Poids(k));
    }
  }

  /** The score is the rounded percentage of the evaluation. */
  lemma ScoreIsPercentage(c: Culture, a: AnalyseData)
    ensures var e := Evaluer(c, a, Criteres);
      CalculerCompatibilite(c, a).score == Pourcentage(e.scoreTotal, e.criteresTotal)
  {
  }

  /** Each criterion is visited exactly once. */
  lemma VisitedOnce(k: Critere)
    ensures multiset(Criteres)[k] == 1
  {
    match k
    case Ph =>
    case Humidite =>
    case Temperature =>
    case Conductivite =>
    case Azote =>
    case Phosphore =>
    case Potassium =>
  }

  /** Adding weight to the denominator alone never raises the percentage. */
  lemma LargerDenominator(s: real, t: real, w: real)
    requires 0.0 <= s <= t && w > 0.0
    ensures Pourcentage(s, t + w) <= Pourcentage(s, t)
  {
    if t > 0.0 {
      SmallerRatio(s, t, t + w);
      RoundMonotone(s / (t + w) * 100.0, s / t * 100.0);
    } else {
      assert s == 0.0;
    }
  }

  /** s / u <= s / t for 0 <= s and 0 < t <= u. */
  lemma SmallerRatio(s: real, t: real, u: real)
    requires 0.0 <= s && 0.0 < t <= u
    ensures s / u * 100.0 <= s / t * 100.0
  {
    var q1, q2 := s / u, s / t;
    assert q1 * u == s && q2 * t == s;
  }

  /** A recommendation as `creerAnalyseSol` pushes it. */
  datatype Recommandation = Recommandation(
    cultureId: nat,
    nom: string,
    score: int,
    details: seq<Detail>,
    message: string,
    rendementMoyen: string,
    typeEngrais: string)

  function Recommander(c: Culture, a: AnalyseData): (r: Recommandation)
    ensures r.cultureId == c.id && 0 <= r.score <= 100
  {
    var compatibilite := CalculerCompatibilite(c, a);
    Recommandation(c.id, c.nom, compatibilite.score, compatibilite.details,
                   compatibilite.message, c.rendementMoyen, c.typeEngrais)
  }

  /** The active crops, in catalogue order (`findAll` on `est_active`). */
  function Actives(cultures: seq<Culture>): (r: seq<Culture>)
    ensures forall x :: x in r <==> x in cultures && x.estActive
  {
    if cultures == [] then []
    else Actives(cultures[..|cultures| - 1])
         + (if cultures[|cultures| - 1].estActive then [cultures[|cultures| - 1]] else [])
  }

  function ScoreDe(r: Recommandation): int { r.score }

  /** The scoring loop of `creerAnalyseSol` and its final sort: one
      recommendation per active crop, in catalogue order (the persisted
      rows), then the same recommendations by non-increasing score, ties
      in catalogue order. */
  method CreerRecommandations(cultures: seq<Culture>, a: AnalyseData)
    returns (enregistrees: seq<Recommandation>, classees: seq<Recommandation>)
    ensures |enregistrees| == |Actives(cultures)|
    ensures forall i :: 0 <= i < |enregistrees| ==>
      enregistrees[i] == Recommander(Actives(cultures)[i], a)
    ensures StableSort.NonIncreasing(classees, ScoreDe)
    ensures multiset(classees) == multiset(enregistrees)
    ensures forall k :: StableSort.WithKey(classees, ScoreDe, k) == StableSort.WithKey(enregistrees, ScoreDe, k)
  {
    var actives := Actives(cultures);
    var recommandations: seq<Recommandation> := [];
    for i := 0 to |actives|
      invariant |recommandations| == i
      invariant forall j :: 0 <= j < i ==> recommandations[j] == Recommander(actives[j], a)
    {
      recommandations := recommandations + [Recommander(actives[i], a)];
    }
    enregistrees := recommandations;
    classees := StableSort.SortDesc(recommandations, ScoreDe);
    StableSort.SortDescOrdered(recommandations, ScoreDe);
    StableSort.SortDescPermutes(recommandations, ScoreDe);
    forall k ensures StableSort.WithKey(classees, ScoreDe, k) == StableSort.WithKey(enregistrees, ScoreDe, k) {
      StableSort.SortDescStable(recommandations, ScoreDe, k);
    }
  }
}
