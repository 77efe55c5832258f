/**
 * The de-duplication step of the forecast endpoint: forecasts come in a
 * list, and for each calendar day (the UTC date of `forecast_date`) only
 * the one with the greatest `last_updated` is kept, the first one seen
 * winning a tie.  The days come out in the order in which they first
 * appear.
 */
module Previsions {

  /** Milliseconds in a day: `toISOString().split('T')[0]` names the UTC day
      of a millisecond timestamp. */
  const MsParJour: int := 86400000

  /** A forecast row: its id, `forecast_date` and `last_updated`, both in
      milliseconds since the epoch. */
  datatype Prevision = Prevision(id: nat, forecastDate: int, lastUpdated: int)

  /** The date key of a forecast, as a UTC day number: the day whose
      midnight-to-midnight interval holds `forecast_date`, rounding down
      before the epoch as the calendar does. */
  function Cle(p: Prevision): (k: int)
    ensures k * MsParJour <= p.forecastDate < (k + 1) * MsParJour
  {
    p.forecastDate / MsParJour
  }

  /** The date keys in the order in which they first appear. */
  function Cles(fs: seq<Prevision>): seq<int>
  {
    if fs == [] then []
    else
      var r := Cles(fs[..|fs| - 1]);
      if Cle(fs[|fs| - 1]) in r then r else r + [Cle(fs[|fs| - 1])]
  }

  /** No date key is listed twice. */
  lemma {:induction false} ClesDistinct(fs: seq<Prevision>)
    ensures forall a, b :: 0 <= a < b < |Cles(fs)| ==> Cles(fs)[a] != Cles(fs)[b]
  {
    if fs != [] {
      var pre := fs[..|fs| - 1];
      ClesDistinct(pre);
      var rp := Cles(pre);
      var k := Cle(fs[|fs| - 1]);
      if k !in rp {
        var r := rp + [k];
        assert Cles(fs) == r;
        forall a, b | 0 <= a < b < |r| ensures r[a] != r[b] {
          assert r[a] == rp[a];
          if b == |rp| {
            assert rp[a] in rp;
          } else {
            assert r[b] == rp[b];
          }
        }
      }
    }
  }

  /** The listed keys are exactly the keys of the input's forecasts. */
  lemma {:induction false} ClesMembres(fs: seq<Prevision>, k: int)
    ensures k in Cles(fs) <==> exists j :: 0 <= j < |fs| && Cle(fs[j]) == k
  {
    if fs != [] {
      var pre := fs[..|fs| - 1];
      ClesMembres(pre, k);
      var rp := Cles(pre);
      var n := |fs| - 1;
      assert Cles(fs) == if Cle(fs[n]) in rp then rp else rp + [Cle(fs[n])];
      if k in Cles(fs) {
        if k in rp {
          var j :| 0 <= j < |pre| && Cle(pre[j]) == k;
          assert fs[j] == pre[j];
        } else {
          assert Cle(fs[n]) == k;
        }
      }
      if exists j :: 0 <= j < |fs| && Cle(fs[j]) == k {
        var j :| 0 <= j < |fs| && Cle(fs[j]) == k;
        if j < n {
          assert pre[j] == fs[j];
          assert k in rp;
        } else {
          assert Cle(fs[n]) == k;
        }
      }
    }
  }

  /** A key listed before another occurs in the input before any
      occurrence of the other. */
  lemma {:induction false} ClesOrder(fs: seq<Prevision>, a: nat, b: nat, j: nat)
    requires a < b < |Cles(fs)| && j < |fs| && Cle(fs[j]) == Cles(fs)[b]
    ensures exists i :: 0 <= i < j && Cle(fs[i]) == Cles(fs)[a]
  {
    var pre := fs[..|fs| - 1];
    var r := Cles(pre);
    var n := |fs| - 1;
    ClesDistinct(pre);
    assert forall i :: 0 <= i < |pre| ==> pre[i] == fs[i];
    if b < |r| {
      assert Cles(fs)[a] == r[a] && Cles(fs)[b] == r[b];
      if j < |pre| {
        ClesOrder(pre, a, b, j);
      } else {
        // the last forecast's key was already listed, so it occurred earlier
        ClesMembres(pre, Cle(fs[j]));
        assert Cle(fs[j]) in r;
        var j' :| 0 <= j' < |pre| && Cle(pre[j']) == Cle(fs[j]);
        ClesOrder(pre, a, b, j');
      }
    } else {
      // Cles(fs)[b] is the last forecast's key, new to the prefix
      assert Cles(fs) == r + [Cle(fs[n])];
      assert Cles(fs)[a] == r[a] && r[a] in r;
      ClesMembres(pre, r[a]);
      ClesMembres(pre, Cle(fs[n]));
      var i :| 0 <= i < |pre| && Cle(pre[i]) == r[a];
      assert j == n;
      assert fs[i] == pre[i];
    }
  }

  /** The dictionary and its key order after the loop has seen `fs`: a
      forecast is stored under its key when the key is new or its
      `last_updated` is strictly greater than the stored one's. */
  function Grouper(fs: seq<Prevision>): (r: (map<int, Prevision>, seq<int>))
    ensures |r.1| <= |fs|
    ensures forall k :: k in r.0 ==> Cle(r.0[k]) == k
  {
    if fs == [] then (map[], [])
    else
      var (groupes, cles) := Grouper(fs[..|fs| - 1]);
      var f := fs[|fs| - 1];
      var k := Cle(f);
      if k !in groupes then (groupes[k := f], cles + [k])
      else if f.lastUpdated > groupes[k].lastUpdated then (groupes[k := f], cles)
      else (groupes, cles)
  }

  /** The dictionary holds exactly the listed keys. */
  lemma {:induction false} GrouperDomaine(fs: seq<Prevision>, k: int)
    ensures k in Grouper(fs).0 <==> k in Grouper(fs).1
  {
    if fs != [] {
      var pre := fs[..|fs| - 1];
      GrouperDomaine(pre, k);
      GrouperDomaine(pre, Cle(fs[|fs| - 1]));
    }
  }

  /** The key order is the order of first appearance. */
  lemma {:induction false} GrouperCles(fs: seq<Prevision>)
    ensures Grouper(fs).1 == Cles(fs)
  {
    if fs != [] {
      var pre := fs[..|fs| - 1];
      GrouperCles(pre);
      GrouperDomaine(pre, Cle(fs[|fs| - 1]));
    }
  }

  /** A forecast seen is under its key in the dictionary, with a
      `last_updated` no greater than the stored one's. */
  lemma {:induction false} GrouperNewest(fs: seq<Prevision>, j: nat)
    requires j < |fs|
    ensures Cle(fs[j]) in Grouper(fs).0
    ensures fs[j].lastUpdated <= Grouper(fs).0[Cle(fs[j])].lastUpdated
  {
    var pre := fs[..|fs| - 1];
    if j < |pre| {
      GrouperNewest(pre, j);
      assert pre[j] == fs[j];
    }
  }

  /** The position of the forecast stored under `k`. */
  ghost function Indice(fs: seq<Prevision>, k: int): nat
  {
    if fs == [] then 0
    else
      var pre := fs[..|fs| - 1];
      var gp := Grouper(pre).0;
      var f := fs[|fs| - 1];
      if Cle(f) == k && (k !in gp || f.lastUpdated > gp[k].lastUpdated) then |fs| - 1
      else Indice(pre, k)
  }

  /** The forecast stored under a key was seen under that key, and every
      forecast of that key seen before it has a strictly smaller
      `last_updated`: among ties the first one seen stays. */
  lemma {:induction false} GrouperKept(fs: seq<Prevision>, k: int)
    requires k in Grouper(fs).0
    ensures Indice(fs, k) < |fs| && fs[Indice(fs, k)] == Grouper(fs).0[k] && Cle(fs[Indice(fs, k)]) == k
    ensures forall i :: 0 <= i < Indice(fs, k) && Cle(fs[i]) == k ==> fs[i].lastUpdated < fs[Indice(fs, k)].lastUpdated
  {
    var pre := fs[..|fs| - 1];
    var gp := Grouper(pre).0;
    var n := |fs| - 1;
    if Cle(fs[n]) == k && (k !in gp || fs[n].lastUpdated > gp[k].lastUpdated) {
      forall i | 0 <= i < n && Cle(fs[i]) == k ensures fs[i].lastUpdated < fs[n].lastUpdated {
        GrouperNewest(pre, i);
        assert pre[i] == fs[i];
      }
    } else {
      GrouperKept(pre, k);
      var m := Indice(pre, k);
      assert pre[m] == fs[m];
      forall i | 0 <= i < m && Cle(fs[i]) == k ensures fs[i].lastUpdated < fs[m].lastUpdated {
        assert pre[i] == fs[i];
      }
    }
  }

  /** The grouping loop of `getForecast` followed by `Object.values`. */
  method GrouperPrevisions(fs: seq<Prevision>) returns (out: seq<Prevision>)
    ensures |out| == |Cles(fs)|
    ensures forall n :: 0 <= n < |out| ==> Cle(out[n]) == Cles(fs)[n]
    ensures forall n :: 0 <= n < |out| ==> out[n] in fs
    ensures forall n, j :: 0 <= n < |out| && 0 <= j < |fs| && Cle(fs[j]) == Cle(out[n]) ==>
              fs[j].lastUpdated <= out[n].lastUpdated
    ensures forall n :: 0 <= n < |out| ==>
              exists j :: 0 <= j < |fs| && fs[j] == out[n] &&
                forall i :: 0 <= i < j && Cle(fs[i]) == Cle(fs[j]) ==> fs[i].lastUpdated < fs[j].lastUpdated
  {
    var groupes: map<int, Prevision> := map[];
    var cles: seq<int> := [];
    for i := 0 to |fs|
      invariant (groupes, cles) == Grouper(fs[..i])
    {
      assert fs[..i + 1][..i] == fs[..i];
      var f := fs[i];
      var k := Cle(f);
      if k !in groupes || f.lastUpdated > groupes[k].lastUpdated {
        if k !in groupes {
          cles := cles + [k];
        }
        groupes := groupes[k := f];
      }
    }
    assert fs[..|fs|] == fs;
    GrouperCles(fs);
    assert groupes == Grouper(fs).0 && cles == Grouper(fs).1;
    forall n | 0 <= n < |cles| ensures cles[n] in groupes {
      GrouperDomaine(fs, cles[n]);
    }
    out := seq(|cles|, n requires 0 <= n < |cles| => groupes[cles[n]]);
    forall n | 0 <= n < |out|
      ensures Cle(out[n]) == Cles(fs)[n] && out[n] in fs
      ensures exists j :: 0 <= j < |fs| && fs[j] == out[n] &&
                forall i :: 0 <= i < j && Cle(fs[i]) == Cle(fs[j]) ==> fs[i].lastUpdated < fs[j].lastUpdated
    {
      GrouperKept(fs, cles[n]);
      var j := Indice(fs, cles[n]);
      assert fs[j] == out[n];
    }
    forall n, j | 0 <= n < |out| && 0 <= j < |fs| && Cle(fs[j]) == Cle(out[n])
      ensures fs[j].lastUpdated <= out[n].lastUpdated
    {
      GrouperNewest(fs, j);
      GrouperKept(fs, cles[n]);
    }
  }
}
