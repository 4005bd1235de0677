/** The rule-based nudges of `app/api/nudges/route.ts` over a window of daily waste logs. */
module Nudges {
  import opened Json
  import opened JsMath
  import Seqs

  /** A `waste_logs` row, as far as the rules read it: either mass may be null. */
  datatype WasteLog = WasteLog(totalKg: Option<real>, plasticKg: Option<real>)

  /** `value || 0`: a missing mass counts as 0. */
  function OrZero(v: Option<real>): real {
    if v.Some? then v.value else 0.0
  }

  function TotalOf(log: WasteLog): real {
    OrZero(log.totalKg)
  }

  function PlasticOf(log: WasteLog): real {
    OrZero(log.plasticKg)
  }

  /** `totalWaste`, summed from the left as `reduce` does. */
  function TotalWaste(logs: seq<WasteLog>): real {
    Seqs.Sum(logs, TotalOf)
  }

  /** `plasticWaste`. */
  function PlasticWaste(logs: seq<WasteLog>): real {
    Seqs.Sum(logs, PlasticOf)
  }

  /** `avgDaily`: total mass over the number of logs. */
  function AvgDaily(logs: seq<WasteLog>): real
    requires |logs| > 0
  {
    TotalWaste(logs) / |logs| as real
  }

  /** A nudge: its kind and the number its text quotes (the text itself is not
      modelled). `Success` quotes the daily average and `Tip` the projected
      monthly saving in rupees. */
  datatype Nudge = Info | Success(avgDaily: real) | Warning | Tip(monthlySavingsInr: int)

  /** The fixed position of each kind in the output. */
  function Rank(n: Nudge): int {
    match n
    case Info => 0
    case Success(_) => 1
    case Warning => 2
    case Tip(_) => 3
  }

  /** `generateNudges`. */
  function GenerateNudges(logs: seq<WasteLog>): (r: seq<Nudge>)
    ensures |logs| == 0 ==> r == [Info]
    ensures |logs| > 0 ==> 1 <= |r| <= 3 && r[|r| - 1] == Tip(Round(AvgDaily(logs) * 240.0))
    ensures |logs| > 0 ==> forall i :: 0 <= i < |r| - 1 ==> !r[i].Tip? && !r[i].Info?
    ensures |logs| > 0 ==> ((exists i :: 0 <= i < |r| && r[i].Success?) <==> AvgDaily(logs) < 3.0)
    ensures |logs| > 0 ==> forall i :: 0 <= i < |r| && r[i].Success? ==> r[i].avgDaily == AvgDaily(logs)
    ensures |logs| > 0 ==> (Warning in r <==> PlasticWaste(logs) > 0.3 * TotalWaste(logs))
    ensures forall i, j :: 0 <= i < j < |r| ==> Rank(r[i]) < Rank(r[j])
  {
    if |logs| == 0 then [Info]
    else
      var totalWaste := TotalWaste(logs);
      var avgDaily := totalWaste / |logs| as real;
      var plasticWaste := PlasticWaste(logs);
      var r := (if avgDaily < 3.0 then [Success(avgDaily)] else [])
        + (if plasticWaste > totalWaste * 0.3 then [Warning] else [])
        + [Tip(Round(avgDaily * 8.0 * 30.0))];
      assert avgDaily < 3.0 ==> r[0].Success?;
      r
  }

  /** A log whose missing masses are written out as zeros. */
  function FillZeros(log: WasteLog): WasteLog {
    WasteLog(Some(TotalOf(log)), Some(PlasticOf(log)))
  }

  /** Missing masses and explicit zeros give the same nudges. */
  lemma MissingCountsAsZero(logs: seq<WasteLog>)
    ensures GenerateNudges(logs) == GenerateNudges(seq(|logs|, i requires 0 <= i < |logs| => FillZeros(logs[i])))
  {
    var filled := seq(|logs|, i requires 0 <= i < |logs| => FillZeros(logs[i]));
    Seqs.SumPointwise(logs, TotalOf, filled, TotalOf);
    Seqs.SumPointwise(logs, PlasticOf, filled, PlasticOf);
  }

  /** When every day stays at or under some `hi` below 3 kg, the success nudge fires. */
  lemma LowDailyWasteIsPraised(logs: seq<WasteLog>, hi: real)
    requires |logs| > 0 && hi < 3.0
    requires forall log :: log in logs ==> TotalOf(log) <= hi
    ensures Success(AvgDaily(logs)) in GenerateNudges(logs)
  {
    Seqs.SumAtMost(logs, TotalOf, hi);
    var r := GenerateNudges(logs);
    var i :| 0 <= i < |r| && r[i].Success?;
  }

  /** When no single day has more than 30% plastic, the warning does not fire. */
  lemma PlasticShareBoundedNoWarning(logs: seq<WasteLog>)
    requires |logs| > 0
    requires forall log :: log in logs ==> PlasticOf(log) <= 0.3 * TotalOf(log)
    ensures Warning !in GenerateNudges(logs)
  {
    Seqs.SumScaledBound(logs, PlasticOf, TotalOf, 0.3);
  }
}
