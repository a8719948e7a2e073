// The capacity guard, over exact percentages.

module Quota {
  import opened CloudDomain

  const DEFAULT_THRESHOLD := 90.0

  datatype Capacity = Capacity(used: int, total: int) {
    function UtilizationPct(): real {
      if total == 0 then 0.0 else used as real * 100.0 / total as real
    }
  }

  datatype Snapshot = Snapshot(vcpus: Capacity, ram: Capacity, disk: Capacity) {
    function MaxUtilizationPct(): real {
      var a, b, c := vcpus.UtilizationPct(), ram.UtilizationPct(), disk.UtilizationPct();
      var m := if b > a then b else a;
      if c > m then c else m
    }

    function PredictAfter(request: Amount): Snapshot {
      Snapshot(vcpus.(used := vcpus.used + request.vcpus),
               ram.(used := ram.used + request.ramMb),
               disk.(used := disk.used + request.diskGb))
    }
  }

  function Threshold(pct: real): real {
    if pct <= 0.0 then DEFAULT_THRESHOLD else pct
  }

  predicate Allowed(s: Snapshot, request: Amount, pct: real) {
    s.PredictAfter(request).MaxUtilizationPct() <= Threshold(pct)
  }

  // What is used and asked for is at most pct percent of the total. A total of
  // zero is unknown and admits anything; a negative one turns the comparison.
  ghost predicate WithinPct(c: Capacity, more: int, pct: real) {
    || c.total == 0
    || (c.total > 0 && (c.used + more) as real * 100.0 <= pct * c.total as real)
    || (c.total < 0 && (c.used + more) as real * 100.0 >= pct * c.total as real)
  }

  lemma DivisionAgainst(a: real, b: real, t: real)
    requires b != 0.0
    ensures a / b <= t <==> if b > 0.0 then a <= t * b else a >= t * b
  {
    assert a == (a / b) * b;
    if b > 0.0 {
      if a / b <= t {
        assert (t - a / b) * b >= 0.0;
      } else {
        assert (a / b - t) * b > 0.0;
      }
    } else {
      if a / b <= t {
        assert (t - a / b) * b <= 0.0;
      } else {
        assert (a / b - t) * b < 0.0;
      }
    }
  }

  lemma CapacityAgainst(c: Capacity, more: int, t: real)
    requires t >= 0.0
    ensures c.(used := c.used + more).UtilizationPct() <= t <==> WithinPct(c, more, t)
  {
    if c.total != 0 {
      DivisionAgainst((c.used + more) as real * 100.0, c.total as real, t);
    }
  }

  lemma MaxAgainst(s: Snapshot, t: real)
    ensures s.MaxUtilizationPct() <= t
      <==> s.vcpus.UtilizationPct() <= t && s.ram.UtilizationPct() <= t && s.disk.UtilizationPct() <= t
  {
    hide Capacity.UtilizationPct;
  }

  // A deploy is admitted exactly when every resource whose total is known stays
  // within the configured percentage, or within 90 if none is configured.
  lemma AllowedIffAllWithin(s: Snapshot, request: Amount, pct: real)
    ensures pct > 0.0 ==> (Allowed(s, request, pct) <==>
      && WithinPct(s.vcpus, request.vcpus, pct)
      && WithinPct(s.ram, request.ramMb, pct)
      && WithinPct(s.disk, request.diskGb, pct))
    ensures pct <= 0.0 ==> (Allowed(s, request, pct) <==>
      && WithinPct(s.vcpus, request.vcpus, 90.0)
      && WithinPct(s.ram, request.ramMb, 90.0)
      && WithinPct(s.disk, request.diskGb, 90.0))
  {
    hide Capacity.UtilizationPct, WithinPct, Snapshot.MaxUtilizationPct;
    var t := Threshold(pct);
    CapacityAgainst(s.vcpus, request.vcpus, t);
    CapacityAgainst(s.ram, request.ramMb, t);
    CapacityAgainst(s.disk, request.diskGb, t);
    MaxAgainst(s.PredictAfter(request), t);
  }

  // Admitting two requests together is admitting the second after the first.
  lemma BatchIsSequence(s: Snapshot, a: Amount, b: Amount, pct: real)
    ensures Allowed(s, a.Plus(b), pct) == Allowed(s.PredictAfter(a), b, pct)
  {
    assert s.PredictAfter(a.Plus(b)) == s.PredictAfter(a).PredictAfter(b);
  }
}
