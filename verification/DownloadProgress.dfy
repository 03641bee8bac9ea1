/** Counting a download and rendering its size. */
module DownloadProgress {
  import opened Options

  const REPORT_EVERY := 5 * 1024 * 1024
  const UNIT := 1024
  const MAX_INT64 := 0x7FFF_FFFF_FFFF_FFFF

  // A download; total is not positive when its length is unknown. reports holds the counts passed to the callback.
  class ProgressReader {
    const total: int
    var downloaded: nat
    var lastReported: nat
    ghost var reports: seq<nat>

    constructor (total: int)
      ensures Valid() && this.total == total && downloaded == 0 && reports == []
    {
      this.total, downloaded, lastReported, reports := total, 0, 0, [];
    }

    ghost predicate Valid()
      reads this
    {
      && lastReported == (if reports == [] then 0 else reports[|reports| - 1])
      && lastReported <= downloaded
      && (forall i, k | 0 <= i < k < |reports| :: reports[i] < reports[k])
      && (total <= 0 ==> lastReported == downloaded)
      && downloaded - lastReported < REPORT_EVERY
      && (downloaded == total ==> lastReported == downloaded)
    }

    /** Counts the n bytes of one read. The callback is never more than five mebibytes behind, and it hears of the end. */
    method Read(n: nat)
      requires Valid()
      modifies this
      ensures Valid() && downloaded == old(downloaded) + n
      ensures n > 0 && (total <= 0 || downloaded - old(lastReported) >= 5 * 1024 * 1024 || downloaded == total)
              ==> reports == old(reports) + [downloaded]
      ensures n == 0 || (total > 0 && downloaded - old(lastReported) < 5 * 1024 * 1024 && downloaded != total) ==> reports == old(reports)
    {
      if n > 0 {
        downloaded := downloaded + n;
        if total <= 0 || downloaded - lastReported >= REPORT_EVERY || downloaded == total {
          lastReported := downloaded;
          reports := reports + [downloaded];
        }
      }
    }
  }

  function Power(n: nat): nat {
    if n == 0 then 1 else UNIT * Power(n - 1)
  }

  // n units of div fit in size, and n + 1 do not.
  predicate Leading(size: nat, div: nat, n: nat) {
    n * div <= size < (n + 1) * div
  }

  lemma Scale(a: int, b: int, d: nat)
    requires a <= b
    ensures a * d <= b * d
  {
    assert b * d == a * d + (b - a) * d;
  }

  lemma Regroup(m: nat, div: nat)
    ensures m * (div * UNIT) == m * UNIT * div
  {
  }

  lemma LargerUnit(size: nat, div: nat, n: nat)
    requires Leading(size, div, n)
    ensures Leading(size, div * UNIT, n / UNIT)
  {
    var m := n / UNIT;
    Scale(m * UNIT, n, div);
    Scale(n + 1, (m + 1) * UNIT, div);
    Regroup(m, div);
    Regroup(m + 1, div);
  }

  lemma LeadingBounds(size: nat, div: nat, n: nat)
    requires Leading(size, div, n)
    ensures n >= 1 ==> size >= div
    ensures if n < UNIT then size < UNIT * div else size >= UNIT * div
  {
    if n >= 1 {
      Scale(1, n, div);
    }
    if n < UNIT {
      Scale(n + 1, UNIT, div);
    } else {
      Scale(UNIT, n, div);
    }
  }

  /** The unit loop of formatBytes: below a kibibyte there is no unit; otherwise the exponent indexes the six-letter unit
      table for every int64, and the number before the unit is at least 1 and below 1024. */
  method UnitOf(size: int) returns (unit: Option<(nat, nat)>)
    requires size <= MAX_INT64
    ensures unit.None? <==> size < 1024
    ensures unit.Some? ==>
              var (div, exp) := unit.value;
              exp < |"KMGTPE"| && div == Power(exp + 1) && div <= size < 1024 * div
  {
    if size < UNIT {
      return None;
    }
    var div, exp := UNIT, 0;
    var n := size / UNIT;
    assert Power(1) == UNIT * Power(0);
    while n >= UNIT
      invariant div == Power(exp + 1) && n >= 1 && exp <= 5 && Leading(size, div, n)
      decreases n
    {
      hide Leading;
      LeadingBounds(size, div, n);
      LargerUnit(size, div, n);
      if exp == 5 {
        PowerAt6();
      }
      assert Power(exp + 2) == UNIT * Power(exp + 1);
      div := div * UNIT;
      exp := exp + 1;
      n := n / UNIT;
    }
    LeadingBounds(size, div, n);
    return Some((div, exp));
  }

  lemma PowerAt6()
    ensures Power(6) == 0x1000_0000_0000_0000
  {
    assert Power(1) == 1024;
    assert Power(2) == 1024 * 1024;
    assert Power(3) == 1024 * Power(2);
    assert Power(4) == 1024 * Power(3);
    assert Power(5) == 1024 * Power(4);
  }
}
