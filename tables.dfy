/** The driver's lookup tables and the two searches over them:
    convert_to_reg (value to register step) and the battery-to-system
    over-current threshold selection of max77665_set_bat_oc_threshold. */
module Tables {
  import opened Registers

  /** chg_cc: fast-charge current in mA, one entry per register step. */
  const ChgCc: seq<int> :=
    [0, 33, 66, 99, 133, 166, 199, 233, 266, 299]
    + [333, 366, 399, 432, 466, 499, 532, 566, 599, 632]
    + [666, 699, 732, 765, 799, 832, 865, 899, 932, 965]
    + [999, 1032, 1065, 1098, 1132, 1165, 1198, 1232, 1265]
    + [1298, 1332, 1365, 1398, 1421, 1465, 1498, 1531, 1565]
    + [1598, 1631, 1665, 1698, 1731, 1764, 1798, 1831, 1864]
    + [1898, 1931, 1964, 1998, 2031, 2064, 2097]

  /** chg_cv_prm: primary charge termination voltage in mV. */
  const ChgCvPrm: seq<int> := [
    3650, 3675, 3700, 3725, 3750,
    3775, 3800, 3825, 3850, 3875,
    3900, 3925, 3950, 3975, 4000,
    4025, 4050, 4075, 4100, 4125,
    4150, 4175, 4200, 4225, 4250,
    4275, 4300, 4325, 4340, 4350,
    4375, 4400
  ]

  /** max77665_bat_to_sys_oc_thres: over-current thresholds in mA. */
  const BatToSysOcThresholds: seq<int> := [0, 3000, 3250, 3500, 3750, 4000, 4250, 4500]

  ghost predicate StrictlyIncreasing(t: seq<int>)
  {
    forall i :: 0 <= i < |t| - 1 ==> t[i] < t[i + 1]
  }

  /** Index `i` is the table step for `val`: its entry is at most `val`
      and the next entry (if any) is above it. */
  ghost predicate IsStep(tbl: seq<int>, val: int, i: int)
  {
    && 0 <= i < |tbl|
    && tbl[i] <= val
    && (i < |tbl| - 1 ==> val < tbl[i + 1])
  }

  lemma OcThresholdsStrictlyIncreasing()
    ensures StrictlyIncreasing(BatToSysOcThresholds)
  {
  }

  /** Each entry from index `k` on is below the next one. */
  predicate IncreasingFrom(t: seq<int>, k: nat)
    decreases |t| - k
  {
    k + 1 >= |t| || (t[k] < t[k + 1] && IncreasingFrom(t, k + 1))
  }

  lemma {:induction false} IncreasingFromGivesStrict(t: seq<int>, k: nat, i: int)
    requires IncreasingFrom(t, k)
    requires k <= i < |t| - 1
    ensures t[i] < t[i + 1]
    decreases i - k
  {
    if k < i {
      IncreasingFromGivesStrict(t, k + 1, i);
    }
  }

  /** chg_cc rises entry by entry from index 32 on. */
  lemma CcIncreasingFrom32()
    ensures IncreasingFrom(ChgCc, 32)
  {
    assert IncreasingFrom(ChgCc, 62);
    assert IncreasingFrom(ChgCc, 61);
    assert IncreasingFrom(ChgCc, 60);
    assert IncreasingFrom(ChgCc, 59);
    assert IncreasingFrom(ChgCc, 58);
    assert IncreasingFrom(ChgCc, 57);
    assert IncreasingFrom(ChgCc, 56);
    assert IncreasingFrom(ChgCc, 55);
    assert IncreasingFrom(ChgCc, 54);
    assert IncreasingFrom(ChgCc, 53);
    assert IncreasingFrom(ChgCc, 52);
    assert IncreasingFrom(ChgCc, 51);
    assert IncreasingFrom(ChgCc, 50);
    assert IncreasingFrom(ChgCc, 49);
    assert IncreasingFrom(ChgCc, 48);
    assert IncreasingFrom(ChgCc, 47);
    assert IncreasingFrom(ChgCc, 46);
    assert IncreasingFrom(ChgCc, 45);
    assert IncreasingFrom(ChgCc, 44);
    assert IncreasingFrom(ChgCc, 43);
    assert IncreasingFrom(ChgCc, 42);
    assert IncreasingFrom(ChgCc, 41);
    assert IncreasingFrom(ChgCc, 40);
    assert IncreasingFrom(ChgCc, 39);
    assert IncreasingFrom(ChgCc, 38);
    assert IncreasingFrom(ChgCc, 37);
    assert IncreasingFrom(ChgCc, 36);
    assert IncreasingFrom(ChgCc, 35);
    assert IncreasingFrom(ChgCc, 34);
    assert IncreasingFrom(ChgCc, 33);
    assert IncreasingFrom(ChgCc, 32);
  }

  /** chg_cc rises entry by entry. */
  lemma CcIncreasing()
    ensures IncreasingFrom(ChgCc, 0)
  {
    CcIncreasingFrom32();
    assert IncreasingFrom(ChgCc, 31);
    assert IncreasingFrom(ChgCc, 30);
    assert IncreasingFrom(ChgCc, 29);
    assert IncreasingFrom(ChgCc, 28);
    assert IncreasingFrom(ChgCc, 27);
    assert IncreasingFrom(ChgCc, 26);
    assert IncreasingFrom(ChgCc, 25);
    assert IncreasingFrom(ChgCc, 24);
    assert IncreasingFrom(ChgCc, 23);
    assert IncreasingFrom(ChgCc, 22);
    assert IncreasingFrom(ChgCc, 21);
    assert IncreasingFrom(ChgCc, 20);
    assert IncreasingFrom(ChgCc, 19);
    assert IncreasingFrom(ChgCc, 18);
    assert IncreasingFrom(ChgCc, 17);
    assert IncreasingFrom(ChgCc, 16);
    assert IncreasingFrom(ChgCc, 15);
    assert IncreasingFrom(ChgCc, 14);
    assert IncreasingFrom(ChgCc, 13);
    assert IncreasingFrom(ChgCc, 12);
    assert IncreasingFrom(ChgCc, 11);
    assert IncreasingFrom(ChgCc, 10);
    assert IncreasingFrom(ChgCc, 9);
    assert IncreasingFrom(ChgCc, 8);
    assert IncreasingFrom(ChgCc, 7);
    assert IncreasingFrom(ChgCc, 6);
    assert IncreasingFrom(ChgCc, 5);
    assert IncreasingFrom(ChgCc, 4);
    assert IncreasingFrom(ChgCc, 3);
    assert IncreasingFrom(ChgCc, 2);
    assert IncreasingFrom(ChgCc, 1);
    assert IncreasingFrom(ChgCc, 0);
  }

  /** chg_cv_prm rises entry by entry. */
  lemma CvPrmIncreasing()
    ensures IncreasingFrom(ChgCvPrm, 0)
  {
    assert IncreasingFrom(ChgCvPrm, 30);
    assert IncreasingFrom(ChgCvPrm, 29);
    assert IncreasingFrom(ChgCvPrm, 28);
    assert IncreasingFrom(ChgCvPrm, 27);
    assert IncreasingFrom(ChgCvPrm, 26);
    assert IncreasingFrom(ChgCvPrm, 25);
    assert IncreasingFrom(ChgCvPrm, 24);
    assert IncreasingFrom(ChgCvPrm, 23);
    assert IncreasingFrom(ChgCvPrm, 22);
    assert IncreasingFrom(ChgCvPrm, 21);
    assert IncreasingFrom(ChgCvPrm, 20);
    assert IncreasingFrom(ChgCvPrm, 19);
    assert IncreasingFrom(ChgCvPrm, 18);
    assert IncreasingFrom(ChgCvPrm, 17);
    assert IncreasingFrom(ChgCvPrm, 16);
    assert IncreasingFrom(ChgCvPrm, 15);
    assert IncreasingFrom(ChgCvPrm, 14);
    assert IncreasingFrom(ChgCvPrm, 13);
    assert IncreasingFrom(ChgCvPrm, 12);
    assert IncreasingFrom(ChgCvPrm, 11);
    assert IncreasingFrom(ChgCvPrm, 10);
    assert IncreasingFrom(ChgCvPrm, 9);
    assert IncreasingFrom(ChgCvPrm, 8);
    assert IncreasingFrom(ChgCvPrm, 7);
    assert IncreasingFrom(ChgCvPrm, 6);
    assert IncreasingFrom(ChgCvPrm, 5);
    assert IncreasingFrom(ChgCvPrm, 4);
    assert IncreasingFrom(ChgCvPrm, 3);
    assert IncreasingFrom(ChgCvPrm, 2);
    assert IncreasingFrom(ChgCvPrm, 1);
    assert IncreasingFrom(ChgCvPrm, 0);
  }

  /** The two tables convert_to_reg searches are strictly increasing. */
  lemma ConversionTablesStrictlyIncreasing()
    ensures StrictlyIncreasing(ChgCc)
    ensures StrictlyIncreasing(ChgCvPrm)
  {
    CcIncreasing();
    CvPrmIncreasing();
    forall i | 0 <= i < |ChgCc| - 1
      ensures ChgCc[i] < ChgCc[i + 1]
    {
      IncreasingFromGivesStrict(ChgCc, 0, i);
    }
    forall i | 0 <= i < |ChgCvPrm| - 1
      ensures ChgCvPrm[i] < ChgCvPrm[i + 1]
    {
      IncreasingFromGivesStrict(ChgCvPrm, 0, i);
    }
  }

  /** In either conversion table a value has at most one step, so the
      index convert_to_reg returns is the only one that fits. */
  lemma ConversionStepUnique(tbl: seq<int>, val: int, i: int, j: int)
    requires tbl == ChgCc || tbl == ChgCvPrm
    requires IsStep(tbl, val, i) && IsStep(tbl, val, j)
    ensures i == j
  {
    ConversionTablesStrictlyIncreasing();
    StepUnique(tbl, val, i, j);
  }

  /** In a strictly increasing table every later entry is larger. */
  lemma {:induction false} IncreasingOrdered(t: seq<int>, a: int, b: int)
    requires StrictlyIncreasing(t)
    requires 0 <= a < b < |t|
    ensures t[a] < t[b]
  {
    if b > a + 1 {
      IncreasingOrdered(t, a, b - 1);
    }
  }

  /** In a strictly increasing table a value has at most one step. */
  lemma StepUnique(tbl: seq<int>, val: int, i: int, j: int)
    requires StrictlyIncreasing(tbl)
    requires IsStep(tbl, val, i) && IsStep(tbl, val, j)
    ensures i == j
  {
    if i < j {
      if i + 1 < j { IncreasingOrdered(tbl, i + 1, j); }
    } else if j < i {
      if j + 1 < i { IncreasingOrdered(tbl, j + 1, i); }
    }
  }

  /** convert_to_reg: -EINVAL when `val` lies outside the table's range,
      otherwise the first index whose step contains `val` (the last index
      exactly when `val` equals the last entry). */
  method ConvertToReg(tbl: seq<int>, val: int) returns (r: int)
    requires |tbl| > 0
    ensures (val < tbl[0] || val > tbl[|tbl| - 1]) <==> r == -EINVAL
    ensures r != -EINVAL ==> IsStep(tbl, val, r)
    ensures r != -EINVAL ==> forall j :: 0 <= j < r ==> !IsStep(tbl, val, j)
    ensures r == |tbl| - 1 ==> val == tbl[r]
  {
    if val < tbl[0] || val > tbl[|tbl| - 1] {
      return -EINVAL;
    }
    var i := 0;
    while i < |tbl| - 1
      invariant 0 <= i <= |tbl| - 1
      invariant tbl[i] <= val
      invariant forall j :: 0 <= j < i ==> !IsStep(tbl, val, j)
    {
      if tbl[i] <= val && val < tbl[i + 1] {
        break;
      }
      i := i + 1;
    }
    r := i;
  }

  /** The index selection of max77665_set_bat_oc_threshold: the first
      threshold at or above the request, clamped to the last index when the
      request exceeds them all. */
  method SelectOcThreshold(ocCurr: int) returns (idx: int)
    ensures 0 <= idx <= 7
    ensures (exists j :: 0 <= j < |BatToSysOcThresholds| && ocCurr <= BatToSysOcThresholds[j])
            ==> ocCurr <= BatToSysOcThresholds[idx]
    ensures forall j :: 0 <= j < idx ==> BatToSysOcThresholds[j] < ocCurr
    ensures ocCurr > BatToSysOcThresholds[7] ==> idx == 7
  {
    var thres := BatToSysOcThresholds;
    var n := |thres|;
    var i := 0;
    while i < n
      invariant 0 <= i <= n
      invariant forall j :: 0 <= j < i ==> thres[j] < ocCurr
    {
      if ocCurr <= thres[i] {
        break;
      }
      i := i + 1;
    }
    idx := if i < n then i else n - 1;
  }
}
