/**
 * Chain-level arithmetic of the capacity normaliser: the final connectable
 * capacity of a substation -> main transformer -> distribution line chain,
 * the status label derived from it, and the per-stage "plan-reflected"
 * spare capacity. All quantities are kW as plain integers.
 */
module Capacity {

  /** The strictly positive entries of `vs`, in their original order
      (the comprehension `[v for v in vs if v > 0]`). */
  function Positives(vs: seq<int>): (r: seq<int>)
    ensures forall x :: x in r <==> x in vs && x > 0
    ensures |r| <= |vs|
  {
    if vs == [] then []
    else
      assert vs == [vs[0]] + vs[1..];
      (if vs[0] > 0 then [vs[0]] else []) + Positives(vs[1..])
  }

  /** Python's `min(xs, default=d)`: the least element, or `d` for an empty list. */
  function MinOr(xs: seq<int>, d: int): (r: int)
    ensures xs == [] ==> r == d
    ensures xs != [] ==> r in xs && forall x :: x in xs ==> r <= x
  {
    if xs == [] then d
    else if |xs| == 1 then xs[0]
    else
      assert xs == [xs[0]] + xs[1..];
      var m := MinOr(xs[1..], d);
      if xs[0] <= m then xs[0] else m
  }

  /**
   * The final connectable capacity of a chain from its three per-stage spare
   * values VOL_1 (substation), VOL_2 (main transformer), VOL_3 (line):
   * the least strictly positive one, or 0 when none is positive.
   */
  function FinalCapacity(vol1: int, vol2: int, vol3: int): (r: int)
    ensures r >= 0
    ensures r == 0 <==> vol1 <= 0 && vol2 <= 0 && vol3 <= 0
    ensures r > 0 ==> r == vol1 || r == vol2 || r == vol3
    ensures vol1 > 0 ==> r <= vol1
    ensures vol2 > 0 ==> r <= vol2
    ensures vol3 > 0 ==> r <= vol3
  {
    var vs := [vol1, vol2, vol3];
    assert vol1 in vs && vol2 in vs && vol3 in vs;
    MinOr(Positives(vs), 0)
  }

  /** The two status labels a chain can carry. */
  datatype Status = Normal | Saturated

  /** The label shown in the status column. */
  function StatusLabel(s: Status): (text: string)
    ensures text != ""
    ensures (text == "정상") <==> s == Normal
    ensures s == Saturated ==> text == "포화"
  {
    match s
    case Normal => "정상"
    case Saturated => "포화"
  }

  /** The status of a chain with the given final connectable capacity. */
  function StatusOf(finalCapacity: int): (s: Status)
  {
    if finalCapacity > 0 then Normal else Saturated
  }

  /**
   * The spare capacity of one stage after approved connection plans:
   * standard capacity minus plan-reflected capacity when both are positive,
   * 0 otherwise. It is not clamped at zero.
   */
  function PlanReflectedSpare(capa: int, gCapa: int): (r: int)
    ensures r != 0 ==> capa > 0 && gCapa > 0
    ensures capa > 0 && gCapa > 0 ==> r + gCapa == capa
    ensures r < capa || capa <= 0
  {
    if capa > 0 && gCapa > 0 then capa - gCapa else 0
  }

  /** The status is Normal exactly when some stage reports positive spare capacity. */
  lemma ChainStatus(vol1: int, vol2: int, vol3: int)
    ensures StatusOf(FinalCapacity(vol1, vol2, vol3)) == Normal <==> vol1 > 0 || vol2 > 0 || vol3 > 0
    ensures StatusLabel(StatusOf(FinalCapacity(vol1, vol2, vol3))) == (if vol1 > 0 || vol2 > 0 || vol3 > 0 then "정상" else "포화")
  {
  }

  /** The final capacity ignores non-positive stages: a stage reporting 0 does
      not make the chain saturated while another stage has spare capacity.
      With the spare values of the Jeonju sample chain (98,496 / 10,741 / 0)
      the chain is Normal with 10,741 kW. */
  lemma ZeroStageIgnored()
    ensures FinalCapacity(98496, 10741, 0) == 10741
    ensures StatusOf(FinalCapacity(98496, 10741, 0)) == Normal
  {
  }

  /** An over-committed line (12,000 kW standard, 14,314 kW planned) has a
      negative plan-reflected spare of -2,314 kW. */
  lemma PlanReflectedSpareUnclamped()
    ensures PlanReflectedSpare(12000, 14314) == -2314
  {
  }
}
