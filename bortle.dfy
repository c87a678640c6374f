/** The Bortle classifier of main.py: a radiance value is mapped to a
    night-sky darkness class from 1 (darkest) to 9 (most light-polluted).
    Only comparisons are involved, so the model works over exact reals. */
module Bortle {

  /** The seven bin edges the classifier hands to numpy's digitize. */
  const Edges: seq<real> := [0.1, 0.5, 1.5, 3.0, 5.0, 7.0, 10.0]

  /** Bins that are strictly increasing, as digitize expects of its bins. */
  predicate Ascending(bins: seq<real>) {
    forall i, j :: 0 <= i < j < |bins| ==> bins[i] < bins[j]
  }

  /** numpy's digitize(x, bins) with its default right=False, for increasing
      bins such as Edges: the number of bins that are <= x. */
  function Digitize(x: real, bins: seq<real>): (i: nat)
    ensures i <= |bins|
  {
    if bins == [] then 0
    else (if bins[0] <= x then 1 else 0) + Digitize(x, bins[1..])
  }

  /** calculate_bortle_scale: below the first edge is class 1, above the last
      edge is class 9, otherwise one more than the digitize index. */
  function Classify(radiance: real): (c: int)
    ensures 1 <= c <= 9
  {
    if radiance < 0.1 then 1
    else if radiance > 10.0 then 9
    else Digitize(radiance, Edges) + 1
  }

  /** The classes written as a table of left-closed, right-open intervals:
      every edge belongs to the bin it opens. 10.0 opens the eighth bin and
      only values strictly above it are class 9. */
  function IntervalClass(radiance: real): int {
    if radiance < 0.1 then 1
    else if radiance < 0.5 then 2
    else if radiance < 1.5 then 3
    else if radiance < 3.0 then 4
    else if radiance < 5.0 then 5
    else if radiance < 7.0 then 6
    else if radiance < 10.0 then 7
    else if radiance <= 10.0 then 8
    else 9
  }

  lemma EdgesAscending()
    ensures Ascending(Edges)
  {
  }

  /** For increasing bins, digitize returns the index i of the half-open bin
      [bins[i-1], bins[i]) holding x: exactly the bins before i are <= x. */
  lemma {:induction false} DigitizeBin(x: real, bins: seq<real>)
    requires Ascending(bins)
    ensures forall k :: 0 <= k < |bins| ==> (bins[k] <= x <==> k < Digitize(x, bins))
  {
    if bins != [] {
      var tail := bins[1..];
      assert Ascending(tail) by {
        forall i, j | 0 <= i < j < |tail| ensures tail[i] < tail[j] {
          assert tail[i] == bins[i + 1] && tail[j] == bins[j + 1];
        }
      }
      DigitizeBin(x, tail);
      forall k | 0 <= k < |bins|
        ensures bins[k] <= x <==> k < Digitize(x, bins)
      {
        if k > 0 {
          assert bins[k] == tail[k - 1];
          if bins[0] > x {
            assert bins[0] < bins[k];
          }
        }
      }
    }
  }

  /** digitize is monotone in x, whatever the bins. */
  lemma {:induction false} DigitizeMonotone(x: real, y: real, bins: seq<real>)
    requires x <= y
    ensures Digitize(x, bins) <= Digitize(y, bins)
  {
    if bins != [] {
      DigitizeMonotone(x, y, bins[1..]);
    }
  }

  /** The classifier agrees with the interval table on every radiance. */
  lemma ClassifyByIntervals(radiance: real)
    ensures Classify(radiance) == IntervalClass(radiance)
  {
    if 0.1 <= radiance <= 10.0 {
      EdgesAscending();
      DigitizeBin(radiance, Edges);
      var i := Digitize(radiance, Edges);
      assert Edges[0] == 0.1 && Edges[1] == 0.5 && Edges[2] == 1.5 && Edges[3] == 3.0;
      assert Edges[4] == 5.0 && Edges[5] == 7.0 && Edges[6] == 10.0;
    }
  }

  /** Radiance below 0.1 is class 1, radiance strictly above 10.0 is class 9,
      and anything in between lands in 2..8, in the bin its largest edge
      <= radiance opens. */
  lemma ClassifyOpensBin(radiance: real)
    ensures radiance < 0.1 ==> Classify(radiance) == 1
    ensures radiance > 10.0 ==> Classify(radiance) == 9
    ensures 0.1 <= radiance <= 10.0 ==>
      var c := Classify(radiance);
      2 <= c <= 8 && Edges[c - 2] <= radiance && (c == 8 || radiance < Edges[c - 1])
  {
    if 0.1 <= radiance <= 10.0 {
      EdgesAscending();
      DigitizeBin(radiance, Edges);
      assert Edges[0] <= radiance;
    }
  }

  /** Every exact edge goes to the bin it opens; just below the first edge and
      just above the last one the outer classes apply. */
  lemma ClassifyAtEdges()
    ensures Classify(0.09) == 1 && Classify(0.1) == 2 && Classify(0.5) == 3
    ensures Classify(1.5) == 4 && Classify(3.0) == 5 && Classify(5.0) == 6
    ensures Classify(7.0) == 7 && Classify(10.0) == 8 && Classify(10.1) == 9
  {
    ClassifyByIntervals(0.1);
    ClassifyByIntervals(0.5);
    ClassifyByIntervals(1.5);
    ClassifyByIntervals(3.0);
    ClassifyByIntervals(5.0);
    ClassifyByIntervals(7.0);
    ClassifyByIntervals(10.0);
  }

  /** A brighter sky never gets a darker class. */
  lemma ClassifyMonotone(r1: real, r2: real)
    requires r1 <= r2
    ensures Classify(r1) <= Classify(r2)
  {
    if 0.1 <= r1 && r2 <= 10.0 {
      DigitizeMonotone(r1, r2, Edges);
    }
  }
}
