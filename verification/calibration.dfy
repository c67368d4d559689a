/** The calibration map from an averaged ADC reading to a weight. */
module Calibration {
  import opened LoadcellConfig

  /** The straight line through (AdcMin, WeightMin) and (AdcMax, WeightMax). */
  function Affine(x: real): real
  {
    (x - AdcMin as real) * (WeightMax - WeightMin) / ((AdcMax - AdcMin) as real) + WeightMin
  }

  /** map_loadcell_weight: the affine calibration, clamped from below only.
      A reading above AdcMax gives a weight above WeightMax. */
  function MapLoadcellWeight(x: real): (w: real)
    ensures w >= WeightMin
    ensures x <= AdcMin as real ==> w == WeightMin
    ensures AdcMin as real <= x ==> w == Affine(x)
    ensures AdcMin as real <= x <= AdcMax as real ==> w <= WeightMax
    ensures AdcMax as real < x ==> WeightMax < w
  {
    var calculated := Affine(x);
    if calculated < WeightMin then WeightMin else calculated
  }

  /** The map is monotone non-decreasing over its whole domain. */
  lemma MapMonotone(x: real, y: real)
    requires x <= y
    ensures MapLoadcellWeight(x) <= MapLoadcellWeight(y)
  {
  }

  /** Above AdcMin the map is strictly increasing. */
  lemma MapStrictlyIncreasing(x: real, y: real)
    requires AdcMin as real <= x < y
    ensures MapLoadcellWeight(x) < MapLoadcellWeight(y)
  {
  }

  /** The ends of the ADC range land on the ends of the weight range. */
  lemma MapEndpoints()
    ensures MapLoadcellWeight(AdcMin as real) == WeightMin
    ensures MapLoadcellWeight(AdcMax as real) == WeightMax
  {
  }
}
