/** Zone cards of the warehouse page: each zone's utilisation percentage and
    the band that colours both its badge and its fill bar. */
module Zones {
  import opened Rounding
  import opened Domain

  /** `capacity > 0 ? Math.round(currentLoad / capacity * 100) : 0`, not clamped. */
  function Utilization(z: Zone): (u: int)
    ensures z.capacity <= 0 ==> u == 0
    ensures z.capacity > 0 ==> 2 * z.capacity * u - z.capacity <= 200 * z.currentLoad < 2 * z.capacity * u + z.capacity
  {
    Percent(z.currentLoad, z.capacity)
  }

  /** A zone loaded within its capacity is between 0% and 100%; an overfull one is at least 100%. */
  lemma UtilizationBounds(z: Zone)
    ensures 0 <= z.currentLoad <= z.capacity ==> 0 <= Utilization(z) <= 100
    ensures z.currentLoad > z.capacity > 0 ==> Utilization(z) >= 100
  {
    if 0 <= z.currentLoad <= z.capacity {
      PercentRange(z.currentLoad, z.capacity);
    }
    if z.currentLoad > z.capacity > 0 {
      PercentAtLeastFull(z.currentLoad, z.capacity);
    }
  }

  /** For a fixed capacity, more load never means a lower utilisation. */
  lemma UtilizationMonotone(z: Zone, load: int)
    requires z.currentLoad <= load
    ensures Utilization(z) <= Utilization(z.(currentLoad := load))
  {
    PercentMono(z.currentLoad, load, z.capacity);
  }

  datatype Band = Critical | Warning | Healthy

  /** Above 80 critical, above 60 warning, otherwise healthy. */
  function BandOf(u: int): (b: Band)
    ensures b == Critical <==> u > 80
    ensures b == Healthy <==> u <= 60
  {
    if u > 80 then Critical else if u > 60 then Warning else Healthy
  }

  datatype BadgeVariant = Destructive | Secondary | Outline

  datatype BarColour = RedBar | YellowBar | GreenBar

  /** The badge's own threshold chain. */
  function Badge(u: int): BadgeVariant
  {
    if u > 80 then Destructive else if u > 60 then Secondary else Outline
  }

  /** The fill bar's own threshold chain. */
  function Bar(u: int): BarColour
  {
    if u > 80 then RedBar else if u > 60 then YellowBar else GreenBar
  }

  /** The badge and the bar always fall in the same band. */
  lemma BadgeAndBarAgree(u: int)
    ensures Badge(u) == Destructive <==> BandOf(u) == Critical
    ensures Bar(u) == RedBar <==> BandOf(u) == Critical
    ensures Badge(u) == Secondary <==> Bar(u) == YellowBar
    ensures Badge(u) == Outline <==> Bar(u) == GreenBar
  {
  }

  /** Exactly 80% is a warning and exactly 60% is healthy. */
  lemma BandBoundaries()
    ensures BandOf(80) == Warning && BandOf(81) == Critical
    ensures BandOf(60) == Healthy && BandOf(61) == Warning
  {
  }

  /** An empty-capacity zone reads 0% and healthy whatever it holds. */
  lemma ZeroCapacity(z: Zone)
    requires z.capacity == 0
    ensures Utilization(z) == 0 && BandOf(Utilization(z)) == Healthy
  {
  }
}
