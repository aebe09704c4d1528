/**
 * Generator5: as Generator4, with the compression profile set by
 * CoreRadiusFraction, CoreScale and FalloffPower
 * (scale = CoreScale + (1 - CoreScale) * min(1, r / (R * CoreRadiusFraction))^FalloffPower).
 */
module Generator5 {
  import opened Wrappers
  import opened Geometry
  import opened Numerics
  import opened Randomness
  import opened Spacing
  import opened Compression
  import opened Fields
  import opened Text

  class Generator5 {
    var starCount: nat
    var minDistance: real
    var maxDistance: real
    var meanDistance: real
    var variance: real
    var thickness: real
    var coreRadiusFraction: real
    var coreScale: real
    var falloffPower: real
    var mode: MapMode
    /** The star list every generation step appends to or rewrites. */
    var stars: seq<Point3>
    const rng: Random
    const math: MathLib

    /**
     * The defaults: 150 stars, distances 5 to 15 around 10, variance 0.3,
     * thickness 3, core at half the radius scaled to 0.3 with falloff 2.2, plane mode.
     */
    constructor (rng: Random, math: MathLib)
      ensures starCount == 150 && minDistance == 5.0 && maxDistance == 15.0 && meanDistance == 10.0
      ensures variance == 0.3 && thickness == 3.0 && mode == Plane && stars == []
      ensures coreRadiusFraction == 0.5 && coreScale == 0.3 && falloffPower == 2.2
      ensures this.rng == rng && this.math == math
    {
      starCount := 150;
      minDistance := 5.0;
      maxDistance := 15.0;
      meanDistance := 10.0;
      variance := 0.3;
      thickness := 3.0;
      coreRadiusFraction := 0.5;
      coreScale := 0.3;
      falloffPower := 2.2;
      mode := Plane;
      stars := [];
      this.rng := rng;
      this.math := math;
    }

    function Spacing(): SpacingParams
      reads this`minDistance, this`maxDistance, this`meanDistance, this`variance
    {
      SpacingParams(minDistance, maxDistance, meanDistance, variance)
    }

    function Profile(): CoreProfile
      reads this`coreRadiusFraction, this`coreScale, this`falloffPower
    {
      Smooth(coreRadiusFraction, coreScale, falloffPower)
    }

    /**
     * Generate: the list cleared, then filled by the mode, and the file name.
     * The list holds StarCount stars afterwards (Fields.MapFieldLength).
     */
    method Generate(name: string, number: Option<int>) returns (filePath: string)
      requires MapField(mode, [], starCount, Spacing(), thickness, Profile(), rng.source, rng.next, math).Some?
      modifies this`stars, rng
      ensures MapField(mode, [], starCount, Spacing(), thickness, Profile(), rng.source, old(rng.next), math)
              == Some(stars)
      ensures rng.next == old(rng.next) + MapDraws(mode, 0, starCount)
      ensures filePath == FileName(name, starCount, number)
    {
      stars := [];
      stars := GenerateMapField(mode, stars, rng, starCount, Spacing(), thickness, Profile(), math);
      filePath := FileName(name, starCount, number);
    }
  }
}
