# StarMapGenerator in Dafny

StarMapGenerator builds star maps for a strategy game. It writes them as
CSV files with one `system, x, y, z` line per star. A WPF window loads a
generated map, lets the player click stars to hand them to up to eight
players, and saves the map back with `colony` lines.

This project models the core of that program:

- **Generator1** places every star uniformly in a rectangle, circle or
  ellipse.
- **Generator2** rejects candidates that fall closer than `MinDistance` to a
  kept star, and stops after 50000 attempts.
- **Generator4, Generator5 and Generator6** sample a galaxy, a plane or two
  colliding galaxies. They then push pairs of stars apart to random target
  distances ("relaxation"). Galaxies are also compressed towards the core.
  - Generator4 compresses with a cube.
  - Generators 5 and 6 use a smooth profile with a core fraction, a floor
    scale and a falloff power.
  - Generator6 builds a collision from two independent galaxies: it tilts the
    second galaxy about the X axis and moves it along X.
- **StarViewModel** holds one loaded star with its owner.
- **MainViewModel** loads the CSV text into view models. It assigns the
  smallest free player index to a clicked star, or clears the owner if the
  star already has one. It also writes the saved map text.

How the model is built:

- Each generator is a class whose fields are the source's properties. Its
  `stars` list is a `seq` field that its methods reassign.
- `System.Random` is a `Randomness.Random` object that reads a fixed
  sequence of draws `source`. Its counter `next` advances by one per draw.
- Every loop is a method proved equal to a specification function. Each
  function takes the draw sequence and the position of the first draw.
  Examples: `Relaxation.Sweep` for the pair loop, `Sampling.GalaxySample`
  for the galaxy loop, `Generator2.Placement` for the rejection loop.
- Properties of the maps are lemmas about those functions. The draw
  positions are tracked exactly: five per galaxy star, three per plane
  star, one per relaxed pair, two per Generator2 candidate.
- `Math.Sqrt`, `Math.Cos`, `Math.Sin`, `Math.Log` and `Math.Pow` are
  function values in a `Numerics.MathLib` record. Lemmas that need their
  laws assume them as predicates, for example that `sqrt` is the
  non-negative square root and that `cos² + sin² = 1`.

Collision stage follows the formula `(1 - CollisionStage) * (radius1 + radius2)`
at StarMapGenerator/Generator6.cs:182: stage 1 puts the two centres together
and stage 0 puts the galaxies edge to edge. The comment on that line describes
the stages the other way round; the model follows the code.

## Model

| member | source | states |
|---|---|---|
| Randomness.Random.NextDouble | StarMapGenerator/Generator6.cs:280 | a draw returns the next value of the draw sequence and advances the position by one |
| Numerics.BandBounds | StarMapGenerator/Generator1.cs:28 | a height `(u - 0.5) * Thickness` with u in [0,1) lies in [-Thickness/2, Thickness/2) |
| Spacing.RandomDistance | StarMapGenerator/Generator6.cs:277-284 | the target pair distance is `Mean*(1-Variance) + (Min + u*(Max-Min))*Variance` of one draw u, and exactly one draw is used |
| Spacing.TargetDistanceBounds | StarMapGenerator/Generator6.cs:277-284 | for a variance in [0,1] the target lies between min(Mean, Min) and max(Mean, Max) |
| Spacing.TargetDistanceWithoutVariance | StarMapGenerator/Generator6.cs:282-283 | with Variance 0 every target equals MeanDistance; a target equals MeanDistance exactly when Variance is 0 or the uniform part equals MeanDistance |
| Spacing.MeanTargetWithVariance | StarMapGenerator/Generator6.cs:280-283 | a target can equal MeanDistance with a non-zero Variance (spacing 5 to 15 around 10, Variance 0.5, draw 0.5), so Variance 0 is sufficient but not necessary |
| Spacing.TargetDistanceFullVariance | StarMapGenerator/Generator6.cs:280-283 | with Variance 1 the target lies in [MinDistance, MaxDistance) |
| Spacing.AreaRadiusSquared | StarMapGenerator/Generator6.cs:290-296 | the estimated radius R is non-negative, π·R² equals StarCount·Mean², and R is positive when both factors are non-zero |
| Sampling.RandomGaussian | StarMapGenerator/Generator6.cs:299-304 | the Box–Muller value of (1-u1, 1-u2) for the next two draws, which are consumed |
| Sampling.SampleGalaxy | StarMapGenerator/Generator6.cs:122-136 | the loop appends exactly the galaxy sample of n stars to the list, consuming five draws per star |
| Sampling.SamplePlane | StarMapGenerator/Generator6.cs:147-158 | the loop appends exactly the plane sample of n stars, consuming three draws per star |
| Sampling.DrawPlaneStar | StarMapGenerator/Generator6.cs:150-155 | one plane star from an angle draw, a radius draw and a height draw |
| Sampling.SampleOffsetPair | StarMapGenerator/Generator5.cs:161-174 | the loop appends exactly the two-blob sample of n stars, consuming five draws per star |
| Sampling.DrawOffsetStar | StarMapGenerator/Generator5.cs:163-173 | star i is a Gaussian point shifted left by the offset when i < n/2 and right otherwise |
| Sampling.FlattenBounds | StarMapGenerator/Generator6.cs:132 | the flattening factor lies in [0.1, 1] |
| Sampling.GalaxyStarHeight | StarMapGenerator/Generator6.cs:122-135 | every sampled galaxy star has z within ±Thickness/2 |
| Sampling.PlaneStarHeight | StarMapGenerator/Generator5.cs:147 | every plane star has z in [-band/2, band/2) |
| Sampling.PlaneStarInDisk | StarMapGenerator/Generator6.cs:150-154 | every plane star lies in the disk of the estimated radius |
| Sampling.OffsetSampleSides | StarMapGenerator/Generator5.cs:161-174 | the two-blob sample has n stars; the first n/2 are shifted by -offset, the rest by +offset |
| Sampling.OffsetSampleHeight | StarMapGenerator/Generator5.cs:171 | every two-blob star has z in [-Thickness/2, Thickness/2) |
| Relaxation.Push | StarMapGenerator/Generator6.cs:252-272 | a push fails exactly when the pair coincides and the target is positive (the source divides by zero there); otherwise only star j moves, and nothing moves when the pair is already far enough apart |
| Relaxation.PairCountClosedForm | StarMapGenerator/Generator6.cs:248-250 | the pair loop visits n(n-1)/2 pairs, so it takes that many draws |
| Relaxation.ApplyRandomDistances | StarMapGenerator/Generator6.cs:246-275 | the nested loop yields exactly the relaxation sweep of the stars and consumes n(n-1)/2 draws |
| Relaxation.RelaxRow | StarMapGenerator/Generator6.cs:250-273 | the inner loop for star i yields that row of the sweep and consumes one draw per later star |
| Relaxation.RelaxPair | StarMapGenerator/Generator6.cs:252-272 | one pair step consumes one draw and advances the row by one |
| Relaxation.FirstStarFixed | StarMapGenerator/Generator6.cs:248-274 | relaxation never moves the first star and keeps the star count |
| Relaxation.PushReachesTarget | StarMapGenerator/Generator6.cs:260-271 | after a push the pair's distance is the larger of the old distance and the target |
| Relaxation.RowSeparates | StarMapGenerator/Generator6.cs:250-273 | within a row, each star j ends its own step at least its target distance from star i |
| Compression.CompressStar | StarMapGenerator/Generator6.cs:233-242 | one star is scaled by the compression factor of its distance from the centre |
| Compression.ApplyCoreCompression | StarMapGenerator/Generator6.cs:227-244 | the loop scales every star by its compression factor, giving exactly the compressed list |
| Compression.CompressionScaleBounds | StarMapGenerator/Generator6.cs:237-240 | the scale lies between the profile's floor (CoreScale, or 0.5 for the cube) and 1 |
| Compression.CompressionScaleBeyondCore | StarMapGenerator/Generator6.cs:237-240 | stars at or beyond the core radius get scale 1 |
| Compression.CompressionScaleAtCentre | StarMapGenerator/Generator6.cs:240 | a star at the centre gets exactly the floor scale |
| Compression.CompressedProperties | StarMapGenerator/Logic/Generator4.cs:160-182 | compression keeps the count, leaves stars beyond the core in place and never moves a star outwards |
| Collision.EstimateRadiusOf | StarMapGenerator/Generator6.cs:215-225 | the loop returns the largest distance from the origin (0 for an empty list) |
| Collision.MaxNormBounds | StarMapGenerator/Generator6.cs:215-225 | that radius is non-negative, bounds every star's distance, and is 0 for no stars |
| Collision.MaxNormAttained | StarMapGenerator/Generator6.cs:215-225 | for a non-empty list the radius is the distance of some star |
| Collision.Separation | StarMapGenerator/Generator6.cs:182 | stage 1 puts the centres together, stage 0 puts them r1+r2 apart, and stages up to 1 give a non-negative distance |
| Collision.RotateGalaxy | StarMapGenerator/Generator6.cs:192-202 | the loop yields each star rotated about X by the tilt and moved by the collision distance |
| Collision.RotateShiftProperties | StarMapGenerator/Generator6.cs:196-201 | the moved star's x grows by the distance and its distance from the X axis is unchanged |
| Collision.TransformedProperties | StarMapGenerator/Generator6.cs:192-202 | the same for every star of the galaxy, with the count unchanged |
| Fields.GalaxyDefinedWhenPositive | StarMapGenerator/Generator6.cs:119-120 | with a non-zero MeanDistance and at least one star, the galaxy radius and core radius are non-zero |
| Fields.GenerateGalaxy | StarMapGenerator/Generator5.cs:110-133 | sample, relax and compress give exactly the galaxy field, consuming 5n draws plus one per pair |
| Fields.GeneratePlane | StarMapGenerator/Generator5.cs:135-153 | sample and relax give exactly the plane field, consuming 3n draws plus one per pair |
| Fields.GenerateOffsetPair | StarMapGenerator/Generator5.cs:155-177 | the two-blob loop and relaxation give exactly the offset field |
| Fields.GalaxyFieldCompressed | StarMapGenerator/Generator6.cs:117-140 | a galaxy has the wanted number of stars; compression moves no relaxed star outwards and leaves those beyond the core unchanged |
| Fields.PlaneFieldFirstStar | StarMapGenerator/Generator5.cs:135-153 | a plane from scratch has n stars, and its first star stays in the disk within the height band |
| Fields.OffsetFieldLength | StarMapGenerator/Generator5.cs:155-177 | the two-blob collision adds exactly StarCount stars |
| Fields.GalaxyFieldLength | StarMapGenerator/Generator5.cs:110-133 | a galaxy adds exactly StarCount stars |
| Fields.MapFieldLength | StarMapGenerator/Generator5.cs:83-100 | every mode adds exactly StarCount stars |
| Fields.GenerateMapField | StarMapGenerator/Generator5.cs:87-100 | the mode switch produces the field of the selected mode |
| Generator6.CollidingLayout | StarMapGenerator/Generator6.cs:163-211 | the collision is galaxy 1 (StarCount/2 stars) followed by galaxy 2 (the other half plus the odd star), StarCount stars in total |
| Generator6.CollidingSecondHalf | StarMapGenerator/Generator6.cs:177-207 | each star of galaxy 2 moves by the non-negative collision distance along X and keeps its distance from the X axis |
| Generator6.Generator6.constructor | StarMapGenerator/Generator6.cs:16-77 | the default settings: 150 stars, distances 5/15/10, variance 0.3, thickness 3, Plane, core 0.5/0.4/2.2, stage 0.5, tilt 45 |
| Generator6.Generator6.GenerateGalaxy | StarMapGenerator/Generator6.cs:117-140 | the list becomes the galaxy field of the old list |
| Generator6.Generator6.GeneratePlane | StarMapGenerator/Generator6.cs:142-161 | the list becomes the plane field with the height band doubled by ThicknessOptimizer |
| Generator6.Generator6.GenerateCollidingGalaxies | StarMapGenerator/Generator6.cs:163-211 | the list becomes the colliding field, and StarCount is restored |
| Generator6.Generator6.Combine | StarMapGenerator/Generator6.cs:177-207 | galaxy 1 followed by galaxy 2 rotated by the tilt and moved by the collision distance |
| Generator6.Generator6.GenerateByMode | StarMapGenerator/Generator6.cs:94-107 | the mode switch yields the field of the selected mode |
| Generator6.Generator6.Generate | StarMapGenerator/Generator6.cs:90-115 | from an empty list the map is the selected mode's field, and the file name is `name count[ number].csv` |
| Generator5.Generator5.constructor | StarMapGenerator/Generator5.cs:19-70 | the default settings: 150 stars, distances 5/15/10, variance 0.3, thickness 3, Plane, core 0.5/0.3/2.2 |
| Generator5.Generator5.Generate | StarMapGenerator/Generator5.cs:83-108 | the map is the selected mode's field with the smooth core profile, and the file name is as above |
| Generator4.Generator4.constructor | StarMapGenerator/Logic/Generator4.cs:13-31 | the default settings: 80 stars, distances 2/8/4, variance 0.3, thickness 3, Plane |
| Generator4.Generator4.Generate | StarMapGenerator/Logic/Generator4.cs:48-73 | the map is the selected mode's field with the cubic core profile, and the file name is as above |
| Generator2.TotalAreaNonNegative | StarMapGenerator/Logic/Generator2.cs:35-37 | the total area 2.2·MinDistance²·StarCount is never negative |
| Generator2.SquareSize | StarMapGenerator/Logic/Generator2.cs:41-44 | a rectangle map is a square whose side squared is the total area |
| Generator2.CircleSize | StarMapGenerator/Logic/Generator2.cs:46-50 | a circle map is as wide as high, and the disk of that diameter has exactly the total area |
| Generator2.EllipseSize | StarMapGenerator/Logic/Generator2.cs:52-57 | an ellipse map is twice as wide as high, and its semi-axes enclose exactly the total area |
| Generator2.CandidateInside | StarMapGenerator/Logic/Generator2.cs:120-154 | a candidate lies in the rectangle, circle or ellipse of the map size |
| Generator2.WellSpacedAppend | StarMapGenerator/Logic/Generator2.cs:91-94 | adding a candidate that is not too close keeps every pair at least MinDistance apart |
| Generator2.PlacementKeeps | StarMapGenerator/Logic/Generator2.cs:82-95 | the kept stars stay pairwise at least MinDistance apart, are only ever appended to and never exceed StarCount |
| Generator2.PlacementCounts | StarMapGenerator/Logic/Generator2.cs:82-95 | no more stars than attempts; at most 50000 attempts; the loop stops only with StarCount stars or the attempts spent; two draws per attempt (none for an undefined shape) |
| Generator2.FirstCandidateKept | StarMapGenerator/Logic/Generator2.cs:85-95 | when starting from no stars, the first candidate is always kept |
| Generator2.SavedLayout | StarMapGenerator/Logic/Generator2.cs:103-114 | one saved line per kept star, with z in [-Thickness/2, Thickness/2) |
| Generator2.Generator2.constructor | StarMapGenerator/Logic/Generator2.cs:14-28 | the default settings: 60 stars, MinDistance 3, Thickness 4, Circle, no stars |
| Generator2.Generator2.GenerateCandidate | StarMapGenerator/Logic/Generator2.cs:120-139 | the candidate of the current shape, consuming its draws |
| Generator2.Generator2.IsTooClose | StarMapGenerator/Logic/Generator2.cs:157-167 | true exactly when some kept star is closer than MinDistance |
| Generator2.Generator2.TryCandidate | StarMapGenerator/Logic/Generator2.cs:89-94 | one attempt: the candidate is added exactly when it is not too close to a kept star, and its draws are consumed |
| Generator2.Generator2.PlaceStars | StarMapGenerator/Logic/Generator2.cs:79-95 | the rejection loop yields exactly the placement of the specification |
| Generator2.Generator2.SaveStars | StarMapGenerator/Logic/Generator2.cs:103-114 | one draw per kept star gives its height |
| Generator2.Generator2.Generate | StarMapGenerator/Logic/Generator2.cs:73-117 | the map size, the placement, the saved lines, the file name, and a warning exactly when fewer stars than StarCount were placed |
| Shapes.RectanglePointInside | StarMapGenerator/Generator1.cs:45-49 | a rectangle point lies within ±Width/2 and ±Height/2 |
| Shapes.CirclePointInside | StarMapGenerator/Generator1.cs:62-67 | a circle point lies within the radius |
| Shapes.EllipsePointInside | StarMapGenerator/Generator1.cs:69-76 | an ellipse point lies strictly inside the ellipse |
| Generator1.Generator1.constructor | StarMapGenerator/Generator1.cs:5-19 | the default settings: 60 stars, 40×40, Thickness 3, Circle |
| Generator1.Generator1.GenerateXY | StarMapGenerator/Generator1.cs:41-60 | the point of the current shape from two draws, or the "Unknown shape" failure with no draw |
| Generator1.Generator1.GenerateStar | StarMapGenerator/Generator1.cs:27-28 | one star of the loop: its x and y from the shape, its z from a third draw; fails with "Unknown shape" exactly when the shape is undefined |
| Generator1.Generator1.Generate | StarMapGenerator/Generator1.cs:21-39 | the emitted stars, three draws each |
| Generator1.EmittedCount | StarMapGenerator/Generator1.cs:21-39 | generation succeeds exactly when the shape is known or no star is wanted, and then emits StarCount stars |
| Generator1.EmittedInside | StarMapGenerator/Generator1.cs:25-28 | every emitted star lies inside its shape with z in [-Thickness/2, Thickness/2) |
| Text.DigitsValueOfNatToString | StarMapGenerator/Generator6.cs:110 | the decimal digits written for a count read back as that count |
| Text.IntToStringInjective | StarMapGenerator/Generator6.cs:109-111 | two numbers are written alike exactly when they are equal |
| Text.FileNameDistinct | StarMapGenerator/Generator6.cs:109-111 | different map numbers (or none) give different file names |
| Text.FileNameLayout | StarMapGenerator/Generator6.cs:109-111 | a file name starts with the name and a space and ends with ".csv" |
| StarViewModels.OwnerColor | StarMapGenerator/ViewModels/StarViewModel.cs:29-47 | an unowned star is transparent; an owned star is gray exactly when its index is outside 0..7 |
| StarViewModels.PlayerColorsDistinct | StarMapGenerator/ViewModels/StarViewModel.cs:34-45 | the eight player colours are pairwise different and identify the player |
| StarViewModels.StarViewModel.constructor | StarMapGenerator/ViewModels/StarViewModel.cs:10-15 | a new view model holds its star and has no owner |
| StarViewModels.StarViewModel.SetOwnerIndex | StarMapGenerator/ViewModels/StarViewModel.cs:14-27 | the owner is set; the star is selected exactly when owned; the brush follows the owner |
| Ownership.UsedIndicesHeld | StarMapGenerator/ViewModels/MainViewModel.cs:149 | an index is in the used list exactly when some star holds it |
| Ownership.FreeFrom | StarMapGenerator/ViewModels/MainViewModel.cs:150-157 | the result is the smallest unused index in range, or none when all of them are used |
| Ownership.ClickKeepsDistinct | StarMapGenerator/ViewModels/MainViewModel.cs:139-159 | a click keeps owners pairwise distinct; a new owner is in 0..7, held by no other star, and every smaller index is held |
| Ownership.AllPlayersTaken | StarMapGenerator/ViewModels/MainViewModel.cs:150-157 | when all eight players own a star, clicking an unowned star leaves it unowned |
| MapFile.SplitFields | StarMapGenerator/ViewModels/MainViewModel.cs:109 | splitting gives one more field than there are separators, and no field contains a separator |
| MapFile.JoinSplit | StarMapGenerator/ViewModels/MainViewModel.cs:109 | joining the split fields gives back the line |
| MapFile.NonEmpty | StarMapGenerator/ViewModels/MainViewModel.cs:99 | the result holds exactly the non-empty fields |
| MapFile.SplitLinesClean | StarMapGenerator/ViewModels/MainViewModel.cs:99 | the lines of a text are non-empty and contain no CR or LF |
| MapFile.LoadedRows | StarMapGenerator/ViewModels/MainViewModel.cs:105-120 | every loaded star comes from a "system" line with at least four fields whose fields 1-3 parse to its coordinates, and every such line is loaded |
| MapFile.LoadLine | StarMapGenerator/ViewModels/MainViewModel.cs:107-118 | one line: a star row is appended and the extents grow to cover it; any other line changes nothing |
| MapFile.LoadStars | StarMapGenerator/ViewModels/MainViewModel.cs:99-120 | the loop loads exactly those stars, and the extents contain the origin and every star and are attained |
| MapFile.Owned | StarMapGenerator/ViewModels/MainViewModel.cs:181 | every selected star has an owner |
| MapFile.OwnedRows | StarMapGenerator/ViewModels/MainViewModel.cs:181 | the selection holds exactly the owned stars, and is non-empty exactly when some star is owned |
| MapFile.SaveDocument | StarMapGenerator/ViewModels/MainViewModel.cs:163-192 | the saved text is the star block, a blank line, the colony block and the trailer, each ending with CRLF |
| MapFile.SaveLinesStarRows | StarMapGenerator/ViewModels/MainViewModel.cs:165-178 | one line per star, with ",name" added exactly when the star is owned, then a blank line; and the total line count |
| MapFile.SaveLinesColonies | StarMapGenerator/ViewModels/MainViewModel.cs:180-185 | after the blank line comes one colony line per owned star, in order |
| MapFile.SaveLinesTrailer | StarMapGenerator/ViewModels/MainViewModel.cs:187-192 | the text ends with "randomize_colonies,0,,," exactly when some star is owned |
| MainViewModels.MainViewModel.constructor | StarMapGenerator/ViewModels/MainViewModel.cs:62-78 | the Generator6 settings of the window: 170 stars, distances 6/18/14, Galaxy, thickness 3, core 0.3/0.5, stage 0.4, tilt 40; map name "My Galaxy" |
| MainViewModels.MainViewModel.NewViewModels | StarMapGenerator/ViewModels/MainViewModel.cs:127-136 | one new, distinct, unowned view model per loaded star, in order |
| MainViewModels.MainViewModel.GenerateMap | StarMapGenerator/ViewModels/MainViewModel.cs:88-137 | the window shows one new unowned view model per loaded star, in order |
| MainViewModels.MainViewModel.UsedOwnerIndices | StarMapGenerator/ViewModels/MainViewModel.cs:149 | the owner indices in use, in star order |
| MainViewModels.MainViewModel.OnStarClicked | StarMapGenerator/ViewModels/MainViewModel.cs:139-159 | the clicked star gets the click's owner: cleared, or the smallest free index; other stars are unchanged; owners stay distinct |
| MainViewModels.MainViewModel.ClickPreservesDistinct | StarMapGenerator/ViewModels/MainViewModel.cs:139-159 | a click applied to the window's stars keeps their owners distinct |
| MainViewModels.MainViewModel.SaveMap | StarMapGenerator/ViewModels/MainViewModel.cs:161-195 | the saved text is exactly the document of the save lines for the current stars |
| MainViewModels.MainViewModel.WriteStarRows | StarMapGenerator/ViewModels/MainViewModel.cs:165-176 | the star block of the saved text |
| MainViewModels.MainViewModel.WriteColonyRows | StarMapGenerator/ViewModels/MainViewModel.cs:180-185 | the colony block, and whether any colony was written |

## Left out

- File output is not modelled: `StreamWriter`, `SaveToCsv`, `File.Copy`, `File.Delete`, `File.ReadAllText`, `File.WriteAllText`, `OutputPath` and `OpenedMapPath`. Generators return their star list and file name; `SaveMap` returns the text it would write.
- The `"0.00"` number formatting of the CSV lines is not modelled. Nor is `double.TryParse`: loading takes the number parser as a parameter (`parse`).
- Console messages (`Console.WriteLine`) are not modelled. Generator2's warning is returned as a flag.
- `GenerateMany` in Generator2, Generator4 and Generator6 is left out. It only calls `Generate` with the numbers 1..count.
- Doubles are modelled as exact reals: rounding, NaN and infinities are left out. Where the source divides by zero (a pair of coincident stars, a zero radius) the model has a `None` result or a precondition.
- `Math.Sqrt`, `Cos`, `Sin`, `Log` and `Pow` are parameters with stated laws, not computed. The Gaussian *distribution* of `RandomGaussian` is not stated; only its formula is.
- `Random` is a fixed draw sequence, and its uniformity is an assumption stated as `Uniform`.
- StarCount is a natural number. A negative StarCount, which every loop treats as zero, is not modelled.
- `MainViewModel.GenerateMap` takes the generated CSV text as input instead of calling the generator. The source calls `_generator.Generate(MapName)` for a file path, but `Generator6.Generate` returns nothing. The model's `Generate` returns the file name it builds.
- The constructor's initial `GenerateMap` call is left out.
- The canvas scaling and the ViewX/ViewY placement in `GenerateMap` are left out, because they are floating-point screen layout. The extents they are based on are modelled by `LoadStars`.
- The lazily chosen random star name (`StarData.Name`, drawn from `StarNames`) is a parameter `names`.
- `INotifyPropertyChanged`, `RelayCommand` bindings, the slider control and `Program.cs` are not part of this model.
- MainViewModels.MainViewModel.GenerateMap: does not state the min/max extents. They are computed by `LoadStars` and used only for the canvas scale.
