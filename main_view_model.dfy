/**
 * The main window's view model: the generator it drives, the stars on the
 * canvas, and the three commands: load a generated map, toggle a star's
 * owner, and save the map with its colonies.
 */
module MainViewModels {
  import opened Wrappers
  import opened Numerics
  import opened Randomness
  import opened Fields
  import G = Generator6
  import opened StarViewModels
  import opened Ownership
  import opened MapFile
  import opened Text

  class MainViewModel {
    var stars: seq<StarViewModel>
    var mapName: string
    const generator: G.Generator6

    /**
     * A generator set to 170 stars spaced 6 to 18 around 14, galaxy mode,
     * thickness 3, a core at 0.3 of the radius scaled to 0.5, collision stage
     * 0.4 and tilt 40 degrees; the other settings keep their defaults.
     */
    constructor (rng: Random, math: MathLib)
      ensures fresh(generator) && generator.rng == rng && generator.math == math
      ensures generator.starCount == 170 && generator.maxDistance == 18.0
      ensures generator.minDistance == 6.0 && generator.meanDistance == 14.0
      ensures generator.mode == Galaxy && generator.thickness == 3.0
      ensures generator.coreRadiusFraction == 0.3 && generator.coreScale == 0.5
      ensures generator.collisionStage == 0.4 && generator.collisionTiltDegrees == 40.0
      ensures generator.variance == 0.3 && generator.falloffPower == 2.2 && generator.stars == []
      ensures stars == [] && mapName == "My Galaxy"
      ensures DistinctStars()
    {
      var g := new G.Generator6(rng, math);
      g.starCount := 170;
      g.maxDistance := 18.0;
      g.minDistance := 6.0;
      g.meanDistance := 14.0;
      g.mode := Galaxy;
      g.thickness := 3.0;
      g.coreRadiusFraction := 0.3;
      g.coreScale := 0.5;
      g.collisionStage := 0.4;
      g.collisionTiltDegrees := 40.0;
      generator := g;
      stars := [];
      mapName := "My Galaxy";
    }

    /**
     * Each star on the canvas is a view model of its own. This is the
     * window's invariant: the constructor and GenerateMap establish it, and
     * OnStarClicked, which needs it, keeps it.
     */
    predicate DistinctStars()
      reads this
    {
      forall i, j :: 0 <= i < j < |stars| ==> stars[i] != stars[j]
    }

    /** The owner of each star on the canvas, in order. */
    function Owners(): seq<Option<int>>
      reads this, stars
    {
      seq(|stars|, i reads this, stars requires 0 <= i < |stars| => stars[i].ownerIndex)
    }

    /** What saving needs of each star on the canvas, in order. */
    function Rows(): seq<Row>
      reads this, stars
    {
      seq(|stars|, i reads this, stars requires 0 <= i < |stars| =>
        Row(stars[i].model.originalLine, stars[i].name, stars[i].ownerIndex))
    }

    /**
     * GenerateMap after the generated file has been read: the canvas holds a
     * new, unowned view model for every star row of the text, in order.
     * Star names are supplied by names.
     */
    method GenerateMap(text: string, parse: string -> Option<real>, names: nat -> string)
      modifies this`stars
      ensures |stars| == |Loaded(SplitLines(text), parse)|
      ensures forall i :: 0 <= i < |stars| ==>
                && fresh(stars[i])
                && stars[i].model == Loaded(SplitLines(text), parse)[i]
                && stars[i].name == names(i)
                && stars[i].ownerIndex == None
      ensures DistinctStars()
    {
      stars := [];
      var raw, minX, maxX, minY, maxY := LoadStars(text, parse);
      stars := NewViewModels(raw, names);
    }

    /** A new, unowned view model for every loaded star, in order, named by names. */
    static method NewViewModels(raw: seq<StarData>, names: nat -> string) returns (created: seq<StarViewModel>)
      ensures |created| == |raw|
      ensures forall i :: 0 <= i < |created| ==>
                && fresh(created[i])
                && created[i].model == raw[i] && created[i].name == names(i) && created[i].ownerIndex == None
      ensures forall i, j :: 0 <= i < j < |created| ==> created[i] != created[j]
    {
      created := [];
      for i := 0 to |raw|
        invariant |created| == i
        invariant forall j :: 0 <= j < i ==>
                    && fresh(created[j])
                    && created[j].model == raw[j] && created[j].name == names(j) && created[j].ownerIndex == None
        invariant forall j, l :: 0 <= j < l < i ==> created[j] != created[l]
      {
        var star := new StarViewModel(raw[i], names(i));
        created := created + [star];
      }
    }

    /** The owner indices in use, gathered by walking the canvas. */
    method UsedOwnerIndices() returns (used: seq<int>)
      ensures used == UsedIndices(Owners())
    {
      used := [];
      ghost var owners := Owners();
      for i := 0 to |stars|
        invariant used == UsedIndices(owners[..i])
      {
        assert owners[..i + 1][..i] == owners[..i];
        match stars[i].ownerIndex {
          case Some(v) => used := used + [v];
          case None =>
        }
      }
      assert owners[..|stars|] == owners;
    }

    /**
     * A click on a star: an owned star is freed; a free star is given the
     * smallest player index 0..7 held by no star on the canvas, and stays
     * free when all eight are held. No other star changes, and a canvas on
     * which no player owns two stars keeps that property.
     */
    method OnStarClicked(star: StarViewModel?)
      requires DistinctStars()
      modifies star
      ensures star != null ==> star.ownerIndex == ClickedOwner(old(star.ownerIndex), old(Owners()))
      ensures forall i :: 0 <= i < |stars| && stars[i] != star ==> stars[i].ownerIndex == old(stars[i].ownerIndex)
      ensures DistinctOwners(old(Owners())) ==> DistinctOwners(Owners())
      ensures DistinctStars()
    {
      if star == null {
        return;
      }
      ghost var owners := Owners();
      ghost var before := star.ownerIndex;
      assert forall i :: 0 <= i < |stars| && stars[i] == star ==> owners[i] == before;
      if star.ownerIndex.Some? {
        star.SetOwnerIndex(None);
      } else {
        var usedIndices := UsedOwnerIndices();
        for i := 0 to Players
          invariant forall j :: 0 <= j < i ==> j in usedIndices
          invariant star.ownerIndex == None
        {
          if i !in usedIndices {
            assert SmallestFree(usedIndices) == Some(i);
            star.SetOwnerIndex(Some(i));
            break;
          }
        }
        assert star.ownerIndex.None? ==> SmallestFree(usedIndices) == None;
      }
      assert star.ownerIndex == ClickedOwner(before, owners);
      ClickPreservesDistinct(owners, star);
    }

    /** The owners after a click on star are the old owners with the clicked star's entry replaced. */
    lemma ClickPreservesDistinct(owners: seq<Option<int>>, star: StarViewModel)
      requires DistinctStars()
      requires |owners| == |stars|
      requires forall i :: 0 <= i < |stars| && stars[i] != star ==> stars[i].ownerIndex == owners[i]
      requires forall i :: 0 <= i < |stars| && stars[i] == star ==> star.ownerIndex == ClickedOwner(owners[i], owners)
      ensures DistinctOwners(owners) ==> DistinctOwners(Owners())
    {
      if DistinctOwners(owners) {
        if p :| 0 <= p < |stars| && stars[p] == star {
          ClickKeepsDistinct(owners, p);
          assert Owners() == owners[p := ClickedOwner(owners[p], owners)];
        } else {
          assert Owners() == owners;
        }
      }
    }

    /**
     * SaveMap: the text written to the opened map file, built line by line;
     * its lines are those SaveLines lays out for the stars on the canvas.
     */
    method SaveMap() returns (text: string)
      ensures text == Document(SaveLines(Rows()))
    {
      var starText := WriteStarRows();
      var colonyText, hasColonies := WriteColonyRows();
      var trailerText := "";
      if hasColonies {
        trailerText := "" + NewLine + RandomizeColonies + NewLine;
      }
      text := starText + "" + NewLine + colonyText + trailerText;
      SaveDocument(Rows(), starText, colonyText, trailerText);
    }

    /** The first loop of SaveMap: one row per star, with its name when owned. */
    method WriteStarRows() returns (text: string)
      ensures text == Document(StarLines(Rows()))
    {
      ghost var rows := Rows();
      ghost var lines: seq<string> := [];
      text := "";
      for i := 0 to |stars|
        invariant text == Document(lines)
        invariant lines == StarLines(rows[..i])
      {
        var star := stars[i];
        var line := star.model.originalLine;
        var out := if star.ownerIndex.Some? then line + "," + star.name else line;
        assert out == StarLine(rows[i]);
        assert StarLines(rows[..i + 1]) == StarLines(rows[..i]) + [out];
        DocumentSnoc(lines, out);
        text := text + out + NewLine;
        lines := lines + [out];
      }
      assert rows[..|stars|] == rows;
    }

    /** The second loop of SaveMap: a colony row per owned star, and whether there was one. */
    method WriteColonyRows() returns (text: string, hasColonies: bool)
      ensures text == Document(ColonyLines(Owned(Rows())))
      ensures hasColonies <==> |Owned(Rows())| > 0
    {
      ghost var rows := Rows();
      ghost var lines := [];
      text := "";
      hasColonies := false;
      for i := 0 to |stars|
        invariant text == Document(lines)
        invariant lines == ColonyLines(Owned(rows[..i]))
        invariant hasColonies <==> |Owned(rows[..i])| > 0
      {
        var star := stars[i];
        ColonyLinesSnoc(rows, i);
        match star.ownerIndex {
          case Some(v) =>
            var out := "colony,player" + IntToString(v) + "," + star.name + ",,";
            assert out == ColonyLine(rows[i]);
            DocumentSnoc(lines, out);
            text := text + out + NewLine;
            lines := lines + [out];
            hasColonies := true;
          case None =>
        }
      }
      assert rows[..|stars|] == rows;
    }
  }
}
