/** process_light_pollution and the two calls at the bottom of main.py: floor
    the clipped image, classify its first band cell by cell, and report the
    area share of every Bortle class. Reading the raster, the boundary and the
    mask itself happen before this model starts; the image they produce is its
    input. */
module Pipeline {
  import Bortle
  import Raster
  import Statistics

  /** `np.vectorize(calculate_bortle_scale)` applied to a band: a grid of the
      same shape whose every cell is the class of the matching radiance. */
  function ClassifyGrid(data: seq<real>): (bortleMap: seq<int>)
    ensures |bortleMap| == |data|
    ensures forall i :: 0 <= i < |data| ==> bortleMap[i] == Bortle.Classify(data[i])
    ensures Statistics.AllClasses(bortleMap)
  {
    if data == [] then [] else [Bortle.Classify(data[0])] + ClassifyGrid(data[1..])
  }

  /** A brighter cell never gets a darker class than a dimmer cell of the
      same band. */
  lemma ClassifyGridMonotone(data: seq<real>, i: nat, j: nat)
    requires i < |data| && j < |data| && data[i] <= data[j]
    ensures ClassifyGrid(data)[i] <= ClassifyGrid(data)[j]
  {
    Bortle.ClassifyMonotone(data[i], data[j]);
  }

  lemma BandFits(bands: nat, rows: nat, cols: nat)
    requires bands >= 1
    ensures rows * cols <= bands * rows * cols
  {
  }

  /** What process_light_pollution hands back: the classified band, or the
      error np.vectorize raises on a band with no cells (it is called
      without `otypes`, so it cannot infer an output type from size 0). */
  datatype Classification = BortleMap(grid: seq<int>) | EmptyBand

  /** The outcome of the script: the per-level percentages, or the failure
      that stopped it. An empty band stops it in process_light_pollution, so
      the division by zero of the statistics is never reached from here. */
  datatype Analysis = Reported(byLevel: seq<real>) | Stopped

  /** process_light_pollution from the clipped image on: floor negative
      radiance in place, take band 0 and classify it cell by cell. */
  method ProcessLightPollution(outImage: array<real>, bands: nat, rows: nat, cols: nat)
    returns (result: Classification)
    requires bands >= 1 && outImage.Length == bands * rows * cols
    modifies outImage
    ensures rows * cols <= outImage.Length
    ensures outImage[..] == Raster.Floored(old(outImage[..]))
    ensures rows * cols == 0 ==> result == EmptyBand
    ensures rows * cols > 0 ==> result == BortleMap(ClassifyGrid(Raster.FirstBand(outImage[..], rows, cols)))
  {
    Raster.FloorNegatives(outImage);
    BandFits(bands, rows, cols);
    var data := Raster.FirstBand(outImage[..], rows, cols);
    if |data| == 0 {
      return EmptyBand;
    }
    result := BortleMap(ClassifyGrid(data));
  }

  /** The script: classify the region, then report the share of each class. */
  method AnalyseRegion(outImage: array<real>, bands: nat, rows: nat, cols: nat)
    returns (outcome: Analysis)
    requires bands >= 1 && outImage.Length == bands * rows * cols
    modifies outImage
    ensures rows * cols <= outImage.Length
    ensures outImage[..] == Raster.Floored(old(outImage[..]))
    ensures rows * cols == 0 ==> outcome == Stopped
    ensures rows * cols > 0 ==> outcome == Reported(
      Statistics.LevelPercentages(ClassifyGrid(Raster.FirstBand(outImage[..], rows, cols))))
  {
    var bortleResults := ProcessLightPollution(outImage, bands, rows, cols);
    if bortleResults.EmptyBand? {
      return Stopped;
    }
    var report := Statistics.CalculateAreaStatistics(bortleResults.grid);
    if report.DivisionByZero? {
      return Stopped;
    }
    outcome := Reported(report.byLevel);
  }

  /** For every non-empty band, the classes' counts cover every cell and the
      report's nine percentages add up to exactly 100. */
  lemma BandReportSumsTo100(data: seq<real>)
    requires |data| > 0
    ensures Statistics.CountRange(ClassifyGrid(data), 1, 9) == |data|
    ensures Statistics.Sum(Statistics.LevelPercentages(ClassifyGrid(data))) == 100.0
  {
    Statistics.LevelCountsCoverGrid(ClassifyGrid(data));
    Statistics.PercentagesSumTo100(ClassifyGrid(data));
  }

  /** After flooring every cell of band 0 is non-negative, and a cell that was
      zero or negative is class 1; this covers the mask's fill outside the
      boundary when that fill is 0 or negative. */
  lemma FlooredBandClasses(cells: seq<real>, rows: nat, cols: nat, i: nat)
    requires rows * cols <= |cells| && i < rows * cols
    ensures Raster.FirstBand(Raster.Floored(cells), rows, cols)[i] >= 0.0
    ensures cells[i] <= 0.0 ==> ClassifyGrid(Raster.FirstBand(Raster.Floored(cells), rows, cols))[i] == 1
  {
  }
}
