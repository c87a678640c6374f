/** The clipped raster of process_light_pollution. The image returned by the
    mask is held flattened, band by band and row by row within a band. */
module Raster {

  /** The image after `out_image[out_image < 0] = 0`: negative radiance
      becomes 0, every other cell keeps its value. */
  function Floored(cells: seq<real>): (r: seq<real>)
    ensures |r| == |cells|
    ensures forall i :: 0 <= i < |cells| ==> r[i] >= 0.0
    ensures forall i :: 0 <= i < |cells| && cells[i] >= 0.0 ==> r[i] == cells[i]
    ensures forall i :: 0 <= i < |cells| && cells[i] < 0.0 ==> r[i] == 0.0
  {
    if cells == [] then []
    else [if cells[0] < 0.0 then 0.0 else cells[0]] + Floored(cells[1..])
  }

  /** The boolean-mask assignment of main.py, done in place over the image. */
  method FloorNegatives(image: array<real>)
    modifies image
    ensures image[..] == Floored(old(image[..]))
  {
    for i := 0 to image.Length
      invariant forall k :: 0 <= k < i ==> image[k] == if old(image[k]) < 0.0 then 0.0 else old(image[k])
      invariant forall k :: i <= k < image.Length ==> image[k] == old(image[k])
    {
      if image[i] < 0.0 {
        image[i] := 0.0;
      }
    }
  }

  /** `out_image[0]`: the first band of a band-major image, one band being
      `rows * cols` cells. */
  function FirstBand(cells: seq<real>, rows: nat, cols: nat): (band: seq<real>)
    requires rows * cols <= |cells|
    ensures |band| == rows * cols
    ensures forall i :: 0 <= i < |band| ==> band[i] == cells[i]
  {
    cells[..rows * cols]
  }

  /** Flooring a second time changes nothing. */
  lemma FlooredIdempotent(cells: seq<real>)
    ensures Floored(Floored(cells)) == Floored(cells)
  {
  }

  /** Flooring leaves an image alone exactly when it has no negative cell. */
  lemma FlooredFixedIff(cells: seq<real>)
    ensures Floored(cells) == cells <==> forall i :: 0 <= i < |cells| ==> cells[i] >= 0.0
  {
  }

  /** Taking band 0 after flooring gives the floored band 0. */
  lemma FirstBandOfFloored(cells: seq<real>, rows: nat, cols: nat)
    requires rows * cols <= |cells|
    ensures FirstBand(Floored(cells), rows, cols) == Floored(FirstBand(cells, rows, cols))
  {
  }
}
