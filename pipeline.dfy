/**
 * The enhancement pipeline of the Enhance screen (`DepixelWindow.run_depixelation`):
 * 8-bit height x width x channel raster -> samples in [0, 1] -> channel-first tensor
 * with a batch dimension -> opaque model -> batch dimension removed, channel-last ->
 * clamped to [0, 1] -> scaled by 255 and truncated to 8 bits.
 *
 * Exact reals stand for float32 samples; the model is an arbitrary function.
 */
module Pipeline {
  import opened Wrappers

  /** An unsigned 8-bit sample (numpy `uint8`). */
  type Byte = x: int | 0 <= x < 256

  /** A dense three-dimensional array: `cells[a][b][c]` with extents `d0`, `d1`, `d2`. */
  datatype Grid<T> = Grid(d0: nat, d1: nat, d2: nat, cells: seq<seq<seq<T>>>) {
    /** Every row has the declared extents (a numpy array or a torch tensor is never ragged). */
    predicate Shaped() {
      && |cells| == d0
      && forall a :: 0 <= a < d0 ==>
           |cells[a]| == d1 && forall b :: 0 <= b < d1 ==> |cells[a][b]| == d2
    }

    /** The extents are (e0, e1, e2). */
    predicate HasExtents(e0: nat, e1: nat, e2: nat) {
      d0 == e0 && d1 == e1 && d2 == e2
    }
  }

  /** A decoded image as `np.array(image)` sees it: `[h][w][c]` of 8-bit samples. */
  type Raster = g: Grid<Byte> | g.Shaped() witness Grid(0, 0, 0, [])

  /** A rank-3 float tensor. */
  type Tensor3 = g: Grid<real> | g.Shaped() witness Grid(0, 0, 0, [])

  /** A rank-4 tensor: a batch (leading dimension) of rank-3 tensors. */
  type Batch = seq<Tensor3>

  /** The enhancement network as a black box; `None` stands for a call that raises. */
  type Model = Batch -> Option<Batch>

  /** The exceptions that `run_depixelation` lets escape. */
  datatype PipelineError =
    | InferenceFailed       // the model call raised
    | ShapeMismatch(batch: nat)  // the output batch is not of size 1, so permute(1, 2, 0) raises

  /** Samples of `t` all lie in [0, 1]. */
  predicate InUnitRange(t: Tensor3) {
    forall a, b, c :: 0 <= a < t.d0 && 0 <= b < t.d1 && 0 <= c < t.d2 ==>
      0.0 <= t.cells[a][b][c] <= 1.0
  }

  /** Apply `f` to every sample, keeping the layout. */
  function Map3<T, U>(g: Grid<T>, f: T -> U): (r: Grid<U>)
    requires g.Shaped()
    ensures r.Shaped() && r.HasExtents(g.d0, g.d1, g.d2)
    ensures forall a, b, c :: 0 <= a < g.d0 && 0 <= b < g.d1 && 0 <= c < g.d2 ==>
              r.cells[a][b][c] == f(g.cells[a][b][c])
  {
    Grid(g.d0, g.d1, g.d2,
         seq(g.d0, a requires 0 <= a < g.d0 =>
           seq(g.d1, b requires 0 <= b < g.d1 =>
             seq(g.d2, c requires 0 <= c < g.d2 => f(g.cells[a][b][c])))))
  }

  /** Two shaped grids with the same extents and the same samples are equal. */
  lemma GridExtensionality<T>(g: Grid<T>, h: Grid<T>)
    requires g.Shaped() && h.Shaped() && h.HasExtents(g.d0, g.d1, g.d2)
    requires forall a, b, c :: 0 <= a < g.d0 && 0 <= b < g.d1 && 0 <= c < g.d2 ==>
               g.cells[a][b][c] == h.cells[a][b][c]
    ensures g == h
  {
    forall a | 0 <= a < g.d0
      ensures g.cells[a] == h.cells[a]
    {
      forall b | 0 <= b < g.d1
        ensures g.cells[a][b] == h.cells[a][b]
      {
      }
    }
  }

  // ---------------------------------------------------------------- the steps

  /** `np.array(image).astype(np.float32) / 255.0`: every sample scaled into [0, 1]. */
  function Normalize(img: Raster): (x: Tensor3)
    ensures x.HasExtents(img.d0, img.d1, img.d2)
    ensures InUnitRange(x)
    ensures forall a, b, c :: 0 <= a < x.d0 && 0 <= b < x.d1 && 0 <= c < x.d2 ==>
              x.cells[a][b][c] * 255.0 == img.cells[a][b][c] as real
  {
    Map3(img, (s: Byte) => s as real / 255.0)
  }

  /** `permute(2, 0, 1)`: height x width x channel becomes channel x height x width. */
  function HwcToChw(x: Tensor3): (t: Tensor3)
    ensures t.HasExtents(x.d2, x.d0, x.d1)
    ensures forall h, w, c :: 0 <= h < x.d0 && 0 <= w < x.d1 && 0 <= c < x.d2 ==>
              t.cells[c][h][w] == x.cells[h][w][c]
  {
    Grid(x.d2, x.d0, x.d1,
         seq(x.d2, c requires 0 <= c < x.d2 =>
           seq(x.d0, h requires 0 <= h < x.d0 =>
             seq(x.d1, w requires 0 <= w < x.d1 => x.cells[h][w][c]))))
  }

  /** `permute(1, 2, 0)`: channel x height x width becomes height x width x channel. */
  function ChwToHwc(t: Tensor3): (x: Tensor3)
    ensures x.HasExtents(t.d1, t.d2, t.d0)
    ensures forall h, w, c :: 0 <= h < t.d1 && 0 <= w < t.d2 && 0 <= c < t.d0 ==>
              x.cells[h][w][c] == t.cells[c][h][w]
  {
    Grid(t.d1, t.d2, t.d0,
         seq(t.d1, h requires 0 <= h < t.d1 =>
           seq(t.d2, w requires 0 <= w < t.d2 =>
             seq(t.d0, c requires 0 <= c < t.d0 => t.cells[c][h][w]))))
  }

  /** `unsqueeze(0)`: a batch holding exactly the one tensor. */
  function Unsqueeze(t: Tensor3): (b: Batch)
    ensures |b| == 1 && b[0] == t
  {
    [t]
  }

  /** `squeeze()` followed by the rank check of `permute(1, 2, 0)`: only a batch of one survives. */
  function Squeeze(b: Batch): (r: Result<Tensor3, PipelineError>)
    ensures r.Ok? <==> |b| == 1
    ensures r.Ok? ==> Unsqueeze(r.value) == b
    ensures r.Err? ==> r.error == ShapeMismatch(|b|)
  {
    if |b| == 1 then Ok(b[0]) else Err(ShapeMismatch(|b|))
  }

  /** `clamp(0, 1)` on one sample. */
  function Clamp01(v: real): (r: real)
    ensures 0.0 <= r <= 1.0
    ensures 0.0 <= v <= 1.0 ==> r == v
    ensures v < 0.0 ==> r == 0.0
    ensures v > 1.0 ==> r == 1.0
  {
    if v < 0.0 then 0.0 else if v > 1.0 then 1.0 else v
  }

  /** `clamp(0, 1)` on a tensor: every sample lands in [0, 1], in-range samples are kept. */
  function ClampTensor(x: Tensor3): (r: Tensor3)
    ensures r.HasExtents(x.d0, x.d1, x.d2)
    ensures InUnitRange(r)
    ensures forall a, b, c :: 0 <= a < x.d0 && 0 <= b < x.d1 && 0 <= c < x.d2 ==>
              r.cells[a][b][c] == Clamp01(x.cells[a][b][c])
  {
    Map3(x, Clamp01)
  }

  /**
   * `(v * 255).astype(np.uint8)` on a sample already clamped: truncation toward zero,
   * which on a non-negative product is the floor.
   */
  function ToByte(v: real): (s: Byte)
    requires 0.0 <= v <= 1.0
    ensures s as real <= v * 255.0 < s as real + 1.0
  {
    (v * 255.0).Floor
  }

  /** `(x * 255).astype(np.uint8)` on a clamped tensor, giving the output raster. */
  function Denormalize(x: Tensor3): (img: Raster)
    requires InUnitRange(x)
    ensures img.HasExtents(x.d0, x.d1, x.d2)
    ensures forall a, b, c :: 0 <= a < x.d0 && 0 <= b < x.d1 && 0 <= c < x.d2 ==>
              img.cells[a][b][c] as real <= x.cells[a][b][c] * 255.0 < img.cells[a][b][c] as real + 1.0
  {
    Grid(x.d0, x.d1, x.d2,
         seq(x.d0, a requires 0 <= a < x.d0 =>
           seq(x.d1, b requires 0 <= b < x.d1 =>
             seq(x.d2, c requires 0 <= c < x.d2 => ToByte(x.cells[a][b][c])))))
  }

  /** The tensor handed to the model: normalised, channel-first, batch of one. */
  function ModelInput(img: Raster): (b: Batch)
    ensures |b| == 1 && b[0].HasExtents(img.d2, img.d0, img.d1)
    ensures forall h, w, c :: 0 <= h < img.d0 && 0 <= w < img.d1 && 0 <= c < img.d2 ==>
              b[0].cells[c][h][w] * 255.0 == img.cells[h][w][c] as real
  {
    Unsqueeze(HwcToChw(Normalize(img)))
  }

  /** Squeeze, permute back, clamp and cast the model's output. */
  function Encode(out: Batch): (r: Result<Raster, PipelineError>)
    ensures r.Ok? <==> |out| == 1
    ensures r.Err? ==> r.error == ShapeMismatch(|out|)
    ensures r.Ok? ==>
              && r.value.HasExtents(out[0].d1, out[0].d2, out[0].d0)
              && forall h, w, c :: 0 <= h < out[0].d1 && 0 <= w < out[0].d2 && 0 <= c < out[0].d0 ==>
                   r.value.cells[h][w][c] == ToByte(Clamp01(out[0].cells[c][h][w]))
  {
    match Squeeze(out)
    case Err(e) => Err(e)
    case Ok(t) => Ok(Denormalize(ClampTensor(ChwToHwc(t))))
  }

  /** `run_depixelation(model, image)`. */
  function RunDepixelation(model: Model, img: Raster): (r: Result<Raster, PipelineError>)
    ensures r.Err? <==> model(ModelInput(img)).None? || |model(ModelInput(img)).value| != 1
    ensures model(ModelInput(img)).None? ==> r == Err(InferenceFailed)
    ensures model(ModelInput(img)).Some? && r.Err? ==> r.error == ShapeMismatch(|model(ModelInput(img)).value|)
  {
    match model(ModelInput(img))
    case None => Err(InferenceFailed)
    case Some(out) => Encode(out)
  }

  // ---------------------------------------------------------------- properties

  /** `permute(1, 2, 0)` undoes `permute(2, 0, 1)`: every `[h][w][c]` sample returns to its place. */
  lemma HwcRoundTrip(x: Tensor3)
    ensures ChwToHwc(HwcToChw(x)) == x
  {
    var y := ChwToHwc(HwcToChw(x));
    GridExtensionality(y, x);
  }

  /** And `permute(2, 0, 1)` undoes `permute(1, 2, 0)`. */
  lemma ChwRoundTrip(t: Tensor3)
    ensures HwcToChw(ChwToHwc(t)) == t
  {
    var y := HwcToChw(ChwToHwc(t));
    GridExtensionality(y, t);
  }

  /** Normalising an 8-bit sample and quantising it back is the identity (exact arithmetic). */
  lemma SampleRoundTrip(s: Byte)
    ensures ToByte(Clamp01(s as real / 255.0)) == s
  {
  }

  /**
   * A successful run had a one-element network output `o`; the emitted raster has extents
   * (h, w, c) of `o`, and each of its 8-bit samples is the truncation of 255 times the
   * clamped output sample at the transposed index.
   */
  lemma OutputRange(model: Model, img: Raster)
    requires RunDepixelation(model, img).Ok?
    ensures model(ModelInput(img)).Some? && |model(ModelInput(img)).value| == 1
    ensures var o := model(ModelInput(img)).value[0];
            var out := RunDepixelation(model, img).value;
            && out.HasExtents(o.d1, o.d2, o.d0)
            && forall h, w, c :: 0 <= h < o.d1 && 0 <= w < o.d2 && 0 <= c < o.d0 ==>
                 && out.cells[h][w][c] == ToByte(Clamp01(o.cells[c][h][w]))
                 && out.cells[h][w][c] as real <= Clamp01(o.cells[c][h][w]) * 255.0 < out.cells[h][w][c] as real + 1.0
  {
  }

  /** The model that returns its input unchanged (scale factor 1). */
  function IdentityModel(b: Batch): (r: Option<Batch>)
    ensures r == Some(b)
  {
    Some(b)
  }

  /** With the identity stand-in model the pipeline returns the input raster exactly. */
  lemma IdentityRoundTrip(img: Raster)
    ensures RunDepixelation(IdentityModel, img) == Ok(img)
  {
    var t := HwcToChw(Normalize(img));
    var r := RunDepixelation(IdentityModel, img);
    assert ModelInput(img) == [t];
    assert r.Ok?;
    forall h, w, c | 0 <= h < img.d0 && 0 <= w < img.d1 && 0 <= c < img.d2
      ensures r.value.cells[h][w][c] == img.cells[h][w][c]
    {
      assert t.cells[c][h][w] == img.cells[h][w][c] as real / 255.0;
      SampleRoundTrip(img.cells[h][w][c]);
    }
    GridExtensionality(r.value, img);
  }

  /** The output raster takes its height, width and channel count from the model's output tensor. */
  lemma OutputShape(model: Model, img: Raster, c: nat, h: nat, w: nat)
    requires model(ModelInput(img)).Some?
    requires |model(ModelInput(img)).value| == 1
    requires model(ModelInput(img)).value[0].HasExtents(c, h, w)
    ensures RunDepixelation(model, img).Ok?
    ensures RunDepixelation(model, img).value.HasExtents(h, w, c)
  {
  }
}
