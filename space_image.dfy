/**
 * The Space Image Format of day 8 (`src/bin/day8.rs`): an image is a
 * digit string cut into layers of `w * h` pixels. Part one picks the
 * layer with the fewest 0 digits and multiplies its counts of 1s and 2s;
 * part two composites the layers, each pixel taking its value from the
 * first layer in which it is not transparent (2).
 */
module SpaceImage {
  import opened RustInt

  const WIDTH: nat := 25
  const HEIGHT: nat := 6
  const TRANSPARENT: nat := 2
  /** `std::usize::MAX`, the initial fewest count of zeros. */
  const USIZE_MAX: nat := 0xffff_ffff_ffff_ffff

  /**
   * `parse_space_image_format`: consecutive chunks of `w * h` pixels. The
   * source asserts that the image is a whole number of layers.
   */
  function Layers(image: seq<nat>, w: nat, h: nat): (layers: seq<seq<nat>>)
    requires w * h > 0 && |image| % (w * h) == 0
    ensures |layers| == |image| / (w * h)
    ensures forall l :: 0 <= l < |layers| ==> |layers[l]| == w * h
    decreases |image|
  {
    var n := w * h;
    if |image| == 0 then []
    else
      assert n <= |image| && |image[n..]| % n == 0 && |image[n..]| / n == |image| / n - 1 by {
        if |image| < n {
          DivUnique(|image|, n, 0, |image|);
        }
        DivStep(|image|, n);
      }
      [image[..n]] + Layers(image[n..], w, h)
  }

  function Flatten(layers: seq<seq<nat>>): seq<nat>
  {
    if |layers| == 0 then [] else layers[0] + Flatten(layers[1..])
  }

  /** The layers, laid end to end, are the image again. */
  lemma {:induction false} LayersFlatten(image: seq<nat>, w: nat, h: nat)
    requires w * h > 0 && |image| % (w * h) == 0
    ensures Flatten(Layers(image, w, h)) == image
    decreases |image|
  {
    var n := w * h;
    if |image| > 0 {
      assert n <= |image| && |image[n..]| % n == 0 by {
        if |image| < n {
          DivUnique(|image|, n, 0, |image|);
        }
        DivStep(|image|, n);
      }
      LayersFlatten(image[n..], w, h);
      assert Layers(image, w, h)[1..] == Layers(image[n..], w, h);
      assert image[..n] + image[n..] == image;
    }
  }

  /** Layer `l` holds pixels `l * w * h` up to `(l + 1) * w * h` of the image. */
  lemma {:induction false} LayerIsSlice(image: seq<nat>, w: nat, h: nat, l: nat)
    requires w * h > 0 && |image| % (w * h) == 0 && l < |image| / (w * h)
    ensures (l + 1) * (w * h) <= |image|
    ensures Layers(image, w, h)[l] == image[l * (w * h)..(l + 1) * (w * h)]
    decreases l
  {
    var n := w * h;
    assert n <= |image| && |image[n..]| % n == 0 && |image[n..]| / n == |image| / n - 1 by {
      if |image| < n {
        DivUnique(|image|, n, 0, |image|);
      }
      DivStep(|image|, n);
    }
    if l > 0 {
      LayerIsSlice(image[n..], w, h, l - 1);
      var lo, hi := l * n, (l + 1) * n;
      assert (l - 1) * n == lo - n && l * n == hi - n by {
        Neighbours(l, n);
      }
      assert Layers(image, w, h)[l] == Layers(image[n..], w, h)[l - 1];
      assert image[n..][lo - n..hi - n] == image[lo..hi];
    }
  }

  /** The multiples of `n` next to `l * n`. */
  lemma Neighbours(l: int, n: int)
    ensures (l - 1) * n == l * n - n && (l + 1) * n == l * n + n
  {
  }

  /** How many pixels of a layer have value `v` (`cnt_n`). */
  function Count(layer: seq<nat>, v: nat): nat
  {
    multiset(layer)[v]
  }

  /** Layer `id` has the fewest zeros, and every earlier layer has strictly more. */
  ghost predicate FewestZerosAt(layers: seq<seq<nat>>, id: nat)
  {
    && id < |layers|
    && (forall j :: 0 <= j < |layers| ==> Count(layers[id], 0) <= Count(layers[j], 0))
    && (forall j :: 0 <= j < id ==> Count(layers[j], 0) > Count(layers[id], 0))
  }

  /** Because the comparison is strict, there is only one such layer: ties go to the earliest. */
  lemma FewestZerosUnique(layers: seq<seq<nat>>, a: nat, b: nat)
    requires FewestZerosAt(layers, a) && FewestZerosAt(layers, b)
    ensures a == b
  {
    if a < b {
      EarlierHasMore(layers, b, a);
      assert false;
    } else if b < a {
      EarlierHasMore(layers, a, b);
      assert false;
    }
  }

  lemma EarlierHasMore(layers: seq<seq<nat>>, id: nat, j: nat)
    requires FewestZerosAt(layers, id) && j < id
    ensures Count(layers[j], 0) > Count(layers[id], 0)
  {
  }

  /**
   * `part_one`'s search for the layer with the fewest zeros. A `Vec` never
   * holds `usize::MAX` elements, so every layer's zero count is below the
   * initial minimum and the first layer always replaces it.
   */
  method FewestZeros(layers: seq<seq<nat>>) returns (id: nat)
    requires forall l :: 0 <= l < |layers| ==> |layers[l]| < USIZE_MAX
    ensures |layers| > 0 ==> FewestZerosAt(layers, id)
    ensures |layers| == 0 ==> id == 0
  {
    var min0 := USIZE_MAX;
    id := 0;
    for k := 0 to |layers|
      invariant k == 0 ==> min0 == USIZE_MAX && id == 0
      invariant k > 0 ==> FewestZerosAt(layers[..k], id) && min0 == Count(layers[id], 0)
    {
      var cnt0 := Count(layers[k], 0);
      assert cnt0 <= |layers[k]|;
      if cnt0 < min0 {
        min0 := cnt0;
        id := k;
      }
      assert layers[..k + 1][id] == layers[id];
    }
    if |layers| > 0 {
      assert layers[..|layers|] == layers;
    }
  }

  /** `part_one`: in the layer with the fewest zeros, the count of 1s times the count of 2s. */
  method PartOne(pixels: seq<nat>) returns (n: nat)
    requires |pixels| % (WIDTH * HEIGHT) == 0 && |pixels| > 0
    ensures exists id: nat ::
              && FewestZerosAt(Layers(pixels, WIDTH, HEIGHT), id)
              && n == Count(Layers(pixels, WIDTH, HEIGHT)[id], 1) * Count(Layers(pixels, WIDTH, HEIGHT)[id], 2)
  {
    var layers := Layers(pixels, WIDTH, HEIGHT);
    assert |layers| > 0 by {
      if |pixels| < WIDTH * HEIGHT {
        DivUnique(|pixels|, WIDTH * HEIGHT, 0, |pixels|);
      }
      DivStep(|pixels|, WIDTH * HEIGHT);
    }
    var id := FewestZeros(layers);
    n := Count(layers[id], 1) * Count(layers[id], 2);
  }

  /**
   * The value pixel `p` shows through the stack, searching from layer `l`
   * on: the first value that is not transparent, if any.
   */
  function Visible(layers: seq<seq<nat>>, p: nat): (r: Option<nat>)
    requires forall l :: 0 <= l < |layers| ==> p < |layers[l]|
    ensures r.Some? <==> exists l :: 0 <= l < |layers| && layers[l][p] != TRANSPARENT
    ensures r.Some? ==> exists l :: (0 <= l < |layers| && layers[l][p] == r.value != TRANSPARENT
                                     && forall k :: 0 <= k < l ==> layers[k][p] == TRANSPARENT)
    decreases |layers|
  {
    if |layers| == 0 then None
    else if layers[0][p] != TRANSPARENT then Some(layers[0][p])
    else
      var r := Visible(layers[1..], p);
      assert forall l :: 1 <= l < |layers| ==> layers[1..][l - 1] == layers[l];
      r
  }

  /**
   * `part_two`'s compositing loop over the first `size` pixels: each takes
   * the first non-transparent value in the stack. The source unwraps the
   * search, so a pixel transparent in every layer gives no image.
   */
  method Composite(layers: seq<seq<nat>>, size: nat) returns (image: Option<seq<nat>>)
    requires forall l :: 0 <= l < |layers| ==> size <= |layers[l]|
    ensures image.Some? <==> forall p :: 0 <= p < size ==> Visible(layers, p).Some?
    ensures image.Some? ==> (|image.value| == size
                             && forall p :: 0 <= p < size ==> image.value[p] == Visible(layers, p).value)
  {
    var pixels := [];
    for p := 0 to size
      invariant |pixels| == p
      invariant forall q :: 0 <= q < p ==> Visible(layers, q).Some? && pixels[q] == Visible(layers, q).value
    {
      var v := Visible(layers, p);
      if v.None? {
        assert !Visible(layers, p).Some?;
        return None;
      }
      pixels := pixels + [v.value];
    }
    return Some(pixels);
  }

  /** The layer tests: eight pixels cut 2 by 1, 2 by 4 and 4 by 2, and twelve cut 3 by 2. */
  lemma ParseExamples()
    ensures Layers([1, 2, 3, 4, 5, 6, 7, 8], 2, 1) == [[1, 2], [3, 4], [5, 6], [7, 8]]
    ensures Layers([1, 2, 3, 4, 5, 6, 7, 8], 2, 4) == [[1, 2, 3, 4, 5, 6, 7, 8]]
    ensures Layers([1, 2, 3, 4, 5, 6, 7, 8], 4, 2) == [[1, 2, 3, 4, 5, 6, 7, 8]]
    ensures Layers([1, 2, 3, 4, 5, 6, 7, 8, 9, 0, 1, 2], 3, 2) == [[1, 2, 3, 4, 5, 6], [7, 8, 9, 0, 1, 2]]
  {
    var a6 := [7, 8];
    assert a6[..2] == [7, 8] && a6[2..] == [];
    assert Layers(a6[2..], 2, 1) == [];
    assert Layers(a6, 2, 1) == [[7, 8]];
    var a4 := [5, 6, 7, 8];
    assert a4[..2] == [5, 6] && a4[2..] == [7, 8];
    assert Layers(a4, 2, 1) == [[5, 6], [7, 8]];
    var a2 := [3, 4, 5, 6, 7, 8];
    assert a2[..2] == [3, 4] && a2[2..] == [5, 6, 7, 8];
    assert Layers(a2, 2, 1) == [[3, 4], [5, 6], [7, 8]];
    var a0 := [1, 2, 3, 4, 5, 6, 7, 8];
    assert a0[..2] == [1, 2] && a0[2..] == [3, 4, 5, 6, 7, 8];
    assert Layers(a0, 2, 1) == [[1, 2], [3, 4], [5, 6], [7, 8]];
    var b0 := [1, 2, 3, 4, 5, 6, 7, 8];
    assert b0[..8] == [1, 2, 3, 4, 5, 6, 7, 8] && b0[8..] == [];
    assert Layers(b0[8..], 2, 4) == [];
    assert Layers(b0, 2, 4) == [[1, 2, 3, 4, 5, 6, 7, 8]];
    var c0 := [1, 2, 3, 4, 5, 6, 7, 8];
    assert c0[..8] == [1, 2, 3, 4, 5, 6, 7, 8] && c0[8..] == [];
    assert Layers(c0[8..], 4, 2) == [];
    assert Layers(c0, 4, 2) == [[1, 2, 3, 4, 5, 6, 7, 8]];
    var d6 := [7, 8, 9, 0, 1, 2];
    assert d6[..6] == [7, 8, 9, 0, 1, 2] && d6[6..] == [];
    assert Layers(d6[6..], 3, 2) == [];
    assert Layers(d6, 3, 2) == [[7, 8, 9, 0, 1, 2]];
    var d0 := [1, 2, 3, 4, 5, 6, 7, 8, 9, 0, 1, 2];
    assert d0[..6] == [1, 2, 3, 4, 5, 6] && d0[6..] == [7, 8, 9, 0, 1, 2];
    assert Layers(d0, 3, 2) == [[1, 2, 3, 4, 5, 6], [7, 8, 9, 0, 1, 2]];
  }

  /** The compositing test: four 2 by 2 layers show 0, 1, 1, 0. */
  lemma CompositeExample()
    ensures var layers := Layers([0, 2, 2, 2, 1, 1, 2, 2, 2, 2, 1, 2, 0, 0, 0, 0], 2, 2);
      forall p :: 0 <= p < 4 ==> Visible(layers, p) == Some([0, 1, 1, 0][p])
  {
    ExampleLayers([0, 2, 2, 2, 1, 1, 2, 2, 2, 2, 1, 2, 0, 0, 0, 0]);
    ExampleVisible(Layers([0, 2, 2, 2, 1, 1, 2, 2, 2, 2, 1, 2, 0, 0, 0, 0], 2, 2));
  }

  /** The compositing test's sixteen pixels cut into four 2 by 2 layers. */
  lemma ExampleLayers(image: seq<nat>)
    requires image == [0, 2, 2, 2, 1, 1, 2, 2, 2, 2, 1, 2, 0, 0, 0, 0]
    ensures Layers(image, 2, 2) == [[0, 2, 2, 2], [1, 1, 2, 2], [2, 2, 1, 2], [0, 0, 0, 0]]
  {
    var layers := Layers(image, 2, 2);
    LayerIsSlice(image, 2, 2, 0);
    LayerIsSlice(image, 2, 2, 1);
    LayerIsSlice(image, 2, 2, 2);
    LayerIsSlice(image, 2, 2, 3);
    assert layers[0] == [0, 2, 2, 2] && layers[1] == [1, 1, 2, 2];
    assert layers[2] == [2, 2, 1, 2] && layers[3] == [0, 0, 0, 0];
  }

  /** What each pixel of the compositing test's layers shows. */
  lemma ExampleVisible(layers: seq<seq<nat>>)
    requires layers == [[0, 2, 2, 2], [1, 1, 2, 2], [2, 2, 1, 2], [0, 0, 0, 0]]
    ensures forall p :: 0 <= p < 4 ==> Visible(layers, p) == Some([0, 1, 1, 0][p])
  {
    ExampleLeftPixels(layers);
    ExampleRightPixels(layers);
  }

  /** Pixel 0 shows the top layer, pixel 1 the second. */
  lemma ExampleLeftPixels(layers: seq<seq<nat>>)
    requires layers == [[0, 2, 2, 2], [1, 1, 2, 2], [2, 2, 1, 2], [0, 0, 0, 0]]
    ensures Visible(layers, 0) == Some(0) && Visible(layers, 1) == Some(1)
  {
    assert Visible(layers[1..], 1) == Some(1);
  }

  /** Pixel 2 shows the third layer, pixel 3 the bottom one. */
  lemma ExampleRightPixels(layers: seq<seq<nat>>)
    requires layers == [[0, 2, 2, 2], [1, 1, 2, 2], [2, 2, 1, 2], [0, 0, 0, 0]]
    ensures Visible(layers, 2) == Some(1) && Visible(layers, 3) == Some(0)
  {
    assert Visible(layers[2..], 2) == Some(1);
    assert Visible(layers[1..], 2) == Some(1);
    assert Visible(layers[3..], 3) == Some(0);
    assert Visible(layers[2..], 3) == Some(0);
    assert Visible(layers[1..], 3) == Some(0);
  }
}
