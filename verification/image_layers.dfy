/**
 * The image layers of a render: a map from layer type to an image layer,
 * each of which may or may not hold an image. The layers report the largest
 * width and height among their images, and colours are written to and read
 * from the image of the layer a colour belongs to.
 *
 * The image class itself is not part of this model: an image is a grid of
 * `height` rows of `width` colours. Colours are opaque (`C`); the colour
 * returned for a missing layer is the zero colour the collection is built with.
 */
module Images {

  import opened Wrappers

  /** An image: `pixels[y][x]` is the colour at column x of row y. */
  datatype Image<C> = Image(width: int, height: int, pixels: seq<seq<C>>)
  {
    ghost predicate Valid() {
      0 <= width && 0 <= height && |pixels| == height &&
      forall y :: 0 <= y < |pixels| ==> |pixels[y]| == width
    }

    predicate Contains(x: int, y: int) { 0 <= x < width && 0 <= y < height }
  }

  /** One layer: an image, or none (`image_` null). */
  datatype ImageLayer<C> = ImageLayer(image: Option<Image<C>>)
  {
    /** `ImageLayer::getWidth`: the image's width, or 0 without an image. */
    function Width(): int
    {
      if image.None? then 0 else image.value.width
    }

    /** `ImageLayer::getHeight`: the image's height, or 0 without an image. */
    function Height(): int
    {
      if image.None? then 0 else image.value.height
    }
  }

  /** The largest width among the layers, 0 when there is none wider. */
  function MaxWidth<K, C>(ks: seq<K>, layers: map<K, ImageLayer<C>>): int
    requires forall i :: 0 <= i < |ks| ==> ks[i] in layers
  {
    if ks == [] then 0
    else
      var w := layers[ks[|ks| - 1]].Width();
      var m := MaxWidth(ks[..|ks| - 1], layers);
      if m < w then w else m
  }

  /** The largest height among the layers, 0 when there is none taller. */
  function MaxHeight<K, C>(ks: seq<K>, layers: map<K, ImageLayer<C>>): int
    requires forall i :: 0 <= i < |ks| ==> ks[i] in layers
  {
    if ks == [] then 0
    else
      var h := layers[ks[|ks| - 1]].Height();
      var m := MaxHeight(ks[..|ks| - 1], layers);
      if m < h then h else m
  }

  /**
   * MaxWidth is the maximum: at least 0 and every layer's width, and either
   * 0 or the width of one of the layers.
   */
  lemma {:induction false} MaxWidthIsMaximum<K, C>(ks: seq<K>, layers: map<K, ImageLayer<C>>)
    requires forall i :: 0 <= i < |ks| ==> ks[i] in layers
    ensures 0 <= MaxWidth(ks, layers)
    ensures forall i :: 0 <= i < |ks| ==> layers[ks[i]].Width() <= MaxWidth(ks, layers)
    ensures MaxWidth(ks, layers) == 0 || exists i :: 0 <= i < |ks| && MaxWidth(ks, layers) == layers[ks[i]].Width()
  {
    if ks != [] {
      var init := ks[..|ks| - 1];
      MaxWidthIsMaximum(init, layers);
      assert forall i :: 0 <= i < |init| ==> init[i] == ks[i];
      if MaxWidth(init, layers) != 0 && MaxWidth(init, layers) >= layers[ks[|ks| - 1]].Width() {
        var i :| 0 <= i < |init| && MaxWidth(init, layers) == layers[init[i]].Width();
        assert ks[i] == init[i];
      }
    }
  }

  /** MaxHeight is the maximum of the heights in the same sense. */
  lemma {:induction false} MaxHeightIsMaximum<K, C>(ks: seq<K>, layers: map<K, ImageLayer<C>>)
    requires forall i :: 0 <= i < |ks| ==> ks[i] in layers
    ensures 0 <= MaxHeight(ks, layers)
    ensures forall i :: 0 <= i < |ks| ==> layers[ks[i]].Height() <= MaxHeight(ks, layers)
    ensures MaxHeight(ks, layers) == 0 || exists i :: 0 <= i < |ks| && MaxHeight(ks, layers) == layers[ks[i]].Height()
  {
    if ks != [] {
      var init := ks[..|ks| - 1];
      MaxHeightIsMaximum(init, layers);
      assert forall i :: 0 <= i < |init| ==> init[i] == ks[i];
      if MaxHeight(init, layers) != 0 && MaxHeight(init, layers) >= layers[ks[|ks| - 1]].Height() {
        var i :| 0 <= i < |init| && MaxHeight(init, layers) == layers[init[i]].Height();
        assert ks[i] == init[i];
      }
    }
  }

  /** One layer holding a 4 x 2 image: its widest width is 4 and its tallest height 2. */
  lemma WidthIsNotHeight<K, C>(k: K, c: C)
    ensures var layers := map[k := ImageLayer(Some(Image(4, 2, [[c, c, c, c], [c, c, c, c]])))];
      MaxWidth([k], layers) == 4 && MaxHeight([k], layers) == 2
  {
    var layers := map[k := ImageLayer(Some(Image(4, 2, [[c, c, c, c], [c, c, c, c]])))];
    assert [k][..0] == [];
  }

  class ImageLayers<K(==,!new), C> {
    /** The layer types in map order, and the layer stored under each. */
    var keys: seq<K>
    var layers: map<K, ImageLayer<C>>
    /** The colour `getColor` returns for a missing layer (`Rgba{0.f}`). */
    const zero: C

    ghost predicate Valid()
      reads this
    {
      (forall i, j :: 0 <= i < j < |keys| ==> keys[i] != keys[j]) &&
      (forall k :: k in layers <==> k in keys) &&
      (forall k :: k in layers && layers[k].image.Some? ==> layers[k].image.value.Valid())
    }

    constructor (ks: seq<K>, ls: map<K, ImageLayer<C>>, zeroColour: C)
      requires forall i, j :: 0 <= i < j < |ks| ==> ks[i] != ks[j]
      requires forall k :: k in ls <==> k in ks
      requires forall k :: k in ls && ls[k].image.Some? ==> ls[k].image.value.Valid()
      ensures Valid() && keys == ks && layers == ls && zero == zeroColour
    {
      keys, layers, zero := ks, ls, zeroColour;
    }

    /**
     * `ImageLayers::getWidth`: the running maximum of the layer widths,
     * starting from 0; so the largest width, or 0 without layers.
     */
    method GetWidth() returns (width: int)
      requires Valid()
      ensures width == MaxWidth(keys, layers)
      ensures 0 <= width && forall k :: k in layers ==> layers[k].Width() <= width
      ensures width == 0 || exists k :: k in layers && width == layers[k].Width()
    {
      width := 0;
      var i := 0;
      while i < |keys|
        invariant 0 <= i <= |keys|
        invariant width == MaxWidth(keys[..i], layers)
      {
        assert keys[..i + 1][..i] == keys[..i];
        var imageWidth := layers[keys[i]].Width();
        if width < imageWidth {
          width := imageWidth;
        }
        i := i + 1;
      }
      assert keys[..i] == keys;
      MaxWidthIsMaximum(keys, layers);
      forall k | k in layers
        ensures layers[k].Width() <= width
      {
        var j :| 0 <= j < |keys| && keys[j] == k;
      }
    }

    /**
     * `ImageLayers::getHeight` as written: the loop reads each layer's
     * width, so the result is the largest width, not the largest height.
     */
    method GetHeightAsWritten() returns (height: int)
      requires Valid()
      ensures height == MaxWidth(keys, layers)
    {
      height := 0;
      var i := 0;
      while i < |keys|
        invariant 0 <= i <= |keys|
        invariant height == MaxWidth(keys[..i], layers)
      {
        assert keys[..i + 1][..i] == keys[..i];
        var imageWidth := layers[keys[i]].Width();
        if height < imageWidth {
          height := imageWidth;
        }
        i := i + 1;
      }
      assert keys[..i] == keys;
    }

    /** `ImageLayers::getHeight` as intended: the largest height, or 0 without layers. */
    method GetHeight() returns (height: int)
      requires Valid()
      ensures height == MaxHeight(keys, layers)
      ensures 0 <= height && forall k :: k in layers ==> layers[k].Height() <= height
      ensures height == 0 || exists k :: k in layers && height == layers[k].Height()
    {
      height := 0;
      var i := 0;
      while i < |keys|
        invariant 0 <= i <= |keys|
        invariant height == MaxHeight(keys[..i], layers)
      {
        assert keys[..i + 1][..i] == keys[..i];
        var imageHeight := layers[keys[i]].Height();
        if height < imageHeight {
          height := imageHeight;
        }
        i := i + 1;
      }
      assert keys[..i] == keys;
      MaxHeightIsMaximum(keys, layers);
      forall k | k in layers
        ensures layers[k].Height() <= height
      {
        var j :| 0 <= j < |keys| && keys[j] == k;
      }
    }

    /**
     * `ImageLayers::getColor`: the pixel of the layer of type `kind`, or the
     * zero colour when there is no such layer. The layer's image must exist
     * and contain the pixel.
     */
    function GetColor(x: int, y: int, kind: K): (c: C)
      reads this
      requires Valid()
      requires kind in layers ==> layers[kind].image.Some? && layers[kind].image.value.Contains(x, y)
      ensures kind !in layers ==> c == zero
      ensures kind in layers ==> c == layers[kind].image.value.pixels[y][x]
    {
      if kind in layers then layers[kind].image.value.pixels[y][x] else zero
    }

    /**
     * `ImageLayers::setColor`: the pixel is written into the image of the
     * layer of type `kind` only; without such a layer nothing changes.
     */
    method SetColor(x: int, y: int, kind: K, colour: C)
      requires Valid()
      requires kind in layers ==> layers[kind].image.Some? && layers[kind].image.value.Contains(x, y)
      modifies this`layers
      ensures Valid() && keys == old(keys)
      ensures kind !in old(layers) ==> layers == old(layers)
      ensures kind in old(layers) ==> layers.Keys == old(layers).Keys
      ensures forall k :: k in layers && k != kind ==> layers[k] == old(layers)[k]
      ensures kind in old(layers) ==> (
        kind in layers && layers[kind].image.Some? &&
        var img := layers[kind].image.value; var was := old(layers)[kind].image.value;
        img.width == was.width && img.height == was.height &&
        forall i, j :: 0 <= j < img.height && 0 <= i < img.width && (i, j) != (x, y) ==>
          img.pixels[j][i] == was.pixels[j][i])
      ensures kind in old(layers) ==> GetColor(x, y, kind) == colour
    {
      if kind in layers {
        var img := layers[kind].image.value;
        var row := img.pixels[y][x := colour];
        var updated := img.(pixels := img.pixels[y := row]);
        layers := layers[kind := ImageLayer(Some(updated))];
      }
    }
  }
}
