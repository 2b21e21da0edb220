/**
 * The object-detection dataset builder: it turns a dataset of
 * (image, annotations) pairs into numbered examples whose boxes are
 * normalised to the image size, decides how many 256 MiB shards a split
 * needs, and builds one split per available subset.
 *
 * Coordinates are exact reals: the rounding of Python floats is not modelled.
 */
module ObjectDetection {

  /** The label an annotation slot carries when it holds no object. */
  const Sentinel: int := -1

  /** 256 MiB, the size no shard should exceed. */
  const MaxShardSize: nat := 256 * 1024 * 1024

  /** An image, reduced to its shape and its size in bytes (`image.nbytes`). */
  datatype Image = Image(height: nat, width: nat, channels: nat, nbytes: nat)

  /** One annotation in absolute pixels: `(xmin, ymin, w, h, label)`. */
  datatype Annotation = Annotation(xmin: real, ymin: real, w: real, h: real, classLabel: int)

  /** A box in the y-first order of the output format, as fractions of the image size. */
  datatype BBox = BBox(ymin: real, xmin: real, ymax: real, xmax: real)

  datatype Object = Object(classLabel: int, bbox: BBox)

  /** A yielded example: its key and its record. */
  datatype Example = Example(key: nat, image: Image, objects: seq<Object>)

  /** What the dataset class yields: one (image, annotations) pair per image. */
  type Dataset = seq<(Image, seq<Annotation>)>

  /** The split ids the output format predefines, and any other name. */
  datatype SplitName = Train | Validation | Test | Named(name: string)

  datatype SplitGenerator = SplitGenerator(name: SplitName, numShards: nat, dataset: Dataset)

  function Min(a: real, b: real): real { if a <= b then a else b }

  // ---------------------------------------------------------------------
  // Box normalisation and the objects of one image

  /**
   * The normalised box of one annotation: y over height, x over width, in
   * y-first order. Scaling back recovers the pixel origin; the max edges are
   * the pixel far edges scaled down, clamped at 1.
   */
  function NormalizeBox(a: Annotation, height: nat, width: nat): (b: BBox)
    requires height > 0 && width > 0
    ensures b.ymin * height as real == a.ymin && b.xmin * width as real == a.xmin
    ensures b.ymax <= 1.0 && b.xmax <= 1.0
    ensures b.ymax < 1.0 ==> b.ymax * height as real == a.ymin + a.h
    ensures b.xmax < 1.0 ==> b.xmax * width as real == a.xmin + a.w
  {
    BBox(a.ymin / height as real,
         a.xmin / width as real,
         Min((a.ymin + a.h) / height as real, 1.0),
         Min((a.xmin + a.w) / width as real, 1.0))
  }

  predicate AllSentinel(anns: seq<Annotation>) {
    forall i :: 0 <= i < |anns| ==> anns[i].classLabel == Sentinel
  }

  /**
   * The image's size is only divided by when some annotation is kept, so a
   * zero-sized image is fine as long as all its annotations are the sentinel.
   */
  predicate Convertible(height: nat, width: nat, anns: seq<Annotation>) {
    (height > 0 && width > 0) || AllSentinel(anns)
  }

  /** The `objects` list of one image: the annotations without the sentinel, normalised. */
  function ConvertObjects(anns: seq<Annotation>, height: nat, width: nat): (objs: seq<Object>)
    requires Convertible(height, width, anns)
    ensures |objs| <= |anns|
    ensures forall j :: 0 <= j < |objs| ==> objs[j].classLabel != Sentinel
  {
    if anns == [] then []
    else
      var rest := ConvertObjects(anns[1..], height, width);
      if anns[0].classLabel == Sentinel then rest
      else [Object(anns[0].classLabel, NormalizeBox(anns[0], height, width))] + rest
  }

  /** How many annotations of `anns` carry a real label. */
  function CountKept(anns: seq<Annotation>): nat {
    if anns == [] then 0
    else (if anns[0].classLabel == Sentinel then 0 else 1) + CountKept(anns[1..])
  }

  /**
   * Every annotation that is not the sentinel appears in the objects exactly
   * once, normalised, at the position given by how many kept annotations
   * precede it; so the objects keep the annotations' order and nothing else
   * is in them.
   */
  lemma {:induction false} ConvertObjectsKeepsOrder(anns: seq<Annotation>, height: nat, width: nat)
    requires Convertible(height, width, anns)
    ensures |ConvertObjects(anns, height, width)| == CountKept(anns)
    ensures forall i :: 0 <= i < |anns| && anns[i].classLabel != Sentinel ==>
      CountKept(anns[..i]) < CountKept(anns) &&
      height > 0 && width > 0 &&
      ConvertObjects(anns, height, width)[CountKept(anns[..i])]
        == Object(anns[i].classLabel, NormalizeBox(anns[i], height, width))
  {
    if anns != [] {
      var tail := anns[1..];
      ConvertObjectsKeepsOrder(tail, height, width);
      forall i | 0 <= i < |anns| && anns[i].classLabel != Sentinel
        ensures CountKept(anns[..i]) < CountKept(anns)
        ensures height > 0 && width > 0
        ensures ConvertObjects(anns, height, width)[CountKept(anns[..i])]
          == Object(anns[i].classLabel, NormalizeBox(anns[i], height, width))
      {
        if i > 0 {
          assert anns[..i][0] == anns[0];
          assert anns[..i][1..] == tail[..i - 1];
          assert tail[i - 1] == anns[i];
        } else {
          assert anns[..0] == [];
        }
      }
    }
  }

  /** The max edges never exceed 1, whatever the annotation. */
  lemma MaxEdgesClamped(a: Annotation, height: nat, width: nat)
    requires height > 0 && width > 0
    ensures NormalizeBox(a, height, width).ymax <= 1.0
    ensures NormalizeBox(a, height, width).xmax <= 1.0
    ensures NormalizeBox(a, height, width).ymax == 1.0 <==> a.ymin + a.h >= height as real
    ensures NormalizeBox(a, height, width).xmax == 1.0 <==> a.xmin + a.w >= width as real
  {
    var hr, wr := height as real, width as real;
    assert (a.ymin + a.h) / hr >= 1.0 <==> a.ymin + a.h >= hr;
    assert (a.xmin + a.w) / wr >= 1.0 <==> a.xmin + a.w >= wr;
  }

  /** The min edges are not clamped: an annotation below the image gives a ymin past 1. */
  lemma MinEdgesNotClamped()
    ensures NormalizeBox(Annotation(0.0, 200.0, 0.0, 0.0, 0), 100, 50).ymin == 2.0
    ensures NormalizeBox(Annotation(150.0, 0.0, 0.0, 0.0, 0), 100, 50).xmin == 3.0
  {
  }

  /** An annotation inside the image gives a well-ordered box inside the unit square. */
  lemma NormalizedBoxInUnitSquare(a: Annotation, height: nat, width: nat)
    requires height > 0 && width > 0
    requires 0.0 <= a.xmin <= width as real && 0.0 <= a.ymin <= height as real
    requires a.w >= 0.0 && a.h >= 0.0
    ensures var b := NormalizeBox(a, height, width);
      0.0 <= b.ymin <= b.ymax <= 1.0 && 0.0 <= b.xmin <= b.xmax <= 1.0
  {
    var hr, wr := height as real, width as real;
    assert 0.0 <= a.ymin / hr <= 1.0;
    assert a.ymin / hr <= (a.ymin + a.h) / hr;
    assert 0.0 <= a.xmin / wr <= 1.0;
    assert a.xmin / wr <= (a.xmin + a.w) / wr;
  }

  /** Height 100, width 50: `(10, 5, 20, 10)` gives `(0.05, 0.2, 0.15, 0.6)`; a box past the right edge clamps. */
  lemma NormalizeBoxExamples()
    ensures NormalizeBox(Annotation(10.0, 5.0, 20.0, 10.0, 2), 100, 50) == BBox(0.05, 0.2, 0.15, 0.6)
    ensures NormalizeBox(Annotation(45.0, 0.0, 20.0, 100.0, 0), 100, 50) == BBox(0.0, 0.9, 1.0, 1.0)
  {
  }

  // ---------------------------------------------------------------------
  // Example generation

  predicate Generable(dataset: Dataset) {
    forall i :: 0 <= i < |dataset| ==>
      Convertible(dataset[i].0.height, dataset[i].0.width, dataset[i].1)
  }

  /** The example the builder yields for the `i`-th pair of the dataset. */
  function ExampleAt(dataset: Dataset, i: nat): Example
    requires Generable(dataset) && i < |dataset|
  {
    var (image, anns) := dataset[i];
    Example(i, image, ConvertObjects(anns, image.height, image.width))
  }

  /**
   * Walks the dataset once and collects what the generator yields: one
   * example per image, keyed 0, 1, 2, ... in iteration order, with the
   * image passed through unchanged.
   */
  method GenerateExamples(dataset: Dataset) returns (examples: seq<Example>)
    requires Generable(dataset)
    ensures |examples| == |dataset|
    ensures forall i :: 0 <= i < |dataset| ==>
      examples[i].key == i && examples[i].image == dataset[i].0 &&
      examples[i].objects == ConvertObjects(dataset[i].1, dataset[i].0.height, dataset[i].0.width)
  {
    examples := [];
    var i := 0;
    while i < |dataset|
      invariant 0 <= i <= |dataset|
      invariant |examples| == i
      invariant forall j :: 0 <= j < i ==> examples[j] == ExampleAt(dataset, j)
    {
      var (image, anns) := dataset[i];
      var objects := ConvertObjects(anns, image.height, image.width);
      examples := examples + [Example(i, image, objects)];
      i := i + 1;
    }
  }

  // ---------------------------------------------------------------------
  // Shard sizing

  /** The summed byte size of the dataset's images: at least the size of any one of them. */
  function TotalSize(dataset: Dataset): (total: nat)
    ensures forall i :: 0 <= i < |dataset| ==> dataset[i].0.nbytes <= total
  {
    if dataset == [] then 0 else dataset[0].0.nbytes + TotalSize(dataset[1..])
  }

  /** Integer ceiling division of the total size by 256 MiB: the shards hold the whole dataset. */
  function NumShards(dataset: Dataset): (shards: nat)
    ensures shards * MaxShardSize >= TotalSize(dataset)
  {
    (TotalSize(dataset) + MaxShardSize - 1) / MaxShardSize
  }

  /**
   * The shard count is the least `n` with `n * 256 MiB >= total`: the shards
   * can hold everything, one fewer could not, and there is no minimum of 1
   * (an empty dataset gets 0 shards).
   */
  lemma NumShardsIsCeiling(dataset: Dataset)
    ensures NumShards(dataset) * MaxShardSize >= TotalSize(dataset)
    ensures TotalSize(dataset) > 0 ==>
      NumShards(dataset) >= 1 && (NumShards(dataset) - 1) * MaxShardSize < TotalSize(dataset)
    ensures TotalSize(dataset) == 0 ==> NumShards(dataset) == 0
  {
  }

  /** Any count that is a ceiling of the total is the shard count. */
  lemma NumShardsUnique(dataset: Dataset, n: nat)
    requires n * MaxShardSize >= TotalSize(dataset)
    requires n == 0 || (n - 1) * MaxShardSize < TotalSize(dataset)
    ensures n == NumShards(dataset)
  {
    NumShardsIsCeiling(dataset);
  }

  // ---------------------------------------------------------------------
  // Splits

  /** `train`, `validation` and `test` are predefined split ids; any other subset name is kept verbatim. */
  function SplitNameOf(subset: string): (name: SplitName)
    ensures SplitString(name) == subset
  {
    if subset == "train" then Train
    else if subset == "validation" then Validation
    else if subset == "test" then Test
    else Named(subset)
  }

  /** The name a split id stands for. */
  function SplitString(name: SplitName): string {
    match name
    case Train => "train"
    case Validation => "validation"
    case Test => "test"
    case Named(s) => s
  }

  /**
   * Every subset's split is named after the subset, and it is a predefined
   * id exactly when the subset is one of the three well-known names.
   */
  lemma SplitNameRoundTrip(subset: string)
    ensures SplitString(SplitNameOf(subset)) == subset
    ensures !SplitNameOf(subset).Named? <==> subset in ["train", "validation", "test"]
  {
  }

  /**
   * One split per available subset, in the same order, each with the subset's
   * split name, its shard count and the dataset the subset was opened with.
   * Opening a subset is the dataset class's constructor, given here as `open`.
   */
  method SplitGenerators(availableSubsets: seq<string>, open: string -> Dataset)
    returns (splits: seq<SplitGenerator>)
    ensures |splits| == |availableSubsets|
    ensures forall i :: 0 <= i < |availableSubsets| ==>
      var dataset := open(availableSubsets[i]);
      splits[i] == SplitGenerator(SplitNameOf(availableSubsets[i]), NumShards(dataset), dataset)
  {
    splits := [];
    for i := 0 to |availableSubsets|
      invariant |splits| == i
      invariant forall j :: 0 <= j < i ==>
        var dataset := open(availableSubsets[j]);
        splits[j] == SplitGenerator(SplitNameOf(availableSubsets[j]), NumShards(dataset), dataset)
    {
      var subset := availableSubsets[i];
      var dataset := open(subset);
      splits := splits + [SplitGenerator(SplitNameOf(subset), NumShards(dataset), dataset)];
    }
  }
}
